/** The API key service: issues, validates and renews short-lived API keys
    kept in a time-to-live store.

    Every write puts the same instant in two places: the record's own
    `expiresAt` and the store's deadline for the entry. `Consistent` states
    that they agree, and every operation keeps it.
 */
module Service {
  import opened TtlStore
  import opened Dto

  /** The payload expiry of every entry equals the store's deadline for it. */
  ghost predicate Consistent(s: Store<ApiKeyData>)
  {
    forall key :: key in s ==> s[key].value.expiresAt == s[key].deadline
  }

  /** The store after `storeApiKey(apiKey, userId, timeout)` at time `now`. */
  function AfterStore(s: Store<ApiKeyData>, now: int, apiKey: string, userId: string, timeout: int)
    : (r: Store<ApiKeyData>)
    requires timeout > 0
    ensures Get(r, now, apiKey) == Some(ApiKeyData(userId, now + timeout))
    ensures apiKey in r && r[apiKey].deadline == now + timeout
    ensures r - {apiKey} == s - {apiKey}
    ensures Consistent(s) ==> Consistent(r)
  {
    Set(s, now, apiKey, ApiKeyData(userId, now + timeout), timeout)
  }

  /** The store after `extendApiKeyExpiration(apiKey)` at time `now`, with
      `defaultTimeout` the configured keep-alive. */
  function AfterExtend(s: Store<ApiKeyData>, now: int, apiKey: string, defaultTimeout: int)
    : (r: Store<ApiKeyData>)
    requires defaultTimeout > 0
    ensures !HasKey(s, now, apiKey) ==> r == s
    ensures HasKey(s, now, apiKey) ==>
              && Get(r, now, apiKey) == Some(ApiKeyData(s[apiKey].value.userId, now + defaultTimeout))
              && apiKey in r && r[apiKey].deadline == now + defaultTimeout
    ensures r - {apiKey} == s - {apiKey}
    ensures Consistent(s) ==> Consistent(r)
  {
    match Get(s, now, apiKey)
    case None => s
    case Some(data) =>
      Set(s, now, apiKey, ApiKeyData(data.userId, now + defaultTimeout), defaultTimeout)
  }

  /** The state the service observes: the store and the clock. */
  datatype Snapshot = Snapshot(store: Store<ApiKeyData>, now: int)

  /** The calls that change the state. The lookups (`validateApiKey`,
      `hasApiKey`, `getApiKeyInfo`) change nothing and are not listed;
      `Advance` is the passing of time. */
  datatype Call =
    | StoreKey(apiKey: string, userId: string, timeout: int)
    | GenerateKey(apiKey: string, userId: string)
    | ExtendKey(apiKey: string)
    | Advance(seconds: nat)
  {
    predicate WellFormed() { StoreKey? ==> timeout > 0 }

    /** Does this call write a new owner under `key`? */
    predicate Writes(key: string) { (StoreKey? || GenerateKey?) && apiKey == key }
  }

  predicate AllWellFormed(calls: seq<Call>)
  {
    forall c :: c in calls ==> c.WellFormed()
  }

  function Step(st: Snapshot, defaultTimeout: int, c: Call): (r: Snapshot)
    requires defaultTimeout > 0 && c.WellFormed()
    ensures r.now >= st.now
    ensures c.Advance? ==> r.store == st.store && r.now == st.now + c.seconds
    ensures !c.Advance? ==> r.now == st.now
    ensures Consistent(st.store) ==> Consistent(r.store)
  {
    match c
    case StoreKey(k, u, t) => Snapshot(AfterStore(st.store, st.now, k, u, t), st.now)
    case GenerateKey(k, u) => Snapshot(AfterStore(st.store, st.now, k, u, defaultTimeout), st.now)
    case ExtendKey(k) => Snapshot(AfterExtend(st.store, st.now, k, defaultTimeout), st.now)
    case Advance(dt) => Snapshot(st.store, st.now + dt)
  }

  /** The state after the calls, one after the other. */
  function Run(st: Snapshot, defaultTimeout: int, calls: seq<Call>): Snapshot
    requires defaultTimeout > 0 && AllWellFormed(calls)
    decreases |calls|
  {
    if calls == [] then st else Run(Step(st, defaultTimeout, calls[0]), defaultTimeout, calls[1..])
  }

  /** Every sequence of calls keeps payload expiry and store expiry in step. */
  lemma {:induction false} RunKeepsConsistent(st: Snapshot, defaultTimeout: int, calls: seq<Call>)
    requires defaultTimeout > 0 && AllWellFormed(calls)
    requires Consistent(st.store)
    ensures Consistent(Run(st, defaultTimeout, calls).store)
    decreases |calls|
  {
    if calls != [] {
      RunKeepsConsistent(Step(st, defaultTimeout, calls[0]), defaultTimeout, calls[1..]);
    }
  }

  /** In every state reachable from a consistent store (an empty one, say),
      a record that can be read is not expired by its own `expiresAt`:
      presence in the store and the payload's expiry say the same thing. */
  lemma ReadableRecordsUnexpired(st: Snapshot, defaultTimeout: int, calls: seq<Call>, key: string)
    requires defaultTimeout > 0 && AllWellFormed(calls)
    requires Consistent(st.store)
    ensures var r := Run(st, defaultTimeout, calls);
            Get(r.store, r.now, key).Some? ==> r.now < Get(r.store, r.now, key).value.expiresAt
  {
    RunKeepsConsistent(st, defaultTimeout, calls);
  }

  /** In the model, where each call happens at one instant, a key that is not
      live stays dead until a store or generate call writes it: extending it
      does nothing and time only moves forward. */
  lemma {:induction false} NoResurrection(st: Snapshot, defaultTimeout: int, calls: seq<Call>, key: string)
    requires defaultTimeout > 0 && AllWellFormed(calls)
    requires !HasKey(st.store, st.now, key)
    requires forall c :: c in calls ==> !c.Writes(key)
    ensures var r := Run(st, defaultTimeout, calls); !HasKey(r.store, r.now, key)
    decreases |calls|
  {
    if calls != [] {
      var next := Step(st, defaultTimeout, calls[0]);
      assert !calls[0].Writes(key);
      if !calls[0].Advance? && calls[0].apiKey != key {
        Untouched(st.store, next.store, calls[0].apiKey, key);
      }
      NoResurrection(next, defaultTimeout, calls[1..], key);
    }
  }

  /** The owner of a key never changes except by a store or generate call on
      that key: extension copies the `userId` forward. */
  lemma {:induction false} OwnerStable(st: Snapshot, defaultTimeout: int, calls: seq<Call>, key: string, owner: string)
    requires defaultTimeout > 0 && AllWellFormed(calls)
    requires Get(st.store, st.now, key).Some? ==> Get(st.store, st.now, key).value.userId == owner
    requires forall c :: c in calls ==> !c.Writes(key)
    ensures var r := Run(st, defaultTimeout, calls);
            Get(r.store, r.now, key).Some? ==> Get(r.store, r.now, key).value.userId == owner
    decreases |calls|
  {
    if calls != [] {
      var next := Step(st, defaultTimeout, calls[0]);
      assert !calls[0].Writes(key);
      OwnerStable(next, defaultTimeout, calls[1..], key, owner);
    }
  }

  /** A key stored with timeout `t` reads back until `t` seconds have passed,
      and not from then on. */
  lemma ExpiresAfterTimeout(s: Store<ApiKeyData>, now: int, defaultTimeout: int,
                            key: string, userId: string, timeout: int, elapsed: nat)
    requires defaultTimeout > 0 && timeout > 0
    ensures var r := Run(Snapshot(s, now), defaultTimeout, [StoreKey(key, userId, timeout), Advance(elapsed)]);
            Get(r.store, r.now, key) ==
              if elapsed < timeout then Some(ApiKeyData(userId, now + timeout)) else None
  {
    var calls := [StoreKey(key, userId, timeout), Advance(elapsed)];
    var mid := Step(Snapshot(s, now), defaultTimeout, calls[0]);
    var last := Step(mid, defaultTimeout, calls[1]);
    assert calls[1..] == [Advance(elapsed)] && calls[1..][1..] == [];
    calc {
      Run(Snapshot(s, now), defaultTimeout, calls);
      Run(mid, defaultTimeout, calls[1..]);
      Run(last, defaultTimeout, []);
    }
  }

  /** The service object. Each state-changing method performs the matching
      `Step` (`StoreApiKey` a `StoreKey`, `GenerateApiKey` a `GenerateKey`,
      `ExtendApiKeyExpiration` an `ExtendKey`, `Advance` an `Advance`): its
      `ensures` uses the same `AfterStore` or `AfterExtend` with the same
      arguments, so the lemmas about `Run` hold of every sequence of calls
      on it. */
  class ApiKeyService {
    /** The store's contents, live and expired. */
    var store: Store<ApiKeyData>
    /** The store's clock, in seconds. */
    var now: int
    /** The configured keep-alive, in seconds. */
    const defaultKeepAliveTimeout: int

    ghost predicate Valid()
      reads this
    {
      defaultKeepAliveTimeout > 0 && Consistent(store)
    }

    /** The service over a store that may already hold entries, provided
        each of them carries its own deadline as `expiresAt`. */
    constructor (initial: Store<ApiKeyData>, defaultTimeout: int, clock: int)
      requires defaultTimeout > 0 && Consistent(initial)
      ensures Valid()
      ensures defaultKeepAliveTimeout == defaultTimeout && store == initial && now == clock
    {
      defaultKeepAliveTimeout := defaultTimeout;
      store := initial;
      now := clock;
    }

    /** Issues `apiKey` to `userId` for the default keep-alive and returns it. */
    method GenerateApiKey(apiKey: string, userId: string) returns (issued: string)
      requires Valid()
      modifies this
      ensures Valid()
      ensures issued == apiKey
      ensures store == AfterStore(old(store), now, apiKey, userId, defaultKeepAliveTimeout)
      ensures now == old(now)
    {
      StoreApiKey(apiKey, userId, defaultKeepAliveTimeout);
      issued := apiKey;
    }

    /** Writes a record for `userId` under `apiKey`, expiring `timeout` seconds from now. */
    method StoreApiKey(apiKey: string, userId: string, timeout: int)
      requires Valid() && timeout > 0
      modifies this
      ensures Valid()
      ensures store == AfterStore(old(store), now, apiKey, userId, timeout)
      ensures now == old(now)
    {
      var data := ApiKeyData(userId, now + timeout);
      store := Set(store, now, apiKey, data, timeout);
    }

    function ValidateApiKey(apiKey: string): (valid: bool)
      reads this
      ensures valid <==> GetApiKeyInfo(apiKey).Some?
    {
      HasKey(store, now, apiKey)
    }

    /** Resets a live key's expiry to the default keep-alive from now; does
        nothing when the key is missing or expired. */
    method ExtendApiKeyExpiration(apiKey: string)
      requires Valid()
      modifies this
      ensures Valid()
      ensures store == AfterExtend(old(store), now, apiKey, defaultKeepAliveTimeout)
      ensures now == old(now)
    {
      var current := Get(store, now, apiKey);
      if current.Some? {
        var data := ApiKeyData(current.value.userId, now + defaultKeepAliveTimeout);
        store := Set(store, now, apiKey, data, defaultKeepAliveTimeout);
      }
    }

    /** The record last written under `apiKey`, or None once it is missing or expired. */
    function GetApiKeyInfo(apiKey: string): (info: Option<ApiKeyData>)
      reads this
      ensures info.Some? <==> apiKey in store && now < store[apiKey].deadline
      ensures info.Some? ==> info.value == store[apiKey].value
      ensures Valid() && info.Some? ==> now < info.value.expiresAt
    {
      Get(store, now, apiKey)
    }

    function HasApiKey(apiKey: string): (present: bool)
      reads this
      ensures present == ValidateApiKey(apiKey)
    {
      HasKey(store, now, apiKey)
    }

    /** Lets `seconds` pass on the store's clock. */
    method Advance(seconds: nat)
      requires Valid()
      modifies this
      ensures Valid()
      ensures store == old(store) && now == old(now) + seconds
    {
      now := now + seconds;
    }
  }
}
