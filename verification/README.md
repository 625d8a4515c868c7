# API key service — a Dafny model

This project models `ApiKeyService` of socketKeyAPI. The service issues short-lived API keys, validates them and renews them. It keeps them in a Redis store with a per-entry time-to-live (TTL). Each key maps to an `ApiKeyData` record: the owning `userId` and an absolute `expiresAt`.

The Redis client stands outside the model. In its place, `ttl_store.dfy` defines an abstract store: a `map<string, Entry>` whose entries carry an absolute deadline, plus an integer clock in seconds. An entry is live while `now < deadline`. Expired entries stay in the map but no read sees them. This stand-in for Redis's TTL is a modelling assumption.

Every write sets two expiries from one timeout: the record's `expiresAt` and the store's deadline. The central invariant, `Service.Consistent`, says these two are equal for every entry. Storing and extending keep it. `Service.Run` replays any sequence of state-changing calls. The lemmas about `Run` show four things:

- the invariant holds in every reachable state;
- a readable record is never past its own `expiresAt`;
- in the model, where every call happens at one instant, a dead key comes back only through a store or generate call;
- a key's owner changes only through a store or generate call.

Files:
- `ttl_store.dfy` — module `TtlStore`: the abstract TTL store (`Set`, `Get`, `HasKey`).
- `dto.dfy` — module `Dto`: the `ApiKeyData` record.
- `service.dfy` — module `Service`: the functions that specify each write, the invariant, the call-trace model with its lemmas, and the class `ApiKeyService`. The class holds the store, the clock and the configured default timeout.

## Model

| member | source | states |
|---|---|---|
| TtlStore.Set | src/main/java/com/eastwoo/socketkeyapi/api/service/ApiKeyService.java:58 | a write with a duration makes the value readable under the key, with deadline `now + ttl`; every other key is left as it was |
| TtlStore.ReadAfterWrite | src/main/java/com/eastwoo/socketkeyapi/api/service/ApiKeyService.java:94-98 | the store's read-after-write law, for both `get` and `hasKey`: at any instant, the key just written reads as the written value exactly while its time-to-live has not run out; every other key reads as it did before the write |
| Service.AfterStore | src/main/java/com/eastwoo/socketkeyapi/api/service/ApiKeyService.java:53-59 | after storing, the key reads back as `(userId, now + timeout)` with store deadline `now + timeout`; any earlier entry under the key is overwritten; other keys are unchanged; the expiry invariant is kept |
| Service.AfterExtend | src/main/java/com/eastwoo/socketkeyapi/api/service/ApiKeyService.java:76-85 | a missing or expired key leaves the store unchanged; a live key keeps its `userId`, and both its `expiresAt` and its deadline are reset to `now + default`, whatever timeout it had; other keys are unchanged; the expiry invariant is kept |
| Service.Step | src/main/java/com/eastwoo/socketkeyapi/api/service/ApiKeyService.java:41-85 | each state-changing call keeps the expiry invariant; the clock never goes back, and only the passing of time moves it |
| Service.RunKeepsConsistent | src/main/java/com/eastwoo/socketkeyapi/api/service/ApiKeyService.java:53-83 | after any sequence of store, generate, extend and time steps, every entry's `expiresAt` still equals its store deadline |
| Service.ReadableRecordsUnexpired | src/main/java/com/eastwoo/socketkeyapi/api/service/ApiKeyService.java:93-95 | in every state reachable from a consistent store (for example an empty one), a record that `getApiKeyInfo` can return has `now < expiresAt` |
| Service.NoResurrection | src/main/java/com/eastwoo/socketkeyapi/api/service/ApiKeyService.java:76-84 | in the model, where each call happens at one instant, a key that is not live stays not live until a store or generate call writes it; extending it writes nothing |
| Service.OwnerStable | src/main/java/com/eastwoo/socketkeyapi/api/service/ApiKeyService.java:79-80 | without a store or generate call on the key, any record readable under it keeps the same `userId`; extension copies the owner forward |
| Service.ExpiresAfterTimeout | src/main/java/com/eastwoo/socketkeyapi/api/service/ApiKeyService.java:53-58 | a key stored with timeout `t` reads back as `(userId, now + t)` while less than `t` seconds have passed, and reads as absent from then on |
| Service.ApiKeyService.constructor | src/main/java/com/eastwoo/socketkeyapi/api/service/ApiKeyService.java:27-33 | the service starts over the store it is given, which may already hold entries, provided each entry's `expiresAt` equals its deadline; the default timeout is positive and the invariant holds |
| Service.ApiKeyService.GenerateApiKey | src/main/java/com/eastwoo/socketkeyapi/api/service/ApiKeyService.java:41-44 | returns exactly the key it was given; leaves the store as `storeApiKey` with the default timeout would; keeps the invariant |
| Service.ApiKeyService.StoreApiKey | src/main/java/com/eastwoo/socketkeyapi/api/service/ApiKeyService.java:53-59 | the new store is `AfterStore` of the old one at the current time; the clock is unchanged; the invariant is kept |
| Service.ApiKeyService.ValidateApiKey | src/main/java/com/eastwoo/socketkeyapi/api/service/ApiKeyService.java:67-69 | true exactly when `getApiKeyInfo` returns a record for the key |
| Service.ApiKeyService.ExtendApiKeyExpiration | src/main/java/com/eastwoo/socketkeyapi/api/service/ApiKeyService.java:76-85 | the new store is `AfterExtend` of the old one at the current time; the clock is unchanged; the invariant is kept |
| Service.ApiKeyService.GetApiKeyInfo | src/main/java/com/eastwoo/socketkeyapi/api/service/ApiKeyService.java:93-95 | returns the record last written under the key exactly when the key is live; under the invariant, that record has `now < expiresAt` |
| Service.ApiKeyService.HasApiKey | src/main/java/com/eastwoo/socketkeyapi/api/service/ApiKeyService.java:97-99 | agrees with `validateApiKey` for every key and every state |
| Service.ApiKeyService.Advance | src/main/java/com/eastwoo/socketkeyapi/api/service/ApiKeyService.java:56 | time passes on the clock that `LocalDateTime.now()` reads; the store and the invariant are untouched |

## Left out

- The Redis client: network I/O, serialisation and store failures. The abstract map-plus-clock store replaces it, so no operation can fail.
- The unchecked cast of the stored `Object` to `ApiKeyData`. The store holds `ApiKeyData` values, so the cast cannot fail.
- Spring wiring and `@Value` injection of `keepAlive.default.timeout`. The default timeout is a constructor argument, and it must be positive.
- The wall clock. `LocalDateTime.now()` and Redis's own clock become one integer clock in seconds, moved only by `Advance`. The model assumes the record's `expiresAt` and the store's TTL start at the same instant. In the running system they can differ. `expiresAt` is a local date-time with no time zone, read from the JVM host's clock. So it can drift from the store's real deadline because of the call's latency, the host clock's error, and daylight-saving or time-zone shifts.
- Each call is modelled as atomic at one instant. `extendApiKeyExpiration` reads at ApiKeyService.java:77 and writes at :83. If the key's TTL runs out between those two lines, the `set` at :83 creates the key again with a fresh default TTL, even with a single caller. The model does not capture this. `Service.NoResurrection` holds for the model only.
- Service.ApiKeyService.StoreApiKey: requires `timeout > 0`. The code does not check the timeout, and what Redis does with a zero or negative TTL is not part of this model.
- The 32-bit range of Java's `int` timeout. Timeouts are unbounded integers. `plusSeconds` takes a `long`, so the source does not overflow either.
- The read-then-write race in `extendApiKeyExpiration` under concurrent calls. This is concurrency.
- Service.ApiKeyService.constructor: requires the initial store to be consistent. The store has to satisfy the invariant when the service starts. Between calls, only this service writes to it. Another client that writes records whose `expiresAt` does not match their TTL is not modelled.
- `LoginResponse` has one field and no behaviour.
- `ApiKeyData.java` is not part of this model. The record is modelled from its builder use: a `userId` and an `expiresAt`.
