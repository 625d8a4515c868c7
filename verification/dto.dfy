/** The record the service keeps under each API key. */
module Dto {

  /** `userId` owns the key; `expiresAt` is the absolute expiry instant, in
      seconds on the same clock as the store's deadlines. */
  datatype ApiKeyData = ApiKeyData(userId: string, expiresAt: int)
}
