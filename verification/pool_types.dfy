/** Value types shared by the transaction cache, the pool specification and the pool itself. */
module PoolTypes {

  /** One byte of a transaction hash (Go `byte`). */
  newtype byte = b: int | 0 <= b < 0x100

  /** Go `uint32`, the type of the cache configuration's shard-count hint. */
  newtype uint32 = x: int | 0 <= x < 0x1_0000_0000

  /** A transaction hash (Go `[]byte`); the identity of a transaction inside one shard's cache. */
  type Hash = seq<byte>

  /** A callback registered to hear about newly added transactions (Go `func(key []byte)`). */
  type Handler = Hash -> ()

  /** One asynchronous dispatch `go handler(txHash)`: which handler was started, with which hash. */
  datatype Notification = Notification(handler: Handler, hash: Hash)

  /** The part of `storageUnit.CacheConfig` the pool reads: the chunk-count hint for new caches. */
  datatype CacheConfig = CacheConfig(shards: uint32)

  datatype Option<+T> = None | Some(value: T)

  /** How a call of the restricted pool surface ends: normally, or with a Go panic and its message. */
  datatype Outcome = Completed | Panicked(message: string)
}
