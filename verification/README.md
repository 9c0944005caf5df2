# Sharded transaction pool — a Dafny model

This project models the sharded transaction pool of the Elrond node
(`dataRetriever/txpool/shardedTxPool.go`). The pool is an in-memory registry,
`backingMap`, from a routing key (`cacheID`, conventionally a source/destination shard
pair) to a `txPoolShard`. Each shard owns one transaction cache. The pool:

- creates a shard lazily on first reference (`getOrCreateShard`) and never removes one;
- inserts transactions into a shard's cache (`addTx`);
- starts every registered `onAdd` callback when that cache reports the hash as new (`onAdded`);
- searches all shards for a hash (`searchFirstTx`).

It also exposes a wider interface. Part of it always panics (`RemoveData`,
`RemoveDataFromAllShards`, `MoveData`, `CreateShardStore`). The other part has its body
commented out and does nothing (`RegisterHandler`, `RemoveSetOfDataFromPool`,
`MergeShardStores`, `Clear`, `ClearShardStore`, `MoveTxs`, `removeTx`, `removeTxBulk`,
`removeTxFromAllShards`).

Files and modules:

- `pool_types.dfy` (`PoolTypes`): hashes as byte sequences, callbacks, the dispatch
  record `Notification`, the cache configuration, `Option` and `Outcome`.
- `txcache.dfy` (`Txcache`): the foreign `txcache.TxCache`, reduced to the contract the
  pool consumes. It is a class holding a hash→transaction map and its chunk-count hint.
  `AddTx` reports `added` exactly when the hash was absent; `GetByTxHash` is a lookup.
- `pool_spec.dfy` (`PoolSpec`): the pool as a value, `PoolView`. It holds the contents of
  every shard's cache, the callbacks and the log of dispatches. Beside it are the functions
  for lazy creation (`GetOrCreate`), insertion (`Add`) and dispatch (`Dispatch`), a run of
  arbitrary operations (`Op`, `Step`, `Run`), and the lemmas about them.
- `sharded_tx_pool.dfy` (`TxPool`): the pool itself. `Shard` is a class with the fixed
  fields `cacheID` and `cache`. `ShardedTxPool` is a class with the fields `backingMap`,
  `cacheConfig` and `onAddCallbacks`, plus a ghost `notifications` log. Every mutating method
  ensures `State() == F(old(State()))` for the matching function `F` of `PoolSpec`; for
  `OnAdded`, `F` appends `Dispatch(onAddCallbacks, txHash)` to the log.
  `SearchFirstTx` is a loop over the unvisited keys. It picks the next key with `:|`, since a
  Go map has no iteration order.
- `pool_scenario.dfy` (`PoolScenario`): two clients written only against the contracts.
  - Adding hash `0xAA` twice to `"1_2"` keeps the first transaction.
  - Searching then finds that first transaction.
  - Shard `"3_4"` does not hold the hash.
  - The handler registered on the way is not stored, and nothing is ever dispatched.
  - `RemoveData` panics.
  - Two look-ups of one cacheID return the same shard object.

Two facts about the code shape what the model proves:

- `RemoveData` panics (shardedTxPool.go:130-132). The removal helpers `removeTx`,
  `removeTxBulk` and `removeTxFromAllShards` have empty bodies, and so does
  `RemoveSetOfDataFromPool`.
- `RegisterHandler` stores nothing (shardedTxPool.go:223-232). So `onAddCallbacks` stays
  empty and no handler is ever dispatched (`RunNeverNotifies`, `FreshPoolNeverNotifies`).

## Model

| member | source | states |
|---|---|---|
| Txcache.TxCache.constructor | dataRetriever/txpool/shardedTxPool.go:70-71 | a new cache is empty and keeps the chunk hint it was given |
| Txcache.TxCache.AddTx | dataRetriever/txpool/shardedTxPool.go:92 | `added` holds iff the hash was absent; a new hash is stored with its transaction, a present one keeps its first transaction |
| Txcache.TxCache.GetByTxHash | dataRetriever/txpool/shardedTxPool.go:120 | found iff the cache holds the hash, and then the result is the stored transaction; otherwise nil |
| PoolSpec.GetOrCreate | dataRetriever/txpool/shardedTxPool.go:54-81 | afterwards `id` is a shard and the key set grows by `{id}` only; a present shard leaves the state unchanged; a new one has an empty cache; other shards and the callbacks are unchanged |
| PoolSpec.GetOrCreateIdempotent | dataRetriever/txpool/shardedTxPool.go:55-61 | creating the same shard twice is the same as creating it once |
| PoolSpec.DispatchOncePerHandler | dataRetriever/txpool/shardedTxPool.go:98-105 | one dispatch is started per registered handler, in registration order, each with the added hash |
| PoolSpec.AddEffect | dataRetriever/txpool/shardedTxPool.go:89-96 | after `addTx` the shard exists and holds the hash; a new hash maps to the given tx; a duplicate leaves the shard unchanged; every other shard is unchanged; the log grows by one dispatch per handler iff the cache reported the hash new |
| PoolSpec.AddTwiceNotifiesOnce | dataRetriever/txpool/shardedTxPool.go:89-96 | a second add of the same hash to the same shard changes nothing and dispatches nothing |
| PoolSpec.AddThenHolds | dataRetriever/txpool/shardedTxPool.go:89-127 | after `addTx(h, tx, id)` some shard holds `h`, and holds it with `tx` when it was new |
| PoolSpec.StepGrows | dataRetriever/txpool/shardedTxPool.go:54-81 | no operation that returns removes a shard or changes the callbacks |
| PoolSpec.RunGrows | dataRetriever/txpool/shardedTxPool.go:43-232 | over any run of operations the set of cacheIDs only grows and the callbacks stay the same |
| PoolSpec.RunNeverNotifies | dataRetriever/txpool/shardedTxPool.go:222-232 | a pool without callbacks keeps none, and no run of operations dispatches anything |
| PoolSpec.FreshPoolNeverNotifies | dataRetriever/txpool/shardedTxPool.go:32-40 | from a fresh pool, no run of operations ever dispatches a callback |
| TxPool.ShardedTxPool.constructor | dataRetriever/txpool/shardedTxPool.go:32-40 | empty `backingMap`, empty `onAddCallbacks`, the given `cacheConfig`, empty state |
| TxPool.ShardedTxPool.GetOrCreateShard | dataRetriever/txpool/shardedTxPool.go:54-81 | returns the shard filed under `cacheID`, whose `CacheID` is `cacheID`; a present one is returned with `backingMap` unchanged; a missing one is a fresh shard with a fresh empty cache using `cacheConfig.Shards`, added as the only new entry; state follows `GetOrCreate` |
| TxPool.ShardedTxPool.GetTxCache | dataRetriever/txpool/shardedTxPool.go:49-52 | returns exactly the cache of shard `cacheID`, creating the shard when missing |
| TxPool.ShardedTxPool.ShardDataStore | dataRetriever/txpool/shardedTxPool.go:43-46 | returns exactly the cache of shard `cacheID` and its contents, creating the shard when missing |
| TxPool.ShardedTxPool.OnAdded | dataRetriever/txpool/shardedTxPool.go:98-105 | appends one `(handler, hash)` dispatch per registered handler to the log, in order, and changes nothing else in the state |
| TxPool.ShardedTxPool.AddTx | dataRetriever/txpool/shardedTxPool.go:89-96 | the new state is `Add` of the old one; only shard `cacheID` changes; existing shards keep their identity |
| TxPool.ShardedTxPool.AddData | dataRetriever/txpool/shardedTxPool.go:84-86 | same as `AddTx` for a value of transaction type |
| TxPool.ShardedTxPool.SearchFirstTx | dataRetriever/txpool/shardedTxPool.go:114-127 | found iff some shard's cache holds the hash; a found tx is one a shard holds under the hash; not found gives nil; reads only |
| TxPool.ShardedTxPool.SearchFirstData | dataRetriever/txpool/shardedTxPool.go:108-111 | same answer as `SearchFirstTx` |
| TxPool.ShardedTxPool.RegisterHandler | dataRetriever/txpool/shardedTxPool.go:223-232 | the state, the callbacks and `backingMap` are unchanged |
| TxPool.ShardedTxPool.RemoveTx | dataRetriever/txpool/shardedTxPool.go:135-138 | the state and `backingMap` are unchanged |
| TxPool.ShardedTxPool.RemoveSetOfDataFromPool | dataRetriever/txpool/shardedTxPool.go:141-143 | the state and `backingMap` are unchanged |
| TxPool.ShardedTxPool.RemoveTxBulk | dataRetriever/txpool/shardedTxPool.go:146-150 | the state and `backingMap` are unchanged |
| TxPool.ShardedTxPool.RemoveTxFromAllShards | dataRetriever/txpool/shardedTxPool.go:158-166 | the state and `backingMap` are unchanged |
| TxPool.ShardedTxPool.MergeShardStores | dataRetriever/txpool/shardedTxPool.go:169-180 | the state and `backingMap` are unchanged (no source shard is deleted) |
| TxPool.ShardedTxPool.MoveTxs | dataRetriever/txpool/shardedTxPool.go:188-199 | the state and `backingMap` are unchanged |
| TxPool.ShardedTxPool.Clear | dataRetriever/txpool/shardedTxPool.go:202-208 | the state and `backingMap` are unchanged (no entry is deleted) |
| TxPool.ShardedTxPool.ClearShardStore | dataRetriever/txpool/shardedTxPool.go:211-214 | the state and `backingMap` are unchanged |
| TxPool.ShardedTxPool.RemoveData | dataRetriever/txpool/shardedTxPool.go:130-132 | always panics with its message, whatever the arguments |
| TxPool.ShardedTxPool.RemoveDataFromAllShards | dataRetriever/txpool/shardedTxPool.go:153-155 | always panics with its message, whatever the arguments |
| TxPool.ShardedTxPool.MoveData | dataRetriever/txpool/shardedTxPool.go:183-185 | always panics with its message, whatever the arguments |
| TxPool.ShardedTxPool.CreateShardStore | dataRetriever/txpool/shardedTxPool.go:218-220 | always panics with its message, whatever the arguments |
| PoolScenario.AddSearchIsolate | dataRetriever/txpool/shardedTxPool.go:84-132 | adding a hash twice keeps the first tx, which search then finds; another shard's cache lacks it; the registered handler is not stored and no dispatch happens; `RemoveData` panics |
| PoolScenario.SameShardTwice | dataRetriever/txpool/shardedTxPool.go:54-81 | two look-ups of one cacheID return the same shard object and leave one entry |

## Left out

- Locking: `sync.RWMutex` on `backingMap` and on the callbacks. Each method is one
  sequential step. The double-checked lookup of `getOrCreateShard` is one map check,
  because its second check can only hit under concurrency.
- Goroutines: `go handler(txHash)` becomes an entry of the ghost `notifications` log. The
  handler's execution, its ordering and its panics are not modelled.
- The internals of `txcache.TxCache` (chunking, ordering, capacity eviction): it is a
  foreign package. Its `AddTx` is modelled as dedup by hash that never evicts, so the model
  shows no transaction disappearing on its own. A real cache that evicts a hash could later
  report the same hash as added again, and the pool would then notify again. The model
  excludes this: `PoolSpec.AddTwiceNotifiesOnce` and the "dispatch iff added" clause of
  `PoolSpec.AddEffect` hold only for a cache that never evicts.
- The type assertion `value.(data.TransactionHandler)` in `AddData`: it is the argument's
  type `Tx` here, so the panic on a value of another type is not modelled.
- The fields of `storageUnit.CacheConfig` other than `Shards`: the pool reads no other field.
- The panicking operations return `Panicked(message)` instead of unwinding the goroutine.
  In `PoolSpec.Run` a panicking operation ends the run.
- `IsInterfaceNil` and the package logger: nil checks and logging only.
- The node wiring in `cmd/node/factory/structs.go`, the network factory tests, the
  epoch-validator stub and the genesis getter tests: construction glue and tests outside
  the pool.
