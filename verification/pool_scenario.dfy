/** A client of the pool that uses only the contracts of module TxPool. */
module PoolScenario {
  import opened PoolTypes
  import opened Txcache
  import opened PoolSpec
  import opened TxPool

  datatype Transaction = Transaction(nonce: nat)

  /**
   * Add hash 0xAA to shard "1_2" twice, register a handler, search for it, and look it up in
   * the cache of shard "3_4": the search finds the first transaction, the other shard does not
   * hold it, a panicking operation panics, the registered handler was not stored, and no callback
   * was ever dispatched, although the hash was new to the shard once.
   */
  method AddSearchIsolate()
    returns (found: Option<Transaction>, elsewhere: bool, registered: nat, ghost dispatched: nat, removal: Outcome)
    ensures found == Some(Transaction(1))
    ensures !elsewhere
    ensures registered == 0 && dispatched == 0
    ensures removal.Panicked?
  {
    var pool := new ShardedTxPool<Transaction>(CacheConfig(16));
    var h: Hash := [0xAA];
    pool.RegisterHandler(_ => ());
    pool.AddData(h, Transaction(1), "1_2");
    pool.AddData(h, Transaction(2), "1_2");
    assert Dispatch([], h) == [];
    var ok;
    found, ok := pool.SearchFirstData(h);
    assert pool.State().shards.Keys == {"1_2"};
    var other := pool.ShardDataStore("3_4");
    var _, inOther := other.GetByTxHash(h);
    elsewhere := inOther;
    registered := |pool.onAddCallbacks|;
    dispatched := |pool.notifications|;
    removal := pool.RemoveData(h, "1_2");
  }

  /**
   * Two look-ups of the same cacheID on a pool yield the very same shard object, and the
   * second one adds no entry.
   */
  method SameShardTwice(id: string) returns (same: bool, shards: nat)
    ensures same && shards == 1
  {
    var pool := new ShardedTxPool<Transaction>(CacheConfig(4));
    var first := pool.GetOrCreateShard(id);
    var second := pool.GetOrCreateShard(id);
    same := first == second;
    shards := |pool.backingMap|;
  }
}
