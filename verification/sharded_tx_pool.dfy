/**
 * The sharded transaction pool `shardedTxPool`: a registry from cacheID to a shard that owns
 * one transaction cache, created on first use and never removed. Locks are left out: each
 * method is modelled as one sequential step, and the asynchronous `go handler(txHash)` calls
 * become entries of the ghost log `notifications`.
 */
module TxPool {
  import opened PoolTypes
  import opened Txcache
  import opened PoolSpec

  /** `txPoolShard`: the cacheID it was created for and its cache, both fixed at creation. */
  class Shard<Tx> {
    const cacheID: string
    const cache: TxCache<Tx>

    constructor (cacheID: string, cache: TxCache<Tx>)
      ensures this.cacheID == cacheID && this.cache == cache
    {
      this.cacheID := cacheID;
      this.cache := cache;
    }
  }

  class ShardedTxPool<Tx> {
    var backingMap: map<string, Shard<Tx>>
    const cacheConfig: CacheConfig
    var onAddCallbacks: seq<Handler>
    /** Every `go handler(txHash)` started so far, in order. */
    ghost var notifications: seq<Notification>

    /** The caches of all shards. */
    ghost function Caches(): set<TxCache<Tx>>
      reads this
    {
      set id | id in backingMap :: backingMap[id].cache
    }

    /**
     * Every shard is filed under its own cacheID, was built with the configured chunk hint,
     * and no two shards share a cache.
     */
    ghost predicate Valid()
      reads this
    {
      && (forall id :: id in backingMap ==>
            backingMap[id].cacheID == id && backingMap[id].cache.nChunksHint == cacheConfig.shards)
      && (forall id, id' :: id in backingMap && id' in backingMap && id != id' ==>
            backingMap[id].cache != backingMap[id'].cache)
    }

    /** The observable state of the pool. */
    ghost function State(): PoolView<Tx>
      reads this, Caches()
    {
      PoolView(map id | id in backingMap :: backingMap[id].cache.txs, onAddCallbacks, notifications)
    }

    /** Shards already present keep their identity; new ones may appear, with new caches. */
    twostate predicate Extends()
      reads this
    {
      && old(backingMap).Keys <= backingMap.Keys
      && (forall id :: id in old(backingMap) ==> backingMap[id] == old(backingMap)[id])
      && (forall id :: id in backingMap && id !in old(backingMap) ==> fresh(backingMap[id].cache))
    }

    /** `NewShardedTxPool(config)`. */
    constructor (config: CacheConfig)
      ensures Valid()
      ensures cacheConfig == config
      ensures backingMap == map[] && onAddCallbacks == []
      ensures State() == Empty()
    {
      cacheConfig := config;
      backingMap := map[];
      onAddCallbacks := [];
      notifications := [];
    }

    /**
     * `getOrCreateShard(cacheID)`: the shard filed under `cacheID`, created with an empty cache
     * when missing. The double-checked locking is one map check here.
     */
    method GetOrCreateShard(cacheID: string) returns (shard: Shard<Tx>)
      requires Valid()
      modifies this
      ensures Valid() && Extends()
      ensures State() == GetOrCreate(old(State()), cacheID)
      ensures cacheID in backingMap && shard == backingMap[cacheID] && shard.cacheID == cacheID
      ensures cacheID in old(backingMap) ==> backingMap == old(backingMap)
      ensures cacheID !in old(backingMap) ==>
                && backingMap == old(backingMap)[cacheID := shard]
                && fresh(shard) && fresh(shard.cache)
                && shard.cache.txs == map[] && shard.cache.nChunksHint == cacheConfig.shards
      ensures onAddCallbacks == old(onAddCallbacks)
    {
      if cacheID in backingMap {
        shard := backingMap[cacheID];
        return;
      }
      var cache := new TxCache(cacheConfig.shards);
      shard := new Shard(cacheID, cache);
      backingMap := backingMap[cacheID := shard];
    }

    /** `getTxCache(cacheID)`: the cache of the shard filed under `cacheID`, created when missing. */
    method GetTxCache(cacheID: string) returns (cache: TxCache<Tx>)
      requires Valid()
      modifies this
      ensures Valid() && Extends()
      ensures State() == GetOrCreate(old(State()), cacheID)
      ensures cacheID in backingMap && cache == backingMap[cacheID].cache
      ensures cache.txs == State().shards[cacheID]
      ensures onAddCallbacks == old(onAddCallbacks)
    {
      var shard := GetOrCreateShard(cacheID);
      cache := shard.cache;
    }

    /** `ShardDataStore(cacheID)`: despite its comment, the cache of that shard, created when missing. */
    method ShardDataStore(cacheID: string) returns (cache: TxCache<Tx>)
      requires Valid()
      modifies this
      ensures Valid() && Extends()
      ensures State() == GetOrCreate(old(State()), cacheID)
      ensures cacheID in backingMap && cache == backingMap[cacheID].cache
      ensures cache.txs == State().shards[cacheID]
      ensures onAddCallbacks == old(onAddCallbacks)
    {
      cache := GetTxCache(cacheID);
    }

    /** `onAdded(txHash)`: start every registered handler with `txHash`. */
    method OnAdded(txHash: Hash)
      modifies this`notifications
      ensures notifications == old(notifications) + Dispatch(onAddCallbacks, txHash)
      ensures State() == old(State()).(log := old(State()).log + Dispatch(onAddCallbacks, txHash))
    {
      for i := 0 to |onAddCallbacks|
        invariant notifications == old(notifications) + Dispatch(onAddCallbacks[..i], txHash)
      {
        assert onAddCallbacks[..i + 1][..i] == onAddCallbacks[..i];
        notifications := notifications + [Notification(onAddCallbacks[i], txHash)];
      }
      assert onAddCallbacks[..|onAddCallbacks|] == onAddCallbacks;
    }

    /** `addTx(txHash, tx, cacheID)`: insert into that shard's cache; notify iff it was new there. */
    method AddTx(txHash: Hash, tx: Tx, cacheID: string)
      requires Valid()
      modifies this, Caches()
      ensures Valid() && Extends()
      ensures State() == Add(old(State()), txHash, tx, cacheID)
      ensures onAddCallbacks == old(onAddCallbacks)
    {
      var shard := GetOrCreateShard(cacheID);
      var cache := shard.cache;
      label created:
      var _, added := cache.AddTx(txHash, tx);
      CacheUpdated@created(cacheID);
      if added {
        OnAdded(txHash);
      }
    }

    /** Changing the cache of shard `cacheID` alone changes only that shard's entry of the state. */
    twostate lemma CacheUpdated(cacheID: string)
      requires old(Valid()) && cacheID in old(backingMap)
      requires unchanged(this)
      requires forall id :: id in backingMap && id != cacheID ==> unchanged(backingMap[id].cache)
      ensures Valid()
      ensures State() == old(State()).(shards := old(State()).shards[cacheID := backingMap[cacheID].cache.txs])
    {
    }

    /** `AddData(key, value, cacheID)`; the value's dynamic type is fixed to `Tx` here. */
    method AddData(key: Hash, value: Tx, cacheID: string)
      requires Valid()
      modifies this, Caches()
      ensures Valid() && Extends()
      ensures State() == Add(old(State()), key, value, cacheID)
      ensures onAddCallbacks == old(onAddCallbacks)
    {
      AddTx(key, value, cacheID);
    }

    /**
     * `searchFirstTx(txHash)`: a transaction stored under `txHash` in some shard, or `(nil, false)`
     * when no shard holds it. Shards are visited in no fixed order, like a Go map.
     */
    method SearchFirstTx(txHash: Hash) returns (tx: Option<Tx>, ok: bool)
      requires Valid()
      ensures ok <==> Holds(State(), txHash)
      ensures ok ==> tx.Some? && HoldsAt(State(), txHash, tx.value)
      ensures !ok ==> tx == None
    {
      var unvisited := backingMap.Keys;
      while unvisited != {}
        invariant unvisited <= backingMap.Keys
        invariant forall id :: id in backingMap && id !in unvisited ==> txHash !in backingMap[id].cache.txs
        decreases unvisited
      {
        var id :| id in unvisited;
        var shard := backingMap[id];
        tx, ok := shard.cache.GetByTxHash(txHash);
        if ok {
          assert State().shards[id] == shard.cache.txs;
          return;
        }
        unvisited := unvisited - {id};
      }
      tx, ok := None, false;
      assert forall id :: id in State().shards ==> State().shards[id] == backingMap[id].cache.txs;
    }

    /** `SearchFirstData(key)`. */
    method SearchFirstData(key: Hash) returns (value: Option<Tx>, ok: bool)
      requires Valid()
      ensures ok <==> Holds(State(), key)
      ensures ok ==> value.Some? && HoldsAt(State(), key, value.value)
      ensures !ok ==> value == None
    {
      value, ok := SearchFirstTx(key);
    }

    // The operations below have their bodies commented out in the source: they accept any
    // arguments and change nothing.

    /** `RegisterHandler(handler)`: the append to `onAddCallbacks` is disabled. */
    method RegisterHandler(handler: Handler)
      ensures State() == old(State()) && backingMap == old(backingMap)
    {
    }

    /** `removeTx(txHash, cacheID)`. */
    method RemoveTx(txHash: Hash, cacheID: string)
      ensures State() == old(State()) && backingMap == old(backingMap)
    {
    }

    /** `RemoveSetOfDataFromPool(keys, cacheID)`. */
    method RemoveSetOfDataFromPool(keys: seq<Hash>, cacheID: string)
      ensures State() == old(State()) && backingMap == old(backingMap)
    {
    }

    /** `removeTxBulk(txHashes, cacheID)`. */
    method RemoveTxBulk(txHashes: seq<Hash>, cacheID: string)
      ensures State() == old(State()) && backingMap == old(backingMap)
    {
    }

    /** `removeTxFromAllShards(txHash)`. */
    method RemoveTxFromAllShards(txHash: Hash)
      ensures State() == old(State()) && backingMap == old(backingMap)
    {
    }

    /** `MergeShardStores(sourceCacheID, destCacheID)`. */
    method MergeShardStores(sourceCacheID: string, destCacheID: string)
      ensures State() == old(State()) && backingMap == old(backingMap)
    {
    }

    /** `MoveTxs(sourceCacheID, destCacheID, txHashes)`. */
    method MoveTxs(sourceCacheID: string, destCacheID: string, txHashes: seq<Hash>)
      ensures State() == old(State()) && backingMap == old(backingMap)
    {
    }

    /** `Clear()`. */
    method Clear()
      ensures State() == old(State()) && backingMap == old(backingMap)
    {
    }

    /** `ClearShardStore(cacheID)`. */
    method ClearShardStore(cacheID: string)
      ensures State() == old(State()) && backingMap == old(backingMap)
    {
    }

    // The operations below always panic; the panic is their outcome, and nothing changes.

    /** `RemoveData(key, cacheID)`. */
    method RemoveData(key: Hash, cacheID: string) returns (r: Outcome)
      ensures r == Panicked("shardedTxPool.RemoveData is not implemented")
    {
      r := Panicked("shardedTxPool.RemoveData is not implemented");
    }

    /** `RemoveDataFromAllShards(key)`. */
    method RemoveDataFromAllShards(key: Hash) returns (r: Outcome)
      ensures r == Panicked("shardedTxPool.RemoveDataFromAllShards is not implemented")
    {
      r := Panicked("shardedTxPool.RemoveDataFromAllShards is not implemented");
    }

    /** `MoveData(sourceCacheID, destCacheID, key)`. */
    method MoveData(sourceCacheID: string, destCacheID: string, key: seq<Hash>) returns (r: Outcome)
      ensures r == Panicked("shardedTxPool.MoveData is not implemented")
    {
      r := Panicked("shardedTxPool.MoveData is not implemented");
    }

    /** `CreateShardStore(cacheID)`: shards are only ever created by `getOrCreateShard`. */
    method CreateShardStore(cacheID: string) returns (r: Outcome)
      ensures r == Panicked("shardedTxPool.CreateShardStore() is not implemented (not needed; shard creation is managed internally)")
    {
      r := Panicked("shardedTxPool.CreateShardStore() is not implemented (not needed; shard creation is managed internally)");
    }
  }
}
