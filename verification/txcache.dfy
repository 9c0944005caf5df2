/**
 * The per-shard transaction cache `txcache.TxCache`, seen only through the contract the pool
 * consumes: a store of transactions indexed by hash that deduplicates insertions by hash.
 * Its chunking, ordering and eviction are not part of this model.
 */
module Txcache {
  import opened PoolTypes

  class TxCache<Tx> {
    /** The transactions held, by hash. */
    var txs: map<Hash, Tx>
    /** The chunk-count hint the cache was built with (`NewTxCache(nChunksHint)`). */
    const nChunksHint: uint32

    /** `txcache.NewTxCache(nChunksHint)`: an empty cache. */
    constructor (nChunksHint: uint32)
      ensures txs == map[] && this.nChunksHint == nChunksHint
    {
      txs := map[];
      this.nChunksHint := nChunksHint;
    }

    /**
     * `AddTx(txHash, tx) (ok, added)`: `added` reports whether the hash was new to this cache;
     * a hash already present keeps its first transaction.
     */
    method AddTx(txHash: Hash, tx: Tx) returns (ok: bool, added: bool)
      modifies this
      ensures ok
      ensures added <==> txHash !in old(txs)
      ensures added ==> txs == old(txs)[txHash := tx]
      ensures !added ==> txs == old(txs)
    {
      ok := true;
      added := txHash !in txs;
      if added {
        txs := txs[txHash := tx];
      }
    }

    /** `GetByTxHash(txHash) (tx, ok)`: the transaction stored under the hash, if any. */
    method GetByTxHash(txHash: Hash) returns (tx: Option<Tx>, ok: bool)
      ensures ok <==> txHash in txs
      ensures ok ==> tx == Some(txs[txHash])
      ensures !ok ==> tx == None
    {
      if txHash in txs {
        tx, ok := Some(txs[txHash]), true;
      } else {
        tx, ok := None, false;
      }
    }
  }
}
