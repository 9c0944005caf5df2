/**
 * The sharded transaction pool as a value: what each shard's cache holds, the registered
 * callbacks, and the log of callback dispatches. The pool class in module TxPool is proved to
 * follow these functions; the properties of the pool are proved here about them.
 */
module PoolSpec {
  import opened PoolTypes

  /** The observable state of a pool: cache contents per cacheID, callbacks, dispatch log. */
  datatype PoolView<Tx> = PoolView(
    shards: map<string, map<Hash, Tx>>,
    callbacks: seq<Handler>,
    log: seq<Notification>)

  /** A freshly constructed pool: no shard, no callback, nothing dispatched. */
  function Empty<Tx>(): PoolView<Tx>
  {
    PoolView(map[], [], [])
  }

  /** Some shard's cache holds a transaction under hash `h`. */
  ghost predicate Holds<Tx>(v: PoolView<Tx>, h: Hash)
  {
    exists id :: id in v.shards && h in v.shards[id]
  }

  /** Shard `id` holds `tx` under `h`: an answer `searchFirstTx(h)` may give. */
  ghost predicate HoldsAt<Tx>(v: PoolView<Tx>, h: Hash, tx: Tx)
  {
    exists id :: id in v.shards && h in v.shards[id] && v.shards[id][h] == tx
  }

  /** `getOrCreateShard(id)`: a missing shard is created with an empty cache. */
  ghost function GetOrCreate<Tx>(v: PoolView<Tx>, id: string): (r: PoolView<Tx>)
    ensures id in r.shards
    ensures r.shards.Keys == v.shards.Keys + {id}
    ensures id in v.shards ==> r == v
    ensures id !in v.shards ==> r.shards[id] == map[]
    ensures forall k :: k in v.shards ==> r.shards[k] == v.shards[k]
    ensures r.callbacks == v.callbacks && r.log == v.log
  {
    if id in v.shards then v else v.(shards := v.shards[id := map[]])
  }

  /** The dispatches `onAdded(h)` starts: one per registered handler, in registration order. */
  function Dispatch(callbacks: seq<Handler>, h: Hash): (r: seq<Notification>)
  {
    if callbacks == [] then []
    else Dispatch(callbacks[..|callbacks| - 1], h) + [Notification(callbacks[|callbacks| - 1], h)]
  }

  /** Whether the cache of shard `id` (after its creation) reports `h` as newly added. */
  ghost predicate Adds<Tx>(v: PoolView<Tx>, h: Hash, id: string)
  {
    id !in v.shards || h !in v.shards[id]
  }

  /** `addTx(h, tx, id)`: insert into shard `id` (created if needed), dispatch iff newly added. */
  ghost function Add<Tx>(v: PoolView<Tx>, h: Hash, tx: Tx, id: string): (r: PoolView<Tx>)
  {
    var w := GetOrCreate(v, id);
    if Adds(v, h, id) then
      w.(shards := w.shards[id := w.shards[id][h := tx]], log := w.log + Dispatch(w.callbacks, h))
    else w
  }

  /** The operations a client of the pool can perform, public and private. */
  datatype Op<Tx> =
    | AddData(h: Hash, tx: Tx, cacheID: string)
    | ShardDataStore(cacheID: string)
    | SearchFirstData(h: Hash)
    | RegisterHandler(handler: Handler)
    | RemoveTx(h: Hash, cacheID: string)
    | RemoveSetOfDataFromPool(hs: seq<Hash>, cacheID: string)
    | RemoveTxBulk(hs: seq<Hash>, cacheID: string)
    | RemoveTxFromAllShards(h: Hash)
    | MergeShardStores(sourceCacheID: string, destCacheID: string)
    | MoveTxs(sourceCacheID: string, destCacheID: string, hs: seq<Hash>)
    | Clear
    | ClearShardStore(cacheID: string)
    | RemoveData(h: Hash, cacheID: string)
    | RemoveDataFromAllShards(h: Hash)
    | MoveData(sourceCacheID: string, destCacheID: string, hs: seq<Hash>)
    | CreateShardStore(cacheID: string)

  /** The operations that always panic. */
  predicate Panics<Tx>(op: Op<Tx>)
  {
    op.RemoveData? || op.RemoveDataFromAllShards? || op.MoveData? || op.CreateShardStore?
  }

  /** The state after one operation that does not panic. */
  ghost function Step<Tx>(v: PoolView<Tx>, op: Op<Tx>): PoolView<Tx>
    requires !Panics(op)
  {
    match op
    case AddData(h, tx, id) => Add(v, h, tx, id)
    case ShardDataStore(id) => GetOrCreate(v, id)
    case _ => v
  }

  /** The state after running `ops` from `v`; a panicking operation ends the run. */
  ghost function Run<Tx>(v: PoolView<Tx>, ops: seq<Op<Tx>>): PoolView<Tx>
    decreases ops
  {
    if ops == [] || Panics(ops[0]) then v else Run(Step(v, ops[0]), ops[1..])
  }

  /** Every registered handler is dispatched exactly once, with the added hash. */
  lemma {:induction false} DispatchOncePerHandler(callbacks: seq<Handler>, h: Hash)
    ensures |Dispatch(callbacks, h)| == |callbacks|
    ensures forall i :: 0 <= i < |callbacks| ==> Dispatch(callbacks, h)[i] == Notification(callbacks[i], h)
  {
    if callbacks != [] {
      var init := callbacks[..|callbacks| - 1];
      DispatchOncePerHandler(init, h);
      assert forall i :: 0 <= i < |init| ==> init[i] == callbacks[i];
    }
  }

  /** Creating the same shard twice is the same as creating it once. */
  lemma GetOrCreateIdempotent<Tx>(v: PoolView<Tx>, id: string)
    ensures GetOrCreate(GetOrCreate(v, id), id) == GetOrCreate(v, id)
  {
  }

  /**
   * What one `addTx` does: shard `id` exists afterwards and holds `h`, keeping its first
   * transaction; every other shard is untouched; the log grows by one dispatch per handler
   * exactly when the cache reports the hash as new.
   */
  lemma AddEffect<Tx>(v: PoolView<Tx>, h: Hash, tx: Tx, id: string)
    ensures Add(v, h, tx, id).shards.Keys == v.shards.Keys + {id}
    ensures h in Add(v, h, tx, id).shards[id]
    ensures Adds(v, h, id) ==> Add(v, h, tx, id).shards[id][h] == tx
    ensures !Adds(v, h, id) ==> Add(v, h, tx, id).shards[id] == v.shards[id]
    ensures forall k :: k in v.shards && k != id ==> Add(v, h, tx, id).shards[k] == v.shards[k]
    ensures Add(v, h, tx, id).callbacks == v.callbacks
    ensures Add(v, h, tx, id).log
         == v.log + (if Adds(v, h, id) then Dispatch(v.callbacks, h) else [])
  {
  }

  /** Adding a hash already present in that shard changes nothing and notifies nobody. */
  lemma AddTwiceNotifiesOnce<Tx>(v: PoolView<Tx>, h: Hash, tx: Tx, tx': Tx, id: string)
    ensures Add(Add(v, h, tx, id), h, tx', id) == Add(v, h, tx, id)
  {
  }

  /** After `addTx(h, _, id)` a search for `h` succeeds. */
  lemma AddThenHolds<Tx>(v: PoolView<Tx>, h: Hash, tx: Tx, id: string)
    ensures Holds(Add(v, h, tx, id), h)
    ensures Adds(v, h, id) ==> HoldsAt(Add(v, h, tx, id), h, tx)
  {
    var r := Add(v, h, tx, id);
    AddEffect(v, h, tx, id);
    assert id in r.shards && h in r.shards[id];
  }

  /** An operation that does not panic never removes a shard and never changes the callbacks. */
  lemma StepGrows<Tx>(v: PoolView<Tx>, op: Op<Tx>)
    requires !Panics(op)
    ensures v.shards.Keys <= Step(v, op).shards.Keys
    ensures Step(v, op).callbacks == v.callbacks
  {
  }

  /** Across any run of operations the set of shards only grows and the callbacks stay as they were. */
  lemma {:induction false} RunGrows<Tx>(v: PoolView<Tx>, ops: seq<Op<Tx>>)
    ensures v.shards.Keys <= Run(v, ops).shards.Keys
    ensures Run(v, ops).callbacks == v.callbacks
    decreases ops
  {
    if ops != [] && !Panics(ops[0]) {
      var w := Step(v, ops[0]);
      StepGrows(v, ops[0]);
      RunGrows(w, ops[1..]);
    }
  }

  /**
   * `RegisterHandler` stores nothing, so a pool that starts without callbacks keeps none and
   * `addTx` never dispatches, whatever the run.
   */
  lemma {:induction false} RunNeverNotifies<Tx>(v: PoolView<Tx>, ops: seq<Op<Tx>>)
    requires v.callbacks == []
    ensures Run(v, ops).callbacks == [] && Run(v, ops).log == v.log
    decreases ops
  {
    if ops != [] && !Panics(ops[0]) {
      var w := Step(v, ops[0]);
      assert w.callbacks == [] && w.log == v.log by {
        if ops[0].AddData? {
          AddEffect(v, ops[0].h, ops[0].tx, ops[0].cacheID);
          assert Dispatch([], ops[0].h) == [];
        }
      }
      RunNeverNotifies(w, ops[1..]);
    }
  }

  /** In particular a freshly constructed pool never dispatches a callback. */
  lemma FreshPoolNeverNotifies<Tx>(ops: seq<Op<Tx>>)
    ensures Run(Empty<Tx>(), ops).log == []
  {
    RunNeverNotifies(Empty<Tx>(), ops);
  }
}
