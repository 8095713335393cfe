/** The message bus: data goes through per-port queues, events through
    streams, and each event key has at most one listening loop, which a
    cancel hook registered under the key stops. */
module Bus {
  import opened Js
  import opened RedisClient

  const BusMqMaxlen := 100
  const BusQueueMaxlen := 100

  // ---------------------------------------------------------------------
  // The listener registry
  // ---------------------------------------------------------------------

  /** A listening loop started by `addListener`: the key it reads, the
      handler it calls and the `remove` flag its cancel hook sets */
  datatype Loop<H> = Loop(key: string, listener: H, remove: bool)

  /** The emitter's cancel hooks per key, each naming the loop it cancels
      (an index into `loops`), and every loop ever started */
  datatype Registry<H> = Registry(hooks: map<string, seq<nat>>, loops: seq<Loop<H>>)

  function Hooks<H>(r: Registry<H>, key: string): seq<nat> {
    if key in r.hooks then r.hooks[key] else []
  }

  /** `hasListeners(key)`: the emitter has a listener on the key */
  predicate HasListeners<H>(r: Registry<H>, key: string) {
    |Hooks(r, key)| > 0
  }

  /** The cancel hooks on a key point at live loops of that key, and every
      live loop is hooked under its key */
  ghost predicate Valid<H>(r: Registry<H>) {
    && (forall k, n {:trigger n in r.hooks[k]} {:trigger r.loops[n], r.hooks[k]} ::
          k in r.hooks && n in r.hooks[k] ==>
          n < |r.loops| && r.loops[n].key == k && !r.loops[n].remove)
    && (forall n :: 0 <= n < |r.loops| && !r.loops[n].remove ==>
          r.loops[n].key in r.hooks && n in r.hooks[r.loops[n].key])
  }

  /** The loops after the hooks `ns` ran: each sets its loop's flag */
  function Cancel<H>(loops: seq<Loop<H>>, ns: seq<nat>): seq<Loop<H>> {
    seq(|loops|, i requires 0 <= i < |loops| => if i in ns then loops[i].(remove := true) else loops[i])
  }

  /** `removeListener(key)`: emit on the key, then drop its listeners */
  function RemoveListenerSpec<H>(r: Registry<H>, key: string): Registry<H> {
    Registry(r.hooks - {key}, Cancel(r.loops, Hooks(r, key)))
  }

  /** `addListener(key, h)`: remove first, then hook a new loop */
  function AddListenerSpec<H>(r: Registry<H>, key: string, h: H): Registry<H> {
    var c := RemoveListenerSpec(r, key);
    Registry(c.hooks[key := [|c.loops|]], c.loops + [Loop(key, h, false)])
  }

  /** After `removeListener(k)` the key has no listener and no live loop;
      every loop that was live on k now has its flag set, and other keys
      and their loops are unchanged */
  lemma RemoveListenerCancels<H>(r: Registry<H>, key: string)
    requires Valid(r)
    ensures var r' := RemoveListenerSpec(r, key);
      && Valid(r')
      && !HasListeners(r', key)
      && |r'.loops| == |r.loops|
      && (forall n :: 0 <= n < |r.loops| && r.loops[n].key == key ==> r'.loops[n].remove)
      && (forall n :: 0 <= n < |r.loops| && r.loops[n].key != key ==> r'.loops[n] == r.loops[n])
      && (forall k :: k != key ==> Hooks(r', k) == Hooks(r, k))
  {
    RemoveFlagsLoops(r, key);
    RemoveKeepsValid(r, key);
  }

  /** `Cancel` keeps every loop and sets the flag exactly on the listed ones */
  lemma CancelAt<H>(loops: seq<Loop<H>>, ns: seq<nat>, n: int)
    requires 0 <= n < |loops|
    ensures |Cancel(loops, ns)| == |loops|
    ensures Cancel(loops, ns)[n] == if n in ns then loops[n].(remove := true) else loops[n]
  {
  }

  /** The hooks on a key of a valid registry only point at loops of that key */
  lemma HookedKey<H>(r: Registry<H>, key: string, n: nat)
    requires Valid(r) && n in Hooks(r, key)
    ensures n < |r.loops| && r.loops[n].key == key && !r.loops[n].remove
  {
    assert key in r.hooks && n in r.hooks[key];
  }

  lemma RemoveFlagsLoops<H>(r: Registry<H>, key: string)
    requires Valid(r)
    ensures var r' := RemoveListenerSpec(r, key);
      && |r'.loops| == |r.loops|
      && (forall n :: 0 <= n < |r.loops| && r.loops[n].key == key ==> r'.loops[n].remove)
      && (forall n :: 0 <= n < |r.loops| && r.loops[n].key != key ==> r'.loops[n] == r.loops[n])
  {
    var ns := Hooks(r, key);
    var r' := RemoveListenerSpec(r, key);
    assert |r'.loops| == |r.loops|;
    forall n | 0 <= n < |r.loops| && r.loops[n].key == key
      ensures r'.loops[n].remove
    {
      CancelAt(r.loops, ns, n);
      if !r.loops[n].remove {
        assert key in r.hooks && n in r.hooks[key];
      }
    }
    forall n | 0 <= n < |r.loops| && r.loops[n].key != key
      ensures r'.loops[n] == r.loops[n]
    {
      CancelAt(r.loops, ns, n);
    }
  }

  lemma RemoveKeepsValid<H>(r: Registry<H>, key: string)
    requires Valid(r)
    ensures Valid(RemoveListenerSpec(r, key))
  {
    var ns := Hooks(r, key);
    var r' := RemoveListenerSpec(r, key);
    forall k, n | k in r'.hooks && n in r'.hooks[k]
      ensures n < |r'.loops| && r'.loops[n].key == k && !r'.loops[n].remove
    {
      assert k != key && k in r.hooks && r'.hooks[k] == r.hooks[k];
      HookedKey(r, k, n);
      CancelAt(r.loops, ns, n);
      if n in ns {
        HookedKey(r, key, n);
      }
    }
    forall n | 0 <= n < |r'.loops| && !r'.loops[n].remove
      ensures r'.loops[n].key in r'.hooks && n in r'.hooks[r'.loops[n].key]
    {
      CancelAt(r.loops, ns, n);
      var k := r.loops[n].key;
      assert k in r.hooks && n in r.hooks[k];
    }
  }

  /** After `addListener(k, h)` every earlier loop on k is cancelled, exactly
      one cancel hook is registered on k, for the new loop, which is the only
      live loop of k; other keys and their loops are unchanged */
  lemma AddListenerReplaces<H>(r: Registry<H>, key: string, h: H)
    requires Valid(r)
    ensures var r' := AddListenerSpec(r, key, h);
      && Valid(r')
      && HasListeners(r', key)
      && Hooks(r', key) == [|r.loops|]
      && r'.loops == Cancel(r.loops, Hooks(r, key)) + [Loop(key, h, false)]
      && (forall n :: 0 <= n < |r.loops| && r.loops[n].key == key ==> r'.loops[n].remove)
      && (forall n :: 0 <= n < |r'.loops| && r'.loops[n].key == key && !r'.loops[n].remove ==> n == |r.loops|)
      && (forall n :: 0 <= n < |r.loops| && r.loops[n].key != key ==> r'.loops[n] == r.loops[n])
      && (forall k :: k != key ==> Hooks(r', k) == Hooks(r, k))
  {
    RemoveListenerCancels(r, key);
    var c := RemoveListenerSpec(r, key);
    var r' := AddListenerSpec(r, key, h);
    forall k, n | k in r'.hooks && n in r'.hooks[k]
      ensures n < |r'.loops| && r'.loops[n].key == k && !r'.loops[n].remove
    {
      if k != key {
        assert k in c.hooks && n in c.hooks[k];
        assert Valid(c);
        assert n < |c.loops| && c.loops[n].key == k && !c.loops[n].remove;
        assert r'.loops[n] == c.loops[n];
      } else {
        assert n == |c.loops|;
        assert r'.loops[n] == Loop(key, h, false);
      }
    }
  }

  // ---------------------------------------------------------------------
  // One turn of a listening loop
  // ---------------------------------------------------------------------

  /** The ids of the batch whose handler completed without throwing */
  function Completed(batch: seq<nat>, completed: seq<bool>): (ids: seq<nat>)
    requires |completed| == |batch|
    ensures forall id :: id in ids <==> exists i :: 0 <= i < |batch| && completed[i] && batch[i] == id
  {
    if batch == [] then []
    else (if completed[0] then [batch[0]] else []) + Completed(batch[1..], completed[1..])
  }

  /** XDEL of each id in turn; an error reply is caught and logged */
  function DeleteAll(st: StoreState, key: string, ids: seq<nat>): StoreState
    decreases |ids|
  {
    if ids == [] then st else DeleteAll(XDel(st, key, ids[0]).after, key, ids[1..])
  }

  /** One turn of the loop of `addListener`: a loop whose flag is set returns
      before reading; otherwise each message of the batch read is handed to
      the handler, and deleted when the handler completed */
  function ListenerTurn<H>(st: StoreState, loop: Loop<H>, batch: seq<nat>, completed: seq<bool>): (StoreState, bool)
    requires |completed| == |batch|
  {
    if loop.remove then (st, true)
    else (DeleteAll(st, loop.key, Completed(batch, completed)), false)
  }

  lemma {:induction false} DeleteAllEntries(st: StoreState, key: string, ids: seq<nat>)
    ensures forall e :: e in Entries(DeleteAll(st, key, ids), key) <==> e in Entries(st, key) && e.id !in ids
    ensures forall k :: k != key ==> Lookup(DeleteAll(st, key, ids), k) == Lookup(st, k)
    decreases |ids|
  {
    if ids != [] {
      DeleteAllEntries(XDel(st, key, ids[0]).after, key, ids[1..]);
    }
  }

  /** A stopped loop touches nothing; a running one deletes exactly the
      stream entries whose handler completed, and those whose handler threw
      stay in the stream */
  lemma ListenerTurnDeletes<H>(st: StoreState, loop: Loop<H>, batch: seq<nat>, completed: seq<bool>)
    requires |completed| == |batch|
    ensures loop.remove ==> ListenerTurn(st, loop, batch, completed) == (st, true)
    ensures !loop.remove ==> !ListenerTurn(st, loop, batch, completed).1
    ensures !loop.remove ==>
      forall e :: (e in Entries(ListenerTurn(st, loop, batch, completed).0, loop.key)
        <==> e in Entries(st, loop.key) && !(exists i :: 0 <= i < |batch| && completed[i] && batch[i] == e.id))
  {
    DeleteAllEntries(st, loop.key, Completed(batch, completed));
  }

  // ---------------------------------------------------------------------
  // The bus
  // ---------------------------------------------------------------------

  /** `getData`: the popped array when count > 1, else its first item */
  function Shape(items: seq<Js>, count: int): Js {
    if count > 1 then Arr(items) else if items == [] then Undefined else items[0]
  }

  /** The options are `{ mqMaxlen: 100, queueMaxlen: 100, ...options }`;
      the client is the store the bus is given */
  class MsgBus<H> {
    const store: Store
    const mqMaxlen: int
    const queueMaxlen: int
    var hooks: map<string, seq<nat>>
    var loops: seq<Loop<H>>

    function Snapshot(): Registry<H>
      reads this
    {
      Registry(hooks, loops)
    }

    constructor (store: Store, mqMaxlen: Option<int>, queueMaxlen: Option<int>)
      ensures this.store == store
      ensures this.mqMaxlen == mqMaxlen.GetOr(BusMqMaxlen)
      ensures this.queueMaxlen == queueMaxlen.GetOr(BusQueueMaxlen)
      ensures Snapshot() == Registry(map[], []) && Valid(Snapshot())
    {
      this.store := store;
      this.mqMaxlen := mqMaxlen.GetOr(BusMqMaxlen);
      this.queueMaxlen := queueMaxlen.GetOr(BusQueueMaxlen);
      hooks := map[];
      loops := [];
    }

    /** `hasData(key, options)`: count defaults to 1 */
    method HasData(key: string, count: Option<int>) returns (r: Result<bool>)
      ensures r == QueueHas(store.state, key, count.GetOr(1))
    {
      var q := new Queue(store, key, Some(queueMaxlen));
      r := q.Has(Some(count.GetOr(1)));
    }

    /** `getData(key, options)`: count defaults to 1 */
    method GetData(key: string, count: Option<int>) returns (r: Result<Js>)
      modifies store
      ensures var p := QueuePop(old(store.state), key, count.GetOr(1));
        && store.state == p.after
        && r == (if p.result.Ok? then Ok(Shape(p.result.value, count.GetOr(1))) else Err(p.result.error))
    {
      var c := count.GetOr(1);
      var q := new Queue(store, key, Some(queueMaxlen));
      var data := q.Pop(Some(c));
      if data.Err? {
        return Err(data.error);
      }
      if c > 1 {
        return Ok(Arr(data.value));
      }
      r := Ok(if data.value == [] then Undefined else data.value[0]);
    }

    /** `sendData(key, data)`: one item pushed on the key's queue */
    method SendData(key: string, data: Js) returns (r: Result<()>)
      modifies store
      ensures Reply(r, store.state) == QueuePush(old(store.state), key, queueMaxlen, [data])
    {
      var q := new Queue(store, key, Some(queueMaxlen));
      r := q.Push([data]);
    }

    /** `sendEvent(key, data)`: one entry published on the key's stream */
    method SendEvent(key: string, data: Js) returns (r: Result<nat>)
      modifies store
      ensures Reply(r, store.state) == XAdd(old(store.state), key, mqMaxlen, FormatSpec(OwnEntries(data)))
    {
      var mq := new MQ(store, key, Some(mqMaxlen), None);
      r := mq.Publish(data);
    }

    /** `removeListener(key)`: each cancel hook on the key sets its loop's
        flag, then the key's hooks are dropped */
    method RemoveListener(key: string)
      modifies this
      ensures Snapshot() == RemoveListenerSpec(old(Snapshot()), key)
    {
      var ns := if key in hooks then hooks[key] else [];
      var i := 0;
      while i < |ns|
        invariant 0 <= i <= |ns|
        invariant hooks == old(hooks)
        invariant |loops| == |old(loops)|
        invariant forall j :: 0 <= j < |loops| ==>
          loops[j] == if j in ns[..i] then old(loops)[j].(remove := true) else old(loops)[j]
      {
        assert ns[..i + 1] == ns[..i] + [ns[i]];
        if ns[i] < |loops| {
          loops := loops[ns[i] := loops[ns[i]].(remove := true)];
        }
        i := i + 1;
      }
      assert ns[..|ns|] == ns;
      hooks := hooks - {key};
    }

    /** `addListener(key, listener)` */
    method AddListener(key: string, listener: H)
      modifies this
      ensures Snapshot() == AddListenerSpec(old(Snapshot()), key, listener)
    {
      RemoveListener(key);
      hooks := hooks[key := [|loops|]];
      loops := loops + [Loop(key, listener, false)];
    }

    function HasListenersNow(key: string): (b: bool)
      reads this
      ensures b <==> HasListeners(Snapshot(), key)
    {
      key in hooks && |hooks[key]| > 0
    }

    /** One turn of loop `n`, given the ids read and which handlers
        completed */
    method ListenerStep(n: nat, batch: seq<nat>, completed: seq<bool>) returns (stopped: bool)
      requires n < |loops| && |completed| == |batch|
      modifies store
      ensures (store.state, stopped) == ListenerTurn(old(store.state), loops[n], batch, completed)
    {
      var loop := loops[n];
      if loop.remove {
        return true;
      }
      var ids := Completed(batch, completed);
      ghost var target := DeleteAll(store.state, loop.key, ids);
      var mq := new MQ(store, loop.key, Some(mqMaxlen), None);
      var i := 0;
      while i < |ids|
        invariant 0 <= i <= |ids|
        invariant DeleteAll(store.state, loop.key, ids[i..]) == target
        invariant mq.store == store && mq.key == loop.key
      {
        assert ids[i..][1..] == ids[i + 1..];
        var _ := mq.Delete(ids[i]);
        i := i + 1;
      }
      stopped := false;
    }
  }
}
