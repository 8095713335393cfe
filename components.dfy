/** Components: an options bag with an id, and the Router, which takes one
    envelope `{ network, node, data }` from its from-port and writes each
    payload field to every port the graph connects that field's port to. */
module Components {
  import opened Js
  import opened RedisClient
  import opened Bus
  import opened Context
  import opened Graphs

  /** The component classes the runtime knows; user classes by name */
  datatype ComponentClass = Base | Router | Test | UserClass(name: string)

  /** A component: its class, its options, and the graph a router holds in
      its `graph` option */
  datatype Component = Component(cls: ComponentClass, options: seq<Entry<string, Js>>, graph: Option<Graph>)

  /** `new cls(options)`: `{ id: uuid, ...options }`, where a Router's options
      are first `{ fromKey: "from", ...options }` */
  function NewComponent(cls: ComponentClass, options: seq<Entry<string, Js>>, graph: Option<Graph>, uuid: string): Component {
    var own := if cls.Router? then Spread([Entry("fromKey", Str("from"))], options) else options;
    Component(cls, Spread([Entry("id", Str(uuid))], own), graph)
  }

  /** `component.id` */
  function Id(c: Component): Js {
    Get(c.options, "id").GetOr(Undefined)
  }

  /** `router.options.fromKey` */
  function FromKeyOption(c: Component): Js {
    Get(c.options, "fromKey").GetOr(Undefined)
  }

  lemma SingleDistinct(k: string, v: Js)
    ensures Distinct([Entry(k, v)]) && Get([Entry(k, v)], k) == Some(v)
  {
    assert Keys([Entry(k, v)][1..]) == [];
  }

  /** The id is the `id` option when given and the fresh uuid otherwise */
  lemma NewComponentId(cls: ComponentClass, options: seq<Entry<string, Js>>, graph: Option<Graph>, uuid: string)
    requires Distinct(options)
    ensures Id(NewComponent(cls, options, graph, uuid)) == Get(options, "id").GetOr(Str(uuid))
  {
    SingleDistinct("id", Str(uuid));
    SingleDistinct("fromKey", Str("from"));
    var own := if cls.Router? then Spread([Entry("fromKey", Str("from"))], options) else options;
    GetSpread([Entry("fromKey", Str("from"))], options, "id");
    GetSpread([Entry("id", Str(uuid))], own, "id");
  }

  /** A router's `fromKey` is the option when given and "from" otherwise */
  lemma NewRouterFromKey(options: seq<Entry<string, Js>>, graph: Option<Graph>, uuid: string)
    requires Distinct(options)
    ensures FromKeyOption(NewComponent(Router, options, graph, uuid)) == Get(options, "fromKey").GetOr(Str("from"))
  {
    SingleDistinct("fromKey", Str("from"));
    var own := Spread([Entry("fromKey", Str("from"))], options);
    GetSpread([Entry("fromKey", Str("from"))], options, "fromKey");
    GetSpread([Entry("id", Str(uuid))], own, "fromKey");
  }

  // ---------------------------------------------------------------------
  // Router fan-out
  // ---------------------------------------------------------------------

  /** One `output.sendData({ network, ...target }, value)` */
  datatype Write = Write(port: PortRef, value: Js)

  /** The writes for one data port: one per next port, in route order */
  function PortWrites(g: Graph, network: Js, node: Js, port: string, value: Js): (ws: seq<Write>)
    ensures |ws| == |GetNextPorts(g, CPort(node, Str(port)))|
    ensures forall i :: 0 <= i < |ws| ==>
      ws[i] == Write(Qualified(network, GetNextPorts(g, CPort(node, Str(port)))[i].node,
                               GetNextPorts(g, CPort(node, Str(port)))[i].port), value)
  {
    var ts := GetNextPorts(g, CPort(node, Str(port)));
    seq(|ts|, i requires 0 <= i < |ts| => Write(Qualified(network, ts[i].node, ts[i].port), value))
  }

  /** The writes for every key of `data`, in key order */
  function RouteWrites(g: Graph, network: Js, node: Js, data: seq<Entry<string, Js>>): seq<Write> {
    if data == [] then []
    else PortWrites(g, network, node, data[0].key, data[0].value) + RouteWrites(g, network, node, data[1..])
  }

  /** Σ over data ports of the number of next ports */
  function FanoutCount(g: Graph, node: Js, data: seq<Entry<string, Js>>): nat {
    if data == [] then 0
    else |GetNextPorts(g, CPort(node, Str(data[0].key)))| + FanoutCount(g, node, data[1..])
  }

  /** There are as many writes as next ports over all data ports; a port
      without a route adds none */
  lemma {:induction false} RouteWritesCount(g: Graph, network: Js, node: Js, data: seq<Entry<string, Js>>)
    ensures |RouteWrites(g, network, node, data)| == FanoutCount(g, node, data)
  {
    if data != [] {
      RouteWritesCount(g, network, node, data[1..]);
    }
  }

  /** Each write goes to a next port of some data port, carrying that port's
      value, under the envelope's network; and every such pair is written */
  lemma RouteWritesExact(g: Graph, network: Js, node: Js, data: seq<Entry<string, Js>>, w: Write)
    ensures w in RouteWrites(g, network, node, data) <==>
      exists i, t :: 0 <= i < |data| && t in GetNextPorts(g, CPort(node, Str(data[i].key)))
        && w == Write(Qualified(network, t.node, t.port), data[i].value)
    ensures w in RouteWrites(g, network, node, data) ==> w.port.Qualified? && w.port.network == network
  {
    if w in RouteWrites(g, network, node, data) {
      RouteWritesSound(g, network, node, data, w);
    }
    if exists i, t :: (0 <= i < |data| && t in GetNextPorts(g, CPort(node, Str(data[i].key)))
      && w == Write(Qualified(network, t.node, t.port), data[i].value)) {
      var i, t :| 0 <= i < |data| && t in GetNextPorts(g, CPort(node, Str(data[i].key)))
        && w == Write(Qualified(network, t.node, t.port), data[i].value);
      RouteWritesComplete(g, network, node, data, i, t);
    }
  }

  /** Every write is one of a data port's next ports with that port's value */
  lemma {:induction false} RouteWritesSound(g: Graph, network: Js, node: Js, data: seq<Entry<string, Js>>, w: Write)
    requires w in RouteWrites(g, network, node, data)
    ensures
      exists i, t :: 0 <= i < |data| && t in GetNextPorts(g, CPort(node, Str(data[i].key)))
        && w == Write(Qualified(network, t.node, t.port), data[i].value)
  {
    var here := PortWrites(g, network, node, data[0].key, data[0].value);
    var ts := GetNextPorts(g, CPort(node, Str(data[0].key)));
    assert RouteWrites(g, network, node, data) == here + RouteWrites(g, network, node, data[1..]);
    if w in here {
      var j :| 0 <= j < |here| && here[j] == w;
      assert ts[j] in ts;
    } else {
      RouteWritesSound(g, network, node, data[1..], w);
      var i, t :| 0 <= i < |data[1..]| && t in GetNextPorts(g, CPort(node, Str(data[1..][i].key)))
        && w == Write(Qualified(network, t.node, t.port), data[1..][i].value);
      assert data[1..][i] == data[i + 1];
    }
  }

  /** Every next port of every data port is written with that port's value */
  lemma {:induction false} RouteWritesComplete(g: Graph, network: Js, node: Js, data: seq<Entry<string, Js>>, i: nat, t: CPort)
    requires i < |data| && t in GetNextPorts(g, CPort(node, Str(data[i].key)))
    ensures Write(Qualified(network, t.node, t.port), data[i].value) in RouteWrites(g, network, node, data)
  {
    var here := PortWrites(g, network, node, data[0].key, data[0].value);
    assert RouteWrites(g, network, node, data) == here + RouteWrites(g, network, node, data[1..]);
    if i == 0 {
      PortWritesHas(g, network, node, data[0].key, data[0].value, t);
    } else {
      assert data[1..][i - 1] == data[i];
      RouteWritesComplete(g, network, node, data[1..], i - 1, t);
    }
  }

  /** A next port of a data port is written with that port's value */
  lemma PortWritesHas(g: Graph, network: Js, node: Js, port: string, value: Js, t: CPort)
    requires t in GetNextPorts(g, CPort(node, Str(port)))
    ensures Write(Qualified(network, t.node, t.port), value) in PortWrites(g, network, node, port, value)
  {
    var ts := GetNextPorts(g, CPort(node, Str(port)));
    var j :| 0 <= j < |ts| && ts[j] == t;
    assert PortWrites(g, network, node, port, value)[j] == Write(Qualified(network, t.node, t.port), value);
  }

  /** All writes in turn; `Promise.all` reports the first failure, and the
      other writes still take place */
  function DeliverAll(st: StoreState, target: Node, ws: seq<Write>, queueMaxlen: int, mqMaxlen: int): Reply<()>
    decreases |ws|
  {
    if ws == [] then Reply(Ok(()), st)
    else
      var d := Deliver(st, PortKey(target, ws[0].port), EventKey(target, ws[0].port), queueMaxlen, mqMaxlen, ws[0].value);
      var rest := DeliverAll(d.after, target, ws[1..], queueMaxlen, mqMaxlen);
      Reply(if d.result.Err? then d.result else rest.result, rest.after)
  }

  /** The queue keys the writes push to, in order */
  function PortKeys(target: Node, ws: seq<Write>): (r: seq<string>)
    ensures |r| == |ws|
  {
    if ws == [] then [] else [PortKey(target, ws[0].port)] + PortKeys(target, ws[1..])
  }

  /** The event streams the writes publish to, in order */
  function EventKeys(target: Node, ws: seq<Write>): (r: seq<string>)
    ensures |r| == |ws|
  {
    if ws == [] then [] else [EventKey(target, ws[0].port)] + EventKeys(target, ws[1..])
  }

  /** The values the writes carry, in order */
  function Values(ws: seq<Write>): (r: seq<Js>)
    ensures |r| == |ws| && forall i :: 0 <= i < |ws| ==> r[i] == ws[i].value
  {
    seq(|ws|, i requires 0 <= i < |ws| => ws[i].value)
  }

  /** The writes in turn, once their keys are computed: delivery i pushes
      value i on queue i and publishes on stream i */
  function DeliverKeys(st: StoreState, pks: seq<string>, eks: seq<string>, vs: seq<Js>, queueMaxlen: int, mqMaxlen: int): Reply<()>
    requires |pks| == |vs| && |eks| == |vs|
    decreases |vs|
  {
    if vs == [] then Reply(Ok(()), st)
    else
      var d := Deliver(st, pks[0], eks[0], queueMaxlen, mqMaxlen, vs[0]);
      var rest := DeliverKeys(d.after, pks[1..], eks[1..], vs[1..], queueMaxlen, mqMaxlen);
      Reply(if d.result.Err? then d.result else rest.result, rest.after)
  }

  /** Delivering the writes is delivering their values to their keys */
  lemma {:induction false} DeliverAllKeys(st: StoreState, target: Node, ws: seq<Write>, queueMaxlen: int, mqMaxlen: int)
    ensures DeliverAll(st, target, ws, queueMaxlen, mqMaxlen)
         == DeliverKeys(st, PortKeys(target, ws), EventKeys(target, ws), Values(ws), queueMaxlen, mqMaxlen)
    decreases |ws|
  {
    if ws != [] {
      var pks, eks, vs := PortKeys(target, ws), EventKeys(target, ws), Values(ws);
      assert pks[0] == PortKey(target, ws[0].port) && pks[1..] == PortKeys(target, ws[1..]);
      assert eks[0] == EventKey(target, ws[0].port) && eks[1..] == EventKeys(target, ws[1..]);
      assert vs[0] == ws[0].value && vs[1..] == Values(ws[1..]);
      var d := Deliver(st, pks[0], eks[0], queueMaxlen, mqMaxlen, vs[0]);
      DeliverAllKeys(d.after, target, ws[1..], queueMaxlen, mqMaxlen);
    }
  }

  /** No queue key is a stream key, no queue key holds a stream and no
      stream key holds a list */
  predicate KeysApart(st: StoreState, pks: seq<string>, eks: seq<string>) {
    && (forall i :: 0 <= i < |pks| ==> pks[i] !in eks)
    && (forall i :: 0 <= i < |pks| ==> !HoldsStream(st, pks[i]))
    && (forall i :: 0 <= i < |eks| ==> !(Lookup(st, eks[i]).Some? && Lookup(st, eks[i]).value.List?))
  }

  /** The writes' queues and streams are apart in the store */
  predicate WritesApart(st: StoreState, target: Node, ws: seq<Write>) {
    KeysApart(st, PortKeys(target, ws), EventKeys(target, ws))
  }

  /** One delivery as the fan-out needs it: it succeeds, the queue gets the
      value at its head and holds a list, the stream holds a stream, and no
      other key changes */
  lemma DeliverShape(st: StoreState, mid: string, eid: string, queueMaxlen: nat, mqMaxlen: int, data: Js)
    requires mid != eid && mqMaxlen >= 1
    requires !HoldsStream(st, mid) && !(Lookup(st, eid).Some? && Lookup(st, eid).value.List?)
    ensures var r := Deliver(st, mid, eid, queueMaxlen, mqMaxlen, data);
      && r.result == Ok(())
      && Contents(r.after, mid) == Take([data] + Contents(st, mid), queueMaxlen + 1)
      && !HoldsStream(r.after, mid) && HoldsStream(r.after, eid)
      && (forall k :: k != mid && k != eid ==> Lookup(r.after, k) == Lookup(st, k))
  {
    DeliverWritesOnce(st, mid, eid, queueMaxlen, mqMaxlen, data);
    var after := Deliver(st, mid, eid, queueMaxlen, mqMaxlen, data).after;
    var items := Take([data] + Contents(st, mid), queueMaxlen + 1);
    var entries := Last(Entries(st, eid) + [StreamEntry(st.nextId, [Str("type"), Str("trigger")])], mqMaxlen);
    assert items[0] == data && entries[|entries| - 1].id == st.nextId;
    Kinds(after, mid, eid, items, entries);
  }

  /** A key whose contents are a non-empty list holds no stream; a key
      with a non-empty stream holds a stream */
  lemma Kinds(st: StoreState, mid: string, eid: string, items: seq<Js>, entries: seq<StreamEntry>)
    requires Contents(st, mid) == items && items != []
    requires Entries(st, eid) == entries && entries != []
    ensures !HoldsStream(st, mid) && HoldsStream(st, eid)
  {
  }

  /** The first delivery keeps the remaining keys apart */
  lemma FirstDelivery(st: StoreState, pks: seq<string>, eks: seq<string>, vs: seq<Js>, queueMaxlen: nat, mqMaxlen: int)
    requires |pks| == |vs| && |eks| == |vs| && vs != []
    requires mqMaxlen >= 1 && KeysApart(st, pks, eks)
    ensures var r := Deliver(st, pks[0], eks[0], queueMaxlen, mqMaxlen, vs[0]);
      && r.result == Ok(())
      && Contents(r.after, pks[0]) == Take([vs[0]] + Contents(st, pks[0]), queueMaxlen + 1)
      && HoldsStream(r.after, eks[0])
      && (forall k :: k != pks[0] && k != eks[0] ==> Lookup(r.after, k) == Lookup(st, k))
      && KeysApart(r.after, pks[1..], eks[1..])
  {
    var after := Deliver(st, pks[0], eks[0], queueMaxlen, mqMaxlen, vs[0]).after;
    DeliverShape(st, pks[0], eks[0], queueMaxlen, mqMaxlen, vs[0]);
    ApartTail(st, after, pks, eks);
  }

  /** The remaining keys stay apart once the first queue holds a list and
      the first stream a stream, with every other key unchanged */
  lemma ApartTail(st: StoreState, after: StoreState, pks: seq<string>, eks: seq<string>)
    requires |pks| == |eks| && pks != [] && KeysApart(st, pks, eks)
    requires !HoldsStream(after, pks[0]) && HoldsStream(after, eks[0])
    requires forall k :: k != pks[0] && k != eks[0] ==> Lookup(after, k) == Lookup(st, k)
    ensures KeysApart(after, pks[1..], eks[1..])
  {
    forall i | 0 <= i < |pks| - 1
      ensures pks[1..][i] !in eks[1..]
      ensures !HoldsStream(after, pks[1..][i])
    {
      assert pks[i + 1] !in eks && eks == [eks[0]] + eks[1..];
      assert !HoldsStream(st, pks[i + 1]);
    }
    forall i | 0 <= i < |eks| - 1
      ensures !(Lookup(after, eks[1..][i]).Some? && Lookup(after, eks[1..][i]).value.List?)
    {
      assert pks[0] !in eks && eks[i + 1] in eks;
    }
  }

  /** Every delivery succeeds, and no key other than the queues and streams
      changes */
  lemma {:induction false} KeysFrame(st: StoreState, pks: seq<string>, eks: seq<string>, vs: seq<Js>, queueMaxlen: nat, mqMaxlen: int)
    requires |pks| == |vs| && |eks| == |vs|
    requires mqMaxlen >= 1 && KeysApart(st, pks, eks)
    ensures DeliverKeys(st, pks, eks, vs, queueMaxlen, mqMaxlen).result == Ok(())
    ensures forall k :: k !in pks && k !in eks ==> Lookup(DeliverKeys(st, pks, eks, vs, queueMaxlen, mqMaxlen).after, k) == Lookup(st, k)
    decreases |vs|
  {
    if vs != [] {
      var d := Deliver(st, pks[0], eks[0], queueMaxlen, mqMaxlen, vs[0]);
      var rest := DeliverKeys(d.after, pks[1..], eks[1..], vs[1..], queueMaxlen, mqMaxlen);
      assert DeliverKeys(st, pks, eks, vs, queueMaxlen, mqMaxlen) == Reply(if d.result.Err? then d.result else rest.result, rest.after);
      FirstDelivery(st, pks, eks, vs, queueMaxlen, mqMaxlen);
      KeysFrame(d.after, pks[1..], eks[1..], vs[1..], queueMaxlen, mqMaxlen);
      assert pks == [pks[0]] + pks[1..] && eks == [eks[0]] + eks[1..];
    }
  }

  /** Delivery i leaves value i at the head of queue i, older items after
      it, when no other delivery uses that queue */
  lemma {:induction false} KeysHead(st: StoreState, pks: seq<string>, eks: seq<string>, vs: seq<Js>, queueMaxlen: nat, mqMaxlen: int, i: nat)
    requires |pks| == |vs| && |eks| == |vs| && i < |vs|
    requires mqMaxlen >= 1 && KeysApart(st, pks, eks)
    requires forall j :: 0 <= j < |pks| && j != i ==> pks[j] != pks[i]
    ensures Contents(DeliverKeys(st, pks, eks, vs, queueMaxlen, mqMaxlen).after, pks[i])
         == Take([vs[i]] + Contents(st, pks[i]), queueMaxlen + 1)
    decreases i
  {
    var d := Deliver(st, pks[0], eks[0], queueMaxlen, mqMaxlen, vs[0]);
    var rest := DeliverKeys(d.after, pks[1..], eks[1..], vs[1..], queueMaxlen, mqMaxlen);
    assert DeliverKeys(st, pks, eks, vs, queueMaxlen, mqMaxlen).after == rest.after;
    FirstDelivery(st, pks, eks, vs, queueMaxlen, mqMaxlen);
    if i == 0 {
      FirstQueueAlone(pks, eks);
      KeysFrame(d.after, pks[1..], eks[1..], vs[1..], queueMaxlen, mqMaxlen);
    } else {
      LaterQueueAlone(pks, eks, i);
      KeysHead(d.after, pks[1..], eks[1..], vs[1..], queueMaxlen, mqMaxlen, i - 1);
    }
  }

  /** A queue no later delivery uses is neither a later queue nor a later
      stream */
  lemma FirstQueueAlone(pks: seq<string>, eks: seq<string>)
    requires |pks| == |eks| && pks != []
    requires forall i :: 0 <= i < |pks| ==> pks[i] !in eks
    requires forall j :: 0 <= j < |pks| && j != 0 ==> pks[j] != pks[0]
    ensures pks[0] !in pks[1..] && pks[0] !in eks[1..]
  {
    forall j | 0 <= j < |pks| - 1
      ensures pks[1..][j] != pks[0]
    {
      assert pks[j + 1] != pks[0];
    }
    assert eks == [eks[0]] + eks[1..];
  }

  /** A later queue no other delivery uses stays alone once the first
      delivery is dropped, and is neither the first queue nor the first
      stream */
  lemma LaterQueueAlone(pks: seq<string>, eks: seq<string>, i: nat)
    requires |pks| == |eks| && 0 < i < |pks|
    requires forall i :: 0 <= i < |pks| ==> pks[i] !in eks
    requires forall j :: 0 <= j < |pks| && j != i ==> pks[j] != pks[i]
    ensures pks[1..][i - 1] == pks[i] && pks[i] != pks[0] && pks[i] != eks[0]
    ensures forall j :: 0 <= j < |pks| - 1 && j != i - 1 ==> pks[1..][j] != pks[1..][i - 1]
  {
    forall j | 0 <= j < |pks| - 1 && j != i - 1
      ensures pks[1..][j] != pks[1..][i - 1]
    {
      assert pks[j + 1] != pks[i];
    }
    assert eks[0] in eks;
  }

  /** Every stream holds a stream afterwards */
  lemma {:induction false} KeysStreams(st: StoreState, pks: seq<string>, eks: seq<string>, vs: seq<Js>, queueMaxlen: nat, mqMaxlen: int)
    requires |pks| == |vs| && |eks| == |vs|
    requires mqMaxlen >= 1 && KeysApart(st, pks, eks)
    ensures forall i :: 0 <= i < |eks| ==> HoldsStream(DeliverKeys(st, pks, eks, vs, queueMaxlen, mqMaxlen).after, eks[i])
    decreases |vs|
  {
    if vs != [] {
      var d := Deliver(st, pks[0], eks[0], queueMaxlen, mqMaxlen, vs[0]);
      var after := DeliverKeys(d.after, pks[1..], eks[1..], vs[1..], queueMaxlen, mqMaxlen).after;
      assert DeliverKeys(st, pks, eks, vs, queueMaxlen, mqMaxlen).after == after;
      FirstDelivery(st, pks, eks, vs, queueMaxlen, mqMaxlen);
      KeysStreams(d.after, pks[1..], eks[1..], vs[1..], queueMaxlen, mqMaxlen);
      if eks[0] !in eks[1..] {
        KeysFrame(d.after, pks[1..], eks[1..], vs[1..], queueMaxlen, mqMaxlen);
        forall j | 0 <= j < |pks| - 1
          ensures pks[1..][j] != eks[0]
        {
          assert pks[j + 1] != eks[0];
        }
      } else {
        var j :| 0 <= j < |eks| - 1 && eks[1..][j] == eks[0];
      }
      forall i | 0 < i < |eks|
        ensures HoldsStream(after, eks[i])
      {
        assert eks[1..][i - 1] == eks[i];
      }
    }
  }

  /** Every write succeeds, and no key other than the writes' queues and
      streams changes */
  lemma DeliverAllFrame(st: StoreState, target: Node, ws: seq<Write>, queueMaxlen: nat, mqMaxlen: int)
    requires mqMaxlen >= 1 && WritesApart(st, target, ws)
    ensures DeliverAll(st, target, ws, queueMaxlen, mqMaxlen).result == Ok(())
    ensures forall k :: k !in PortKeys(target, ws) && k !in EventKeys(target, ws) ==>
      Lookup(DeliverAll(st, target, ws, queueMaxlen, mqMaxlen).after, k) == Lookup(st, k)
  {
    DeliverAllKeys(st, target, ws, queueMaxlen, mqMaxlen);
    KeysFrame(st, PortKeys(target, ws), EventKeys(target, ws), Values(ws), queueMaxlen, mqMaxlen);
  }

  /** Each write pushes its value to the head of its own queue when no two
      writes share a queue */
  lemma DeliverAllHeads(st: StoreState, target: Node, ws: seq<Write>, queueMaxlen: nat, mqMaxlen: int)
    requires mqMaxlen >= 1 && WritesApart(st, target, ws)
    requires forall i, j :: 0 <= i < j < |ws| ==> PortKeys(target, ws)[i] != PortKeys(target, ws)[j]
    ensures forall i :: 0 <= i < |ws| ==>
      Contents(DeliverAll(st, target, ws, queueMaxlen, mqMaxlen).after, PortKeys(target, ws)[i])
        == Take([ws[i].value] + Contents(st, PortKeys(target, ws)[i]), queueMaxlen + 1)
  {
    var pks := PortKeys(target, ws);
    DeliverAllKeys(st, target, ws, queueMaxlen, mqMaxlen);
    forall i | 0 <= i < |ws|
      ensures Contents(DeliverAll(st, target, ws, queueMaxlen, mqMaxlen).after, pks[i])
           == Take([ws[i].value] + Contents(st, pks[i]), queueMaxlen + 1)
    {
      forall j | 0 <= j < |pks| && j != i
        ensures pks[j] != pks[i]
      {
        if j < i {
          assert pks[j] != pks[i];
        } else {
          assert pks[i] != pks[j];
        }
      }
      KeysHead(st, pks, EventKeys(target, ws), Values(ws), queueMaxlen, mqMaxlen, i);
    }
  }

  /** Each write's stream key holds a stream afterwards */
  lemma DeliverAllStreams(st: StoreState, target: Node, ws: seq<Write>, queueMaxlen: nat, mqMaxlen: int)
    requires mqMaxlen >= 1 && WritesApart(st, target, ws)
    ensures forall i :: 0 <= i < |ws| ==> HoldsStream(DeliverAll(st, target, ws, queueMaxlen, mqMaxlen).after, EventKeys(target, ws)[i])
  {
    DeliverAllKeys(st, target, ws, queueMaxlen, mqMaxlen);
    KeysStreams(st, PortKeys(target, ws), EventKeys(target, ws), Values(ws), queueMaxlen, mqMaxlen);
  }

  /** No queue other than the writes' own changes: a stream key held no
      list before and holds a stream after */
  lemma DeliverAllOtherQueues(st: StoreState, target: Node, ws: seq<Write>, queueMaxlen: nat, mqMaxlen: int)
    requires mqMaxlen >= 1 && WritesApart(st, target, ws)
    ensures forall k :: k !in PortKeys(target, ws) ==>
      Contents(DeliverAll(st, target, ws, queueMaxlen, mqMaxlen).after, k) == Contents(st, k)
  {
    var after := DeliverAll(st, target, ws, queueMaxlen, mqMaxlen).after;
    DeliverAllFrame(st, target, ws, queueMaxlen, mqMaxlen);
    DeliverAllStreams(st, target, ws, queueMaxlen, mqMaxlen);
    forall k | k !in PortKeys(target, ws)
      ensures Contents(after, k) == Contents(st, k)
    {
      if k in EventKeys(target, ws) {
        var j :| 0 <= j < |ws| && EventKeys(target, ws)[j] == k;
        assert HoldsStream(after, k);
      }
    }
  }

  /** The from-port a router reads: a string option names a port; an object
      is a message id; reading `.port` of null or undefined throws */
  function FromKeyRef(c: Component): Result<PortRef> {
    var v := FromKeyOption(c);
    if v.Str? then Ok(Named(v.s))
    else if v.Undefined? || v.Null? then Err(TypeError)
    else Ok(Qualified(GetProp(v, "network"), GetProp(v, "node"), GetProp(v, "port")))
  }

  /** What the router does with the envelope it popped:
      `const { network, node, data } = envelope`, then one write per next
      port of each key of `data`. Destructuring null or undefined throws, so
      does `Object.keys` of them, and so does `this.graph.getNextPorts`
      without a graph once there is a key */
  function Fanout(st: StoreState, env: Js, g: Option<Graph>, target: Node, queueMaxlen: int, mqMaxlen: int): Reply<()> {
    if env.Undefined? || env.Null? then Reply(Err(TypeError), st)
    else match ObjectEntries(GetProp(env, "data"))
      case None => Reply(Err(TypeError), st)
      case Some(props) =>
        if props == [] then Reply(Ok(()), st)
        else if g.None? then Reply(Err(TypeError), st)
        else DeliverAll(st, target, RouteWrites(g.value, GetProp(env, "network"), GetProp(env, "node"), props), queueMaxlen, mqMaxlen)
  }

  /** `process` as written: the guard `if (!input.hasData(fromKey))` tests a
      Promise, which is always truthy, so the envelope is always popped */
  function RouterAsWritten(st: StoreState, source: Node, target: Node, c: Component, queueMaxlen: int, mqMaxlen: int): Reply<()> {
    var fk := FromKeyRef(c);
    if fk.Err? then Reply(Err(fk.error), st)
    else
      var p := QueuePop(st, PortKey(source, fk.value), 1);
      if p.result.Err? then Reply(Err(p.result.error), p.after)
      else Fanout(p.after, Shape(p.result.value, 1), c.graph, target, queueMaxlen, mqMaxlen)
  }

  /** `process` with the guard awaited: nothing happens when the from-queue
      is empty */
  function RouterCorrected(st: StoreState, source: Node, target: Node, c: Component, queueMaxlen: int, mqMaxlen: int): Reply<()> {
    var fk := FromKeyRef(c);
    if fk.Err? then Reply(Err(fk.error), st)
    else
      var has := QueueHas(st, PortKey(source, fk.value), 1);
      if has.Err? then Reply(Err(has.error), st)
      else if !has.value then Reply(Ok(()), st)
      else RouterAsWritten(st, source, target, c, queueMaxlen, mqMaxlen)
  }

  /** As written, a trigger that finds the from-queue empty throws a
      TypeError (destructuring `undefined`); with the guard awaited it does
      nothing. Either way the store is unchanged */
  lemma EmptyFromQueue(st: StoreState, source: Node, target: Node, c: Component, queueMaxlen: int, mqMaxlen: int)
    requires FromKeyOption(c).Str?
    requires PortKey(source, Named(FromKeyOption(c).s)) !in st.keys
    ensures RouterAsWritten(st, source, target, c, queueMaxlen, mqMaxlen) == Reply(Err(TypeError), st)
    ensures RouterCorrected(st, source, target, c, queueMaxlen, mqMaxlen) == Reply(Ok(()), st)
  {
    var key := PortKey(source, Named(FromKeyOption(c).s));
    assert Contents(st, key) == [];
    PopTakesOldest(st, key, 1);
    assert QueuePop(st, key, 1).after.keys == st.keys;
  }

  /** With an item waiting in a well-formed store the guard passes, and the
      corrected router does what the written one does */
  lemma GuardPasses(st: StoreState, source: Node, target: Node, c: Component, queueMaxlen: int, mqMaxlen: int)
    requires FromKeyRef(c).Ok? && NoEmptyLists(st)
    requires !HoldsStream(st, PortKey(source, FromKeyRef(c).value))
    requires PortKey(source, FromKeyRef(c).value) in st.keys
    ensures RouterCorrected(st, source, target, c, queueMaxlen, mqMaxlen)
         == RouterAsWritten(st, source, target, c, queueMaxlen, mqMaxlen)
  {
    HasIff(st, PortKey(source, FromKeyRef(c).value), 1);
    assert st.keys[PortKey(source, FromKeyRef(c).value)] != List([]);
  }

  /** The router's own process: the guard awaited, then the fan-out */
  method RouterProcess<H>(c: Component, input: Input<H>, output: Output<H>) returns (r: Result<()>)
    requires input.bus == output.bus
    modifies input.bus.store
    ensures Reply(r, input.bus.store.state)
         == RouterCorrected(old(input.bus.store.state), input.source, output.target, c,
                            input.bus.queueMaxlen, input.bus.mqMaxlen)
  {
    var fk := FromKeyRef(c);
    if fk.Err? {
      return Err(fk.error);
    }
    var has := input.HasData(fk.value, None);
    if has.Err? {
      return Err(has.error);
    }
    if !has.value {
      return Ok(());
    }
    var got := input.GetData(fk.value, None);
    if got.Err? {
      return Err(got.error);
    }
    var env := got.value;
    if env.Undefined? || env.Null? {
      return Err(TypeError);
    }
    var network, node, data := GetProp(env, "network"), GetProp(env, "node"), GetProp(env, "data");
    var keys := ObjectEntries(data);
    if keys.None? {
      return Err(TypeError);
    }
    if keys.value == [] {
      return Ok(());
    }
    if c.graph.None? {
      return Err(TypeError);
    }
    r := DeliverWrites(output, RouteWrites(c.graph.value, network, node, keys.value));
  }

  /** `Promise.all` over the writes, taken one after another */
  method DeliverWrites<H>(output: Output<H>, writes: seq<Write>) returns (r: Result<()>)
    modifies output.bus.store
    ensures Reply(r, output.bus.store.state)
         == DeliverAll(old(output.bus.store.state), output.target, writes, output.bus.queueMaxlen, output.bus.mqMaxlen)
  {
    ghost var start := output.bus.store.state;
    r := Ok(());
    var i := 0;
    while i < |writes|
      invariant 0 <= i <= |writes|
      invariant r.Ok? ==> r == Ok(())
      invariant var rest := DeliverAll(output.bus.store.state, output.target, writes[i..], output.bus.queueMaxlen, output.bus.mqMaxlen);
        Reply(if r.Err? then r else rest.result, rest.after)
          == DeliverAll(start, output.target, writes, output.bus.queueMaxlen, output.bus.mqMaxlen)
    {
      assert writes[i..][1..] == writes[i + 1..];
      var w := output.SendData(writes[i].port, writes[i].value);
      if r.Ok? && w.Err? {
        r := w;
      }
      i := i + 1;
    }
    assert writes[i..] == [];
  }

  /** Two connections leaving the same port are both its targets, in order */
  lemma TwoTargets(c0: Connection, c1: Connection, key: string)
    requires CpToString(c0.src) == key && CpToString(c1.src) == key
    ensures Targets([c0, c1], key) == [c0.tgt, c1.tgt]
  {
    assert [c0, c1][..1] == [c0] && [c0][..0] == [];
    assert Targets([c0], key) == [c0.tgt];
  }

  /** The graph of the example: A.out connected to B.in and then C.in */
  function ExampleGraph(): Graph {
    var links := [Link(Endpoint(Str("A"), Str("out")), Endpoint(Str("B"), Str("in"))),
                  Link(Endpoint(Str("A"), Str("out")), Endpoint(Str("C"), Str("in")))];
    var o := GraphOptions(Obj([]), Some(links));
    Graph(o, RouteIndex(ConnectionsOf(o)))
  }

  lemma ExampleRoutes()
    ensures GetNextPorts(ExampleGraph(), CPort(Str("A"), Str("out"))) == [CPort(Str("B"), Str("in")), CPort(Str("C"), Str("in"))]
  {
    var g := ExampleGraph();
    var c0 := Connection(CPort(Str("A"), Str("out")), CPort(Str("B"), Str("in")));
    var c1 := Connection(CPort(Str("A"), Str("out")), CPort(Str("C"), Str("in")));
    assert ConnectionsOf(g.options) == [c0, c1];
    NextPorts(g, CPort(Str("A"), Str("out")));
    assert CpToString(CPort(Str("A"), Str("out"))) == "A.out";
    TwoTargets(c0, c1, "A.out");
  }

  /** An envelope from A with `{ out: 42 }` makes two writes, to B.in and
      C.in, under the envelope's network */
  lemma FanoutExample()
    ensures RouteWrites(ExampleGraph(), Str("n"), Str("A"), [Entry("out", Num(42))])
         == [Write(Qualified(Str("n"), Str("B"), Str("in")), Num(42)),
             Write(Qualified(Str("n"), Str("C"), Str("in")), Num(42))]
  {
    ExampleRoutes();
    var ws := PortWrites(ExampleGraph(), Str("n"), Str("A"), "out", Num(42));
    assert RouteWrites(ExampleGraph(), Str("n"), Str("A"), [Entry("out", Num(42))]) == ws + [];
  }

  /** A message id made of strings is addressed as "network.node.port",
      with the stream "network.node", from every node */
  lemma TextKeys(target: Node, network: string, node: string, port: string)
    ensures PortKey(target, Qualified(Str(network), Str(node), Str(port))) == network + "." + node + "." + port
    ensures EventKey(target, Qualified(Str(network), Str(node), Str(port))) == network + "." + node
  {
    QualifiedKeys(target, target, Str(network), Str(node), Str(port));
    MidExtendsEid(Node(Str(network), Str(node), Str(".")), Str(port));
  }

  /** The writes of the example go to the queues n.B.in and n.C.in and
      the streams n.B and n.C, from every node */
  lemma ExampleKeys(target: Node, w0: Write, w1: Write)
    requires w0 == Write(Qualified(Str("n"), Str("B"), Str("in")), Num(42))
    requires w1 == Write(Qualified(Str("n"), Str("C"), Str("in")), Num(42))
    ensures PortKeys(target, [w0, w1]) == ["n.B.in", "n.C.in"]
    ensures EventKeys(target, [w0, w1]) == ["n.B", "n.C"]
  {
    ExampleKey(target, w0, "B");
    ExampleKey(target, w1, "C");
    assert "n." + "B" + ".in" == "n.B.in" && "n." + "C" + ".in" == "n.C.in";
    assert "n." + "B" == "n.B" && "n." + "C" == "n.C";
    assert [w0, w1][1..] == [w1] && [w1][1..] == [];
    assert PortKeys(target, [w1]) == [PortKey(target, w1.port)];
    assert EventKeys(target, [w1]) == [EventKey(target, w1.port)];
    assert PortKeys(target, [w0, w1]) == [PortKey(target, w0.port)] + PortKeys(target, [w1]);
    assert EventKeys(target, [w0, w1]) == [EventKey(target, w0.port)] + EventKeys(target, [w1]);
  }

  /** A write to port `in` of node `node` in network `n` */
  lemma ExampleKey(target: Node, w: Write, node: string)
    requires w.port == Qualified(Str("n"), Str(node), Str("in"))
    ensures PortKey(target, w.port) == "n." + node + ".in"
    ensures EventKey(target, w.port) == "n." + node
  {
    TextKeys(target, "n", node, "in");
    assert "n" + "." + node + "." + "in" == "n." + node + ".in";
    assert "n" + "." + node == "n." + node;
  }

  /** The example's writes are apart in an empty store */
  lemma ExampleApart(st: StoreState, target: Node, w0: Write, w1: Write)
    requires st.keys == map[]
    requires w0 == Write(Qualified(Str("n"), Str("B"), Str("in")), Num(42))
    requires w1 == Write(Qualified(Str("n"), Str("C"), Str("in")), Num(42))
    ensures WritesApart(st, target, [w0, w1])
    ensures PortKeys(target, [w0, w1]) == ["n.B.in", "n.C.in"]
    ensures EventKeys(target, [w0, w1]) == ["n.B", "n.C"]
  {
    ExampleKeys(target, w0, w1);
  }

  /** Routing `{ out: 42 }` from A into an empty store puts 42 in B.in and
      in C.in, publishes on the streams of B and C, and leaves every other
      key absent, so no other queue holds anything */
  lemma FanoutExampleStore(st: StoreState, target: Node, queueMaxlen: nat, mqMaxlen: int)
    requires mqMaxlen >= 1 && st.keys == map[]
    ensures var r := DeliverAll(st, target,
                                RouteWrites(ExampleGraph(), Str("n"), Str("A"), [Entry("out", Num(42))]), queueMaxlen, mqMaxlen);
      && r.result == Ok(())
      && Contents(r.after, "n.B.in") == [Num(42)]
      && Contents(r.after, "n.C.in") == [Num(42)]
      && (forall k :: k != "n.B.in" && k != "n.C.in" ==> Contents(r.after, k) == [])
      && (forall k :: k != "n.B.in" && k != "n.C.in" && k != "n.B" && k != "n.C" ==> k !in r.after.keys)
  {
    FanoutExample();
    var w0 := Write(Qualified(Str("n"), Str("B"), Str("in")), Num(42));
    var w1 := Write(Qualified(Str("n"), Str("C"), Str("in")), Num(42));
    ExampleApart(st, target, w0, w1);
    ExamplePair(w0, w1);
    var ws := RouteWrites(ExampleGraph(), Str("n"), Str("A"), [Entry("out", Num(42))]);
    DeliverAllKeys(st, target, ws, queueMaxlen, mqMaxlen);
    TwoKeysStore(st, PortKeys(target, ws), EventKeys(target, ws), Values(ws), queueMaxlen, mqMaxlen,
                 "n.B.in", "n.C.in", "n.B", "n.C", Num(42));
  }

  /** Two deliveries of `v` to distinct queues `pb` and `pc`, with streams
      `eb` and `ec`, into an empty store */
  lemma TwoKeysStore(st: StoreState, pks: seq<string>, eks: seq<string>, vs: seq<Js>, queueMaxlen: nat, mqMaxlen: int,
                     pb: string, pc: string, eb: string, ec: string, v: Js)
    requires mqMaxlen >= 1 && st.keys == map[] && KeysApart(st, pks, eks)
    requires pks == [pb, pc] && eks == [eb, ec] && vs == [v, v] && pb != pc
    ensures var r := DeliverKeys(st, pks, eks, vs, queueMaxlen, mqMaxlen);
      && r.result == Ok(())
      && Contents(r.after, pb) == [v]
      && Contents(r.after, pc) == [v]
      && (forall k :: k != pb && k != pc ==> Contents(r.after, k) == [])
      && (forall k :: k != pb && k != pc && k != eb && k != ec ==> k !in r.after.keys)
  {
    FreshQueues(st, pks, eks, vs, queueMaxlen, mqMaxlen);
    KeysOthers(st, pks, eks, vs, queueMaxlen, mqMaxlen);
    var after := DeliverKeys(st, pks, eks, vs, queueMaxlen, mqMaxlen).after;
    assert Contents(after, pks[0]) == [vs[0]] && Contents(after, pks[1]) == [vs[1]];
    OthersOfTwo(after, pks, eks, pb, pc, eb, ec);
  }

  /** The keys outside two queues and two streams, spelled out */
  lemma OthersOfTwo(after: StoreState, pks: seq<string>, eks: seq<string>, pb: string, pc: string, eb: string, ec: string)
    requires pks == [pb, pc] && eks == [eb, ec]
    requires forall k :: k !in pks ==> Contents(after, k) == []
    requires forall k :: k !in pks && k !in eks ==> k !in after.keys
    ensures forall k :: k != pb && k != pc ==> Contents(after, k) == []
    ensures forall k :: k != pb && k != pc && k != eb && k != ec ==> k !in after.keys
  {
  }

  /** The values of the example's writes, and its two queues are distinct */
  lemma ExamplePair(w0: Write, w1: Write)
    requires w0.value == Num(42) && w1.value == Num(42)
    ensures Values([w0, w1]) == [Num(42), Num(42)]
    ensures "n.B.in" != "n.C.in"
  {
    assert "n.B.in"[2] != "n.C.in"[2];
  }

  /** Deliveries to distinct queues into an empty store: all succeed, and
      each queue holds exactly its one value */
  lemma FreshQueues(st: StoreState, pks: seq<string>, eks: seq<string>, vs: seq<Js>, queueMaxlen: nat, mqMaxlen: int)
    requires |pks| == |vs| && |eks| == |vs|
    requires mqMaxlen >= 1 && st.keys == map[] && KeysApart(st, pks, eks)
    requires forall i, j :: 0 <= i < j < |pks| ==> pks[i] != pks[j]
    ensures DeliverKeys(st, pks, eks, vs, queueMaxlen, mqMaxlen).result == Ok(())
    ensures forall i :: 0 <= i < |pks| ==> Contents(DeliverKeys(st, pks, eks, vs, queueMaxlen, mqMaxlen).after, pks[i]) == [vs[i]]
  {
    KeysFrame(st, pks, eks, vs, queueMaxlen, mqMaxlen);
    forall i | 0 <= i < |pks|
      ensures Contents(DeliverKeys(st, pks, eks, vs, queueMaxlen, mqMaxlen).after, pks[i]) == [vs[i]]
    {
      forall j | 0 <= j < |pks| && j != i
        ensures pks[j] != pks[i]
      {
        if j < i {
          assert pks[j] != pks[i];
        } else {
          assert pks[i] != pks[j];
        }
      }
      KeysHead(st, pks, eks, vs, queueMaxlen, mqMaxlen, i);
      assert Contents(st, pks[i]) == [];
    }
  }

  /** Deliveries into an empty store leave no list outside their queues,
      and no key outside their queues and streams */
  lemma KeysOthers(st: StoreState, pks: seq<string>, eks: seq<string>, vs: seq<Js>, queueMaxlen: nat, mqMaxlen: int)
    requires |pks| == |vs| && |eks| == |vs|
    requires mqMaxlen >= 1 && st.keys == map[] && KeysApart(st, pks, eks)
    ensures forall k :: k !in pks ==> Contents(DeliverKeys(st, pks, eks, vs, queueMaxlen, mqMaxlen).after, k) == []
    ensures forall k :: k !in pks && k !in eks ==> k !in DeliverKeys(st, pks, eks, vs, queueMaxlen, mqMaxlen).after.keys
  {
    KeysFrame(st, pks, eks, vs, queueMaxlen, mqMaxlen);
    KeysStreams(st, pks, eks, vs, queueMaxlen, mqMaxlen);
    EmptyElsewhere(st, DeliverKeys(st, pks, eks, vs, queueMaxlen, mqMaxlen).after, pks, eks);
  }

  /** From an empty store, when only the keys `pks` and `eks` changed and
      every key of `eks` holds a stream, no key outside `pks` holds a list
      and keys outside both are absent */
  lemma EmptyElsewhere(st: StoreState, after: StoreState, pks: seq<string>, eks: seq<string>)
    requires st.keys == map[]
    requires forall k :: k !in pks && k !in eks ==> Lookup(after, k) == Lookup(st, k)
    requires forall i :: 0 <= i < |eks| ==> HoldsStream(after, eks[i])
    ensures forall k :: k !in pks ==> Contents(after, k) == []
    ensures forall k :: k !in pks && k !in eks ==> k !in after.keys
  {
    forall k | k !in pks
      ensures Contents(after, k) == []
      ensures k !in eks ==> k !in after.keys
    {
      if k in eks {
        var j :| 0 <= j < |eks| && eks[j] == k;
        assert HoldsStream(after, eks[j]);
      } else {
        assert Lookup(st, k) == None;
      }
    }
  }
}
