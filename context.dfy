/** The addressing context a component runs in: `network.node.port` keys of
    data queues, `network.node` keys of event streams, and the input and
    output halves that read from and write to them. */
module Context {
  import opened Js
  import opened RedisClient
  import opened Bus

  // ---------------------------------------------------------------------
  // Node keys
  // ---------------------------------------------------------------------

  /** A node address with its separator */
  datatype Node = Node(network: Js, node: Js, separator: Js)

  /** The separator `join` uses: `undefined` means "," */
  function SepText(sep: Js): string {
    if sep.Undefined? then "," else String(sep)
  }

  /** `join(...args)` */
  function Join(n: Node, args: seq<Js>): string {
    JoinText(args, SepText(n.separator))
  }

  /** `midString(port)`: the key of a port's data queue */
  function MidString(n: Node, port: Js): string {
    Join(n, [n.network, n.node, port])
  }

  /** `eidString()`: the key of a node's event stream */
  function EidString(n: Node): string {
    Join(n, [n.network, n.node])
  }

  /** `midString(p) == eidString() + sep + p`, `eidString() == network + sep
      + node`; null and undefined parts print as "" */
  lemma {:induction false} MidExtendsEid(n: Node, port: Js)
    ensures EidString(n) == PartText(n.network) + SepText(n.separator) + PartText(n.node)
    ensures MidString(n, port) == EidString(n) + SepText(n.separator) + PartText(port)
  {
    var sep := SepText(n.separator);
    var a, b, c := PartText(n.network), PartText(n.node), PartText(port);
    JoinTwo(n.network, n.node, sep);
    JoinThree(n.network, n.node, port, sep);
    Regroup(a, sep, b, c);
  }

  lemma Regroup(a: string, sep: string, b: string, c: string)
    ensures a + sep + (b + sep + c) == (a + sep + b) + sep + c
  {
    var x, y := a + sep + (b + sep + c), (a + sep + b) + sep + c;
    assert |x| == |y|;
    forall i | 0 <= i < |x|
      ensures x[i] == y[i]
    {
    }
  }

  lemma JoinTwo(x: Js, y: Js, sep: string)
    ensures JoinText([x, y], sep) == PartText(x) + sep + PartText(y)
  {
    assert [x, y][1..] == [y];
  }

  lemma JoinThree(x: Js, y: Js, z: Js, sep: string)
    ensures JoinText([x, y, z], sep) == PartText(x) + sep + (PartText(y) + sep + PartText(z))
  {
    assert [x, y, z][1..] == [y, z];
    JoinTwo(y, z, sep);
  }

  /** A port key is never its node's event key while the separator is not
      empty */
  lemma MidIsNotEid(n: Node, port: Js)
    requires SepText(n.separator) != ""
    ensures MidString(n, port) != EidString(n)
  {
    MidExtendsEid(n, port);
    assert |MidString(n, port)| > |EidString(n)|;
  }

  /** Under the default separator the event key is the key the network
      registers listeners on (the network id, ".", and the node id as
      template strings print them) exactly when neither id is null or
      undefined: `join` prints those as "", a template string as "null" or
      "undefined" */
  lemma EidIsListenerKey(network: Js, node: Js)
    ensures EidString(Node(network, node, Str("."))) == String(network) + "." + String(node)
      <==> !network.Undefined? && !network.Null? && !node.Undefined? && !node.Null?
  {
    MidExtendsEid(Node(network, node, Str(".")), Undefined);
    PartShorter(network);
    PartShorter(node);
  }

  /** `join` prints a null or undefined part shorter than `String` does, and
      any other part the same */
  lemma PartShorter(v: Js)
    ensures v.Undefined? || v.Null? ==> |PartText(v)| < |String(v)|
    ensures !v.Undefined? && !v.Null? ==> PartText(v) == String(v)
  {
  }

  // ---------------------------------------------------------------------
  // Options
  // ---------------------------------------------------------------------

  /** The `source` or `target` of the context options; a missing separator
      is `None` */
  datatype NodeOptions = NodeOptions(network: Js, node: Js, separator: Option<Js>)

  /** `{ separator: ".", fromKey: "from", ...options }` */
  datatype ContextOptions = ContextOptions(
    source: NodeOptions, target: NodeOptions, separator: Option<Js>, fromKey: Option<string>)

  /** `new Node({ separator: outer, ...opts })` */
  function NodeOf(opts: NodeOptions, outer: Js): Node {
    Node(opts.network, opts.node, opts.separator.GetOr(outer))
  }

  function Separator(o: ContextOptions): Js {
    o.separator.GetOr(Str("."))
  }

  function FromKey(o: ContextOptions): string {
    o.fromKey.GetOr("from")
  }

  /** A port given by name, or a full message id `{network, node, port}` */
  datatype PortRef = Named(name: string) | Qualified(network: Js, node: Js, port: Js)

  /** The queue key a port reference reads or writes: a name is a port of
      `self`; a message id goes through `new Node(port)`, which always uses
      "." */
  function PortKey(self: Node, p: PortRef): string {
    match p
    case Named(name) => MidString(self, Str(name))
    case Qualified(network, node, port) => MidString(Node(network, node, Str(".")), port)
  }

  /** The event key that goes with a port reference */
  function EventKey(self: Node, p: PortRef): string {
    match p
    case Named(_) => EidString(self)
    case Qualified(network, node, _) => EidString(Node(network, node, Str(".")))
  }

  /** A message id is addressed the same way from every node, with the
      separator ".", and its event key is the prefix of its port key */
  lemma {:induction false} QualifiedKeys(a: Node, b: Node, network: Js, node: Js, port: Js)
    ensures PortKey(a, Qualified(network, node, port)) == PortKey(b, Qualified(network, node, port))
    ensures PortKey(a, Qualified(network, node, port))
         == PartText(network) + "." + PartText(node) + "." + PartText(port)
    ensures PortKey(a, Qualified(network, node, port)) == EventKey(b, Qualified(network, node, port)) + "." + PartText(port)
  {
    MidExtendsEid(Node(network, node, Str(".")), port);
  }

  // ---------------------------------------------------------------------
  // Writing
  // ---------------------------------------------------------------------

  /** The event that follows every data write */
  const Trigger := Obj([Entry("type", Str("trigger"))])

  /** `sendData`: push the data on the port queue, then publish a trigger on
      the node's stream; a failed push throws before the publish */
  function Deliver(st: StoreState, mid: string, eid: string, queueMaxlen: int, mqMaxlen: int, data: Js): Reply<()> {
    var push := QueuePush(st, mid, queueMaxlen, [data]);
    if push.result.Err? then push
    else
      var publish := XAdd(push.after, eid, mqMaxlen, FormatSpec(OwnEntries(Trigger)));
      Reply(if publish.result.Ok? then Ok(()) else Err(publish.result.error), publish.after)
  }

  /** A delivery to a port queue and a separate event stream writes exactly
      one item at the head of the queue and exactly one trigger entry at the
      end of the stream, and nothing else */
  lemma DeliverWritesOnce(st: StoreState, mid: string, eid: string, queueMaxlen: nat, mqMaxlen: int, data: Js)
    requires mid != eid && mqMaxlen >= 1
    requires !HoldsStream(st, mid) && !(Lookup(st, eid).Some? && Lookup(st, eid).value.List?)
    ensures var r := Deliver(st, mid, eid, queueMaxlen, mqMaxlen, data);
      && r.result == Ok(())
      && Contents(r.after, mid) == Take([data] + Contents(st, mid), queueMaxlen + 1)
      && Entries(r.after, eid) == Last(Entries(st, eid) + [StreamEntry(st.nextId, [Str("type"), Str("trigger")])], mqMaxlen)
      && r.after.nextId == st.nextId + 1
      && (forall k :: k != mid && k != eid ==> Lookup(r.after, k) == Lookup(st, k))
  {
    var push := QueuePush(st, mid, queueMaxlen, [data]);
    PushKeepsNewest(st, mid, queueMaxlen, [data]);
    assert Reverse([data]) == [data];
    forall k | k != mid
      ensures Lookup(push.after, k) == Lookup(st, k)
    {
      QueueFrame(st, mid, queueMaxlen, 1, [data], k);
    }
    assert FormatSpec(OwnEntries(Trigger)) == [Str("type"), Str("trigger")];
  }

  /** `{ network: source.network, node: source.node, [field]: value }`, the
      envelope `send` and `sendError` write to the from-port */
  function Envelope(source: Node, field: string, value: Js): Js {
    Obj([Entry("network", source.network), Entry("node", source.node), Entry(field, value)])
  }

  /** The reading half of a context: ports are those of the source node */
  class Input<H> {
    const bus: MsgBus<H>
    const source: Node
    const target: Node
    const fromKey: string

    constructor (bus: MsgBus<H>, options: ContextOptions)
      ensures this.bus == bus
      ensures source == NodeOf(options.source, Separator(options))
      ensures target == NodeOf(options.target, Separator(options))
      ensures fromKey == FromKey(options)
    {
      this.bus := bus;
      source := NodeOf(options.source, Separator(options));
      target := NodeOf(options.target, Separator(options));
      fromKey := FromKey(options);
    }

    /** `hasData(port, options)` */
    method HasData(port: PortRef, count: Option<int>) returns (r: Result<bool>)
      ensures r == QueueHas(bus.store.state, PortKey(source, port), count.GetOr(1))
    {
      var mid := PortKey(source, port);
      r := bus.HasData(mid, count);
    }

    /** `getData(port, options)` */
    method GetData(port: PortRef, count: Option<int>) returns (r: Result<Js>)
      modifies bus.store
      ensures var p := QueuePop(old(bus.store.state), PortKey(source, port), count.GetOr(1));
        && bus.store.state == p.after
        && r == (if p.result.Ok? then Ok(Shape(p.result.value, count.GetOr(1))) else Err(p.result.error))
    {
      var mid := PortKey(source, port);
      r := bus.GetData(mid, count);
    }
  }

  /** The writing half of a context: ports are those of the target node */
  class Output<H> {
    const bus: MsgBus<H>
    const source: Node
    const target: Node
    const fromKey: string

    constructor (bus: MsgBus<H>, options: ContextOptions)
      ensures this.bus == bus
      ensures source == NodeOf(options.source, Separator(options))
      ensures target == NodeOf(options.target, Separator(options))
      ensures fromKey == FromKey(options)
    {
      this.bus := bus;
      source := NodeOf(options.source, Separator(options));
      target := NodeOf(options.target, Separator(options));
      fromKey := FromKey(options);
    }

    /** `sendData(port, data)`: one data write, then one trigger event */
    method SendData(port: PortRef, data: Js) returns (r: Result<()>)
      modifies bus.store
      ensures Reply(r, bus.store.state)
           == Deliver(old(bus.store.state), PortKey(target, port), EventKey(target, port),
                      bus.queueMaxlen, bus.mqMaxlen, data)
    {
      var mid := PortKey(target, port);
      var eid := EventKey(target, port);
      r := bus.SendData(mid, data);
      if r.Err? {
        return;
      }
      var e := bus.SendEvent(eid, Trigger);
      r := if e.Ok? then Ok(()) else Err(e.error);
    }

    /** `send(data)`: the envelope with `data` to the from-port */
    method Send(data: Js) returns (r: Result<()>)
      modifies bus.store
      ensures Reply(r, bus.store.state)
           == Deliver(old(bus.store.state), PortKey(target, Named(fromKey)), EidString(target),
                      bus.queueMaxlen, bus.mqMaxlen, Envelope(source, "data", data))
    {
      r := SendData(Named(fromKey), Envelope(source, "data", data));
    }

    /** `sendError(error)`: the envelope with `error` to the from-port */
    method SendError(error: Js) returns (r: Result<()>)
      modifies bus.store
      ensures Reply(r, bus.store.state)
           == Deliver(old(bus.store.state), PortKey(target, Named(fromKey)), EidString(target),
                      bus.queueMaxlen, bus.mqMaxlen, Envelope(source, "error", error))
    {
      r := SendData(Named(fromKey), Envelope(source, "error", error));
    }
  }
}
