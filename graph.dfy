/** The flow graph: processes (nodes with attributes) and connections between
    ports, with a route index from each source port, keyed by its dotted
    name, to the target ports it feeds. */
module Graphs {
  import opened Js

  /** A port of a node: `{ node, port }` */
  datatype CPort = CPort(node: Js, port: Js)

  datatype Connection = Connection(src: CPort, tgt: CPort)

  /** An end of a connection as the graph file writes it: `{ process, port }` */
  datatype Endpoint = Endpoint(process: Js, port: Js)

  datatype Link = Link(src: Endpoint, tgt: Endpoint)

  /** The graph options: the `processes` object and the `connections` list,
      `None` when the field is absent or null */
  datatype GraphOptions = GraphOptions(processes: Js, connections: Option<seq<Link>>)

  /** A graph and the route map its constructor built */
  datatype Graph = Graph(options: GraphOptions, routeMap: seq<Entry<string, seq<CPort>>>)

  // ---------------------------------------------------------------------
  // Port keys
  // ---------------------------------------------------------------------

  /** `cpToString(cp)`: `${node}.${port}` */
  function CpToString(cp: CPort): string {
    String(cp.node) + "." + String(cp.port)
  }

  /** `s.split(c)` */
  function Split(s: string, c: char): (parts: seq<string>)
    ensures |parts| >= 1
  {
    if s == [] then [""]
    else
      var rest := Split(s[1..], c);
      if s[0] == c then [""] + rest else [[s[0]] + rest[0]] + rest[1..]
  }

  lemma {:induction false} SplitPlain(a: string, c: char)
    requires c !in a
    ensures Split(a, c) == [a]
  {
    if a != [] {
      SplitPlain(a[1..], c);
      assert [a[0]] + a[1..] == a;
    }
  }

  lemma {:induction false} SplitAt(a: string, b: string, c: char)
    requires c !in a
    ensures Split(a + [c] + b, c) == [a] + Split(b, c)
  {
    if a == [] {
      assert a + [c] + b == [c] + b;
      assert ([c] + b)[1..] == b;
    } else {
      assert (a + [c] + b)[1..] == a[1..] + [c] + b;
      SplitAt(a[1..], b, c);
      assert [a[0]] + a[1..] == a;
    }
  }

  /** `cpFromString(str)`: the first two dot-separated pieces; a missing
      port is `undefined` */
  function CpFromString(s: string): CPort {
    var parts := Split(s, '.');
    CPort(Str(parts[0]), if |parts| > 1 then Str(parts[1]) else Undefined)
  }

  /** Port keys round-trip when neither name contains "." */
  lemma CpRoundTrip(node: string, port: string)
    requires '.' !in node && '.' !in port
    ensures CpToString(CPort(Str(node), Str(port))) == node + "." + port
    ensures CpFromString(CpToString(CPort(Str(node), Str(port)))) == CPort(Str(node), Str(port))
  {
    SplitAt(node, port, '.');
    SplitPlain(port, '.');
  }

  // ---------------------------------------------------------------------
  // Connections and the route index
  // ---------------------------------------------------------------------

  function ConnectionOf(l: Link): Connection {
    Connection(CPort(l.src.process, l.src.port), CPort(l.tgt.process, l.tgt.port))
  }

  /** `connections`: each link with `process` read as `node`, in order; no
      connections field means none */
  function ConnectionsOf(o: GraphOptions): (cs: seq<Connection>)
    ensures o.connections.None? ==> cs == []
    ensures o.connections.Some? ==> (|cs| == |o.connections.value|
      && forall i :: 0 <= i < |cs| ==>
           cs[i].src == CPort(o.connections.value[i].src.process, o.connections.value[i].src.port)
           && cs[i].tgt == CPort(o.connections.value[i].tgt.process, o.connections.value[i].tgt.port))
  {
    if o.connections.None? then []
    else Links(o.connections.value)
  }

  function Links(ls: seq<Link>): (cs: seq<Connection>)
    ensures |cs| == |ls| && forall i :: 0 <= i < |ls| ==> cs[i] == ConnectionOf(ls[i])
  {
    if ls == [] then [] else [ConnectionOf(ls[0])] + Links(ls[1..])
  }

  /** One step of the constructor: create the source key's list if missing,
      then push the target */
  function AddRoute(m: seq<Entry<string, seq<CPort>>>, c: Connection): seq<Entry<string, seq<CPort>>> {
    var k := CpToString(c.src);
    Put(m, k, Get(m, k).GetOr([]) + [c.tgt])
  }

  /** The route map after the constructor went through `cs` */
  function RouteIndex(cs: seq<Connection>): seq<Entry<string, seq<CPort>>> {
    if cs == [] then [] else AddRoute(RouteIndex(cs[..|cs| - 1]), cs[|cs| - 1])
  }

  /** The targets of the connections whose source has key `key`, in
      connection order: the reference for the route index */
  function Targets(cs: seq<Connection>, key: string): seq<CPort> {
    if cs == [] then []
    else Targets(cs[..|cs| - 1], key) + (if CpToString(cs[|cs| - 1].src) == key then [cs[|cs| - 1].tgt] else [])
  }

  /** `new Graph(options)` */
  method NewGraph(options: GraphOptions) returns (g: Graph)
    ensures g.options == options && g.routeMap == RouteIndex(ConnectionsOf(options))
  {
    var cs := ConnectionsOf(options);
    var routeMap: seq<Entry<string, seq<CPort>>> := [];
    var i := 0;
    while i < |cs|
      invariant 0 <= i <= |cs|
      invariant routeMap == RouteIndex(cs[..i])
    {
      var src, tgt := cs[i].src, cs[i].tgt;
      var key := CpToString(src);
      ghost var before := routeMap;
      RouteIndexStep(cs, i);
      if Get(routeMap, key).None? {
        routeMap := Put(routeMap, key, []);
        PutTwice(before, key, [], [tgt]);
        assert [] + [tgt] == [tgt];
      }
      var list := Get(routeMap, key).value;
      routeMap := Put(routeMap, key, list + [tgt]);
      i := i + 1;
    }
    assert cs[..|cs|] == cs;
    g := Graph(options, routeMap);
  }

  lemma RouteIndexStep(cs: seq<Connection>, i: nat)
    requires i < |cs|
    ensures RouteIndex(cs[..i + 1]) == AddRoute(RouteIndex(cs[..i]), cs[i])
  {
    assert cs[..i + 1][..i] == cs[..i];
  }

  /** Setting a key twice is setting it once */
  lemma {:induction false} PutTwice<V>(m: seq<Entry<string, V>>, k: string, v1: V, v2: V)
    ensures Put(Put(m, k, v1), k, v2) == Put(m, k, v2)
  {
    if m != [] && m[0].key != k {
      PutTwice(m[1..], k, v1, v2);
    }
  }

  /** A graph whose route map is the one its constructor builds */
  predicate Built(g: Graph) {
    g.routeMap == RouteIndex(ConnectionsOf(g.options))
  }

  /** `getNextPorts(np)`: the route list of np's key, or `[]` */
  function GetNextPorts(g: Graph, np: CPort): seq<CPort> {
    Get(g.routeMap, CpToString(np)).GetOr([])
  }

  /** Each route list holds the targets of the connections from that key, in
      connection order; a key has a list exactly when some connection leaves
      from it */
  lemma {:induction false} RouteIndexTargets(cs: seq<Connection>, key: string)
    ensures Get(RouteIndex(cs), key).GetOr([]) == Targets(cs, key)
    ensures Get(RouteIndex(cs), key).Some? <==> Targets(cs, key) != []
  {
    if cs != [] {
      RouteIndexTargets(cs[..|cs| - 1], key);
    }
  }

  /** `getNextPorts(np)` lists the target of every connection whose source
      has np's key, in connection order, and `[]` when there is none */
  lemma NextPorts(g: Graph, np: CPort)
    requires Built(g)
    ensures GetNextPorts(g, np) == Targets(ConnectionsOf(g.options), CpToString(np))
    ensures (forall c :: c in ConnectionsOf(g.options) ==> CpToString(c.src) != CpToString(np))
            ==> GetNextPorts(g, np) == []
  {
    RouteIndexTargets(ConnectionsOf(g.options), CpToString(np));
    NoTargets(ConnectionsOf(g.options), CpToString(np));
  }

  lemma {:induction false} NoTargets(cs: seq<Connection>, key: string)
    ensures (forall c :: c in cs ==> CpToString(c.src) != key) ==> Targets(cs, key) == []
  {
    if cs != [] {
      assert forall c :: c in cs[..|cs| - 1] ==> c in cs;
      NoTargets(cs[..|cs| - 1], key);
    }
  }

  /** Distinct ports whose dotted keys coincide share one route list:
      node "a.b" port "c" and node "a" port "b.c" */
  lemma KeyCollision(g: Graph)
    ensures CPort(Str("a.b"), Str("c")) != CPort(Str("a"), Str("b.c"))
    ensures CpToString(CPort(Str("a.b"), Str("c"))) == CpToString(CPort(Str("a"), Str("b.c"))) == "a.b.c"
    ensures GetNextPorts(g, CPort(Str("a.b"), Str("c"))) == GetNextPorts(g, CPort(Str("a"), Str("b.c")))
  {
  }

  function Total(m: seq<Entry<string, seq<CPort>>>): nat {
    if m == [] then 0 else |m[0].value| + Total(m[1..])
  }

  lemma {:induction false} TotalPut(m: seq<Entry<string, seq<CPort>>>, k: string, v: seq<CPort>)
    requires Distinct(m)
    ensures Total(Put(m, k, v)) + |Get(m, k).GetOr([])| == Total(m) + |v|
  {
    if m != [] && m[0].key != k {
      TotalPut(m[1..], k, v);
    }
    if m != [] && m[0].key == k {
      assert Get(m[1..], k).None?;
    }
  }

  /** The route lists hold one key per source key and, together, exactly one
      entry per connection */
  lemma {:induction false} RouteCount(cs: seq<Connection>)
    ensures Distinct(RouteIndex(cs))
    ensures Total(RouteIndex(cs)) == |cs|
  {
    if cs != [] {
      var m := RouteIndex(cs[..|cs| - 1]);
      var k := CpToString(cs[|cs| - 1].src);
      RouteCount(cs[..|cs| - 1]);
      PutDistinct(m, k, Get(m, k).GetOr([]) + [cs[|cs| - 1].tgt]);
      TotalPut(m, k, Get(m, k).GetOr([]) + [cs[|cs| - 1].tgt]);
    }
  }

  // ---------------------------------------------------------------------
  // Nodes
  // ---------------------------------------------------------------------

  /** `{ id, ...attrs }` */
  function NodeOf(id: string, attrs: Js): Js {
    Obj(Spread([Entry("id", Str(id))], OwnEntries(attrs)))
  }

  /** `nodes`: one `{ id, ...attrs }` per key of `processes`, in key order;
      `Object.keys` throws on null and undefined */
  function Nodes(o: GraphOptions): Result<seq<Js>> {
    match ObjectEntries(o.processes)
    case None => Err(TypeError)
    case Some(ps) => Ok(seq(|ps|, i requires 0 <= i < |ps| => NodeOf(ps[i].key, ps[i].value)))
  }

  /** A node's `id` is its key unless its attribute bag has its own `id`,
      which wins because it is spread after; the node has distinct keys */
  lemma NodeId(id: string, attrs: Js)
    requires Distinct(OwnEntries(attrs))
    ensures GetProp(NodeOf(id, attrs), "id")
         == if "id" in Keys(OwnEntries(attrs)) then Get(OwnEntries(attrs), "id").value else Str(id)
    ensures Distinct(NodeOf(id, attrs).props)
  {
    var base := [Entry("id", Str(id))];
    assert Keys(base[1..]) == [];
    assert Distinct(base);
    assert Get(base, "id") == Some(Str(id));
    GetSpread(base, OwnEntries(attrs), "id");
  }

  /** `nodes` throws exactly on null or undefined processes; otherwise there
      is one node per process, in key order, and node i carries every
      attribute of process i and the process's key as its `id` unless the
      attributes have their own */
  lemma NodesPerProcess(o: GraphOptions)
    ensures Nodes(o).Err? <==> o.processes.Undefined? || o.processes.Null?
    ensures Nodes(o).Ok? ==> |Nodes(o).value| == |OwnEntries(o.processes)|
    ensures Nodes(o).Ok? ==> forall i :: 0 <= i < |OwnEntries(o.processes)| && Distinct(OwnEntries(OwnEntries(o.processes)[i].value)) ==>
      var e := OwnEntries(o.processes)[i];
      && GetProp(Nodes(o).value[i], "id")
           == (if "id" in Keys(OwnEntries(e.value)) then Get(OwnEntries(e.value), "id").value else Str(e.key))
      && (forall a :: a in Keys(OwnEntries(e.value)) ==> GetProp(Nodes(o).value[i], a) == Get(OwnEntries(e.value), a).value)
  {
    if Nodes(o).Ok? {
      var ps := OwnEntries(o.processes);
      forall i | 0 <= i < |ps| && Distinct(OwnEntries(ps[i].value))
        ensures GetProp(Nodes(o).value[i], "id")
             == (if "id" in Keys(OwnEntries(ps[i].value)) then Get(OwnEntries(ps[i].value), "id").value else Str(ps[i].key))
        ensures forall a :: a in Keys(OwnEntries(ps[i].value)) ==> GetProp(Nodes(o).value[i], a) == Get(OwnEntries(ps[i].value), a).value
      {
        assert Nodes(o).value[i] == NodeOf(ps[i].key, ps[i].value);
        NodeId(ps[i].key, ps[i].value);
        forall a | a in Keys(OwnEntries(ps[i].value))
          ensures GetProp(Nodes(o).value[i], a) == Get(OwnEntries(ps[i].value), a).value
        {
          GetSpread([Entry("id", Str(ps[i].key))], OwnEntries(ps[i].value), a);
        }
      }
    }
  }
}
