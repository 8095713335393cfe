/** A network: the components it runs, keyed by id, each with a listener on
    its event key that runs the component's `process`; a `running` flag
    that decides whether nodes are set up as they are added; component
    selection by type; and loading and hot-reloading from a graph. */
module Networks {
  import opened Js
  import opened Bus
  import opened Context
  import opened Graphs
  import opened Components

  /** `options.getComponent`, a factory the network cannot see into; `None`
      is a falsy result */
  type Factory = (seq<Entry<string, Js>>, Option<Graph>) -> Option<Component>

  /** The handler a node's listener runs: `node.process(context)` */
  datatype Listener = Listener(node: Component, context: ContextOptions)

  /** A lifecycle hook called on a node, by node id */
  datatype Hook = Setup(node: Js) | Teardown(node: Js)

  /** `graph.diff(this.graph).nodes`, computed outside this model */
  datatype Patch = Patch(added: seq<Js>, removed: seq<Js>, updated: seq<Js>)

  /** The constructor options; `components` is empty when absent */
  datatype NetworkOptions = NetworkOptions(
    id: Option<Js>, router: Option<Js>, components: seq<Entry<string, ComponentClass>>, factory: Option<Factory>)

  /** What the constructor fixes; `uuids(i)` is the i-th `uuid.v4()` */
  datatype Config = Config(
    id: Js, router: Js, components: seq<Entry<string, ComponentClass>>, factory: Option<Factory>, uuids: nat -> string)

  /** What the methods change: the node map, the stored graph, the running
      flag, the hooks called so far, the bus's listener registry and the
      number of uuids drawn */
  datatype NetState = NetState(
    nodes: seq<Entry<Js, Component>>, graph: Option<Graph>, running: bool,
    log: seq<Hook>, registry: Registry<Listener>, minted: nat)

  /** A result and the state after */
  datatype Out<T> = Out(value: T, after: NetState)

  // ---------------------------------------------------------------------
  // Construction
  // ---------------------------------------------------------------------

  /** `{ default: cls, [router]: Router, ...components }` */
  function ComponentTable(dflt: ComponentClass, router: Js, user: seq<Entry<string, ComponentClass>>): seq<Entry<string, ComponentClass>> {
    Spread(Put([Entry("default", dflt)], String(router), Router), user)
  }

  /** `{ id: uuid.v4(), router: "router", ...options }`, then the table; the
      uuid is drawn whether or not an id is given */
  function NewConfig(options: NetworkOptions, uuids: nat -> string): Config {
    var router := options.router.GetOr(Str("router"));
    Config(options.id.GetOr(Str(uuids(0))), router, ComponentTable(Base, router, options.components), options.factory, uuids)
  }

  /** The state of a new network on a bus whose registry is `registry` */
  function Initial(registry: Registry<Listener>): NetState {
    NetState([], None, false, [], registry, 1)
  }

  /** The table sends "default" to the base class and the router option to
      the Router class, unless user entries say otherwise */
  lemma DefaultTable(router: Js)
    ensures Get(ComponentTable(Base, router, []), String(router)) == Some(Router)
    ensures String(router) != "default" ==> Get(ComponentTable(Base, router, []), "default") == Some(Base)
    ensures Keys(ComponentTable(Base, router, [])) == if String(router) == "default" then ["default"] else ["default", String(router)]
  {
    var base := [Entry("default", Base)];
    if String(router) != "default" {
      PutNew(base, String(router), Router);
    }
  }

  // ---------------------------------------------------------------------
  // Node bookkeeping
  // ---------------------------------------------------------------------

  /** `${this.id}.${node.id}`: the key a node's listener is registered on */
  function ListenerKey(cfg: Config, node: Js): string {
    String(cfg.id) + "." + String(node)
  }

  /** A listener key contains ".", so it is never one of the names Node's
      EventEmitter treats specially ("error", "newListener",
      "removeListener"), which the bus does not model as keys */
  lemma ListenerKeyOrdinary(cfg: Config, node: Js)
    ensures ListenerKey(cfg, node) != "error"
    ensures ListenerKey(cfg, node) != "newListener"
    ensures ListenerKey(cfg, node) != "removeListener"
  {
    var key := ListenerKey(cfg, node);
    var n := |String(cfg.id)|;
    assert key[n] == '.';
    assert forall i :: 0 <= i < |"error"| ==> "error"[i] != '.';
    assert forall i :: 0 <= i < |"newListener"| ==> "newListener"[i] != '.';
    assert forall i :: 0 <= i < |"removeListener"| ==> "removeListener"[i] != '.';
  }

  /** The context a node is given: it reads its own ports and writes to the
      router's */
  function ContextFor(cfg: Config, node: Js): ContextOptions {
    ContextOptions(NodeOptions(cfg.id, node, None), NodeOptions(cfg.id, cfg.router, None), None, None)
  }

  /** `addNode(node)` */
  function AddNodeSpec(cfg: Config, s: NetState, node: Component): NetState {
    s.(nodes := Put(s.nodes, Id(node), node),
       registry := AddListenerSpec(s.registry, ListenerKey(cfg, Id(node)), Listener(node, ContextFor(cfg, Id(node)))),
       log := s.log + if s.running then [Setup(Id(node))] else [])
  }

  /** `removeNode(node)`: whether the id was present, and the state after */
  function RemoveNodeSpec(cfg: Config, s: NetState, node: Component): Out<bool> {
    Out(Id(node) in Keys(s.nodes),
        s.(nodes := Delete(s.nodes, Id(node)),
           registry := RemoveListenerSpec(s.registry, ListenerKey(cfg, Id(node))),
           log := s.log + if s.running then [Teardown(Id(node))] else []))
  }

  /** A node id is in the map and has a listener */
  predicate Live(cfg: Config, s: NetState, k: Js) {
    k in Keys(s.nodes) && HasListeners(s.registry, ListenerKey(cfg, k))
  }

  /** After `addNode` the node is stored under its id and listened to by
      exactly one new loop, every earlier loop on its key is cancelled, other
      ids and keys are untouched, and `setup` ran iff the network runs */
  lemma AddNodeEffect(cfg: Config, s: NetState, node: Component)
    requires Valid(s.registry)
    ensures var t := AddNodeSpec(cfg, s, node);
      && Valid(t.registry)
      && Get(t.nodes, Id(node)) == Some(node)
      && (forall k :: k != Id(node) ==> Get(t.nodes, k) == Get(s.nodes, k))
      && Live(cfg, t, Id(node))
      && Hooks(t.registry, ListenerKey(cfg, Id(node))) == [|s.registry.loops|]
      && (forall n :: 0 <= n < |s.registry.loops| && s.registry.loops[n].key == ListenerKey(cfg, Id(node)) ==> t.registry.loops[n].remove)
      && (forall k :: k != ListenerKey(cfg, Id(node)) ==> Hooks(t.registry, k) == Hooks(s.registry, k))
      && (forall k :: Live(cfg, s, k) ==> Live(cfg, t, k))
      && t.running == s.running && t.graph == s.graph && t.minted == s.minted
      && (t.log == s.log + [Setup(Id(node))] <==> s.running)
      && (!s.running ==> t.log == s.log)
  {
    var key := ListenerKey(cfg, Id(node));
    AddListenerReplaces(s.registry, key, Listener(node, ContextFor(cfg, Id(node))));
    var t := AddNodeSpec(cfg, s, node);
    forall k | Live(cfg, s, k)
      ensures Live(cfg, t, k)
    {
      assert Get(s.nodes, k).Some?;
      if ListenerKey(cfg, k) != key {
        assert Hooks(t.registry, ListenerKey(cfg, k)) == Hooks(s.registry, ListenerKey(cfg, k));
      }
    }
    if t.log == s.log + [Setup(Id(node))] {
      assert |t.log| > |s.log|;
    }
  }

  /** `removeNode` reports whether the id was present, and afterwards the
      id is gone, nothing listens on its key, its loops are cancelled, other
      ids and keys are untouched, and `teardown` ran iff the network runs */
  lemma RemoveNodeEffect(cfg: Config, s: NetState, node: Component)
    requires Valid(s.registry)
    ensures var o := RemoveNodeSpec(cfg, s, node);
      && (o.value <==> Get(s.nodes, Id(node)).Some?)
      && Valid(o.after.registry)
      && Get(o.after.nodes, Id(node)) == None
      && (forall k :: k != Id(node) ==> Get(o.after.nodes, k) == Get(s.nodes, k))
      && !HasListeners(o.after.registry, ListenerKey(cfg, Id(node)))
      && (forall n :: 0 <= n < |s.registry.loops| && s.registry.loops[n].key == ListenerKey(cfg, Id(node)) ==> o.after.registry.loops[n].remove)
      && (forall k :: k != ListenerKey(cfg, Id(node)) ==> Hooks(o.after.registry, k) == Hooks(s.registry, k))
      && o.after.running == s.running && o.after.graph == s.graph && o.after.minted == s.minted
      && (o.after.log == s.log + [Teardown(Id(node))] <==> s.running)
      && (!s.running ==> o.after.log == s.log)
  {
    RemoveListenerCancels(s.registry, ListenerKey(cfg, Id(node)));
    var o := RemoveNodeSpec(cfg, s, node);
    if o.after.log == s.log + [Teardown(Id(node))] {
      assert |o.after.log| > |s.log|;
    }
  }

  /** Removing a node that was just added, under an id that was free,
      restores the node map and leaves nothing listening on its key */
  lemma AddThenRemove(cfg: Config, s: NetState, node: Component)
    requires Valid(s.registry) && Id(node) !in Keys(s.nodes)
    ensures var o := RemoveNodeSpec(cfg, AddNodeSpec(cfg, s, node), node);
      && o.value
      && o.after.nodes == s.nodes
      && !HasListeners(o.after.registry, ListenerKey(cfg, Id(node)))
      && Valid(o.after.registry)
  {
    AddNodeEffect(cfg, s, node);
    RemoveNodeEffect(cfg, AddNodeSpec(cfg, s, node), node);
    DeleteAfterPut(s.nodes, Id(node), node);
  }

  /** Removing and re-adding a node (an update) replaces its loop: it ends
      stored under its id with exactly one new hook on its key, and every
      earlier loop on the key is cancelled */
  lemma ReAdd(cfg: Config, s: NetState, node: Component)
    requires Valid(s.registry)
    ensures var t := AddNodeSpec(cfg, RemoveNodeSpec(cfg, s, node).after, node);
      && Valid(t.registry)
      && Get(t.nodes, Id(node)) == Some(node)
      && Hooks(t.registry, ListenerKey(cfg, Id(node))) == [|s.registry.loops|]
      && (forall n :: 0 <= n < |s.registry.loops| && s.registry.loops[n].key == ListenerKey(cfg, Id(node)) ==> t.registry.loops[n].remove)
      && t.log == s.log + (if s.running then [Teardown(Id(node)), Setup(Id(node))] else [])
  {
    var m := RemoveNodeSpec(cfg, s, node).after;
    RemoveNodeEffect(cfg, s, node);
    AddNodeEffect(cfg, m, node);
    assert |m.registry.loops| == |s.registry.loops|;
  }

  // ---------------------------------------------------------------------
  // Component selection
  // ---------------------------------------------------------------------

  /** The options `getComponent` builds: `{ type: "default", ...options }` */
  function Typed(options: seq<Entry<string, Js>>): seq<Entry<string, Js>> {
    Spread([Entry("type", Str("default"))], options)
  }

  /** `getComponent(options)`: a truthy factory result wins; otherwise the
      table's class for the type, the base class when there is none. Only a
      constructed component draws a uuid */
  function GetComponentSpec(cfg: Config, s: NetState, options: seq<Entry<string, Js>>, graph: Option<Graph>): Out<Component> {
    var opts := Typed(options);
    if FactoryWins(cfg, options, graph) then Out(cfg.factory.value(opts, graph).value, s)
    else
      var cls := Get(cfg.components, String(Get(opts, "type").GetOr(Undefined))).GetOr(Base);
      Out(NewComponent(cls, opts, graph, cfg.uuids(s.minted)), s.(minted := s.minted + 1))
  }

  lemma TypedDistinct(options: seq<Entry<string, Js>>)
    requires Distinct(options)
    ensures Distinct(Typed(options))
    ensures Get(Typed(options), "type").GetOr(Undefined) == TypeOf(options)
    ensures Get(Typed(options), "id") == Get(options, "id")
  {
    var base := [Entry("type", Str("default"))];
    assert Keys(base[1..]) == [];
    GetSpread(base, options, "type");
    GetSpread(base, options, "id");
  }

  /** The `type` option, "default" when absent */
  function TypeOf(options: seq<Entry<string, Js>>): Js {
    if "type" in Keys(options) then Get(options, "type").value else Str("default")
  }

  /** Whether the factory is set and its result is truthy */
  predicate FactoryWins(cfg: Config, options: seq<Entry<string, Js>>, graph: Option<Graph>) {
    cfg.factory.Some? && cfg.factory.value(Typed(options), graph).Some?
  }

  /** Selection: a truthy factory result is taken as is and draws no uuid;
      otherwise a new component of the table's class for `type` (which
      defaults to "default"), falling back to the base class, with the
      given id or the next uuid */
  lemma TableSelected(cfg: Config, s: NetState, options: seq<Entry<string, Js>>, graph: Option<Graph>)
    requires Distinct(options)
    ensures FactoryWins(cfg, options, graph) ==>
      GetComponentSpec(cfg, s, options, graph) == Out(cfg.factory.value(Typed(options), graph).value, s)
    ensures !FactoryWins(cfg, options, graph) ==>
      var o := GetComponentSpec(cfg, s, options, graph);
      && o.after == s.(minted := s.minted + 1)
      && o.value.cls == Get(cfg.components, String(TypeOf(options))).GetOr(Base)
      && o.value.graph == graph
      && Id(o.value) == Get(options, "id").GetOr(Str(cfg.uuids(s.minted)))
  {
    if !FactoryWins(cfg, options, graph) {
      TypedDistinct(options);
      var opts := Typed(options);
      var cls := Get(cfg.components, String(TypeOf(options))).GetOr(Base);
      NewComponentId(cls, opts, graph, cfg.uuids(s.minted));
    }
  }

  /** `{ type: router, id: router }`, the options the router is built from */
  function RouterOptions(cfg: Config): seq<Entry<string, Js>> {
    [Entry("type", cfg.router), Entry("id", cfg.router)]
  }

  /** Without a factory and with the default table, the router option
      selects a Router whose id is the router option and whose from-port is
      "from" */
  lemma RouterSelected(cfg: Config, s: NetState, g: Graph)
    requires cfg.factory.None? && cfg.components == ComponentTable(Base, cfg.router, [])
    ensures var r := GetComponentSpec(cfg, s, RouterOptions(cfg), Some(g)).value;
      r.cls == Router && Id(r) == cfg.router && FromKeyOption(r) == Str("from") && r.graph == Some(g)
  {
    var opts := RouterOptions(cfg);
    RouterOptionsFacts(cfg);
    DefaultTable(cfg.router);
    TableSelected(cfg, s, opts, Some(g));
    TypedDistinct(opts);
    NewRouterFromKey(Typed(opts), Some(g), cfg.uuids(s.minted));
    GetSpread([Entry("type", Str("default"))], opts, "fromKey");
  }

  lemma RouterOptionsFacts(cfg: Config)
    ensures Distinct(RouterOptions(cfg))
    ensures TypeOf(RouterOptions(cfg)) == cfg.router
    ensures Get(RouterOptions(cfg), "id") == Some(cfg.router)
    ensures "fromKey" !in Keys(RouterOptions(cfg))
  {
    var opts := RouterOptions(cfg);
    assert Keys(opts) == ["type", "id"];
    assert Keys(opts[1..]) == ["id"] && Keys(opts[1..][1..]) == [];
  }

  // ---------------------------------------------------------------------
  // Loading
  // ---------------------------------------------------------------------

  /** `nodes.forEach(n => this.addNode(this.getComponent(n)))` */
  function AddEach(cfg: Config, s: NetState, ns: seq<Js>): NetState
    decreases |ns|
  {
    if ns == [] then s
    else
      var c := GetComponentSpec(cfg, s, OwnEntries(ns[0]), None);
      AddEach(cfg, AddNodeSpec(cfg, c.after, c.value), ns[1..])
  }

  /** `this.addNode(router)` for a newly selected router */
  function AddRouter(cfg: Config, s: NetState, g: Graph): NetState {
    var r := GetComponentSpec(cfg, s, RouterOptions(cfg), Some(g));
    AddNodeSpec(cfg, r.after, r.value)
  }

  /** `loadFromGraph(graph)`: the graph is stored first; `graph.nodes`
      throws when the graph has no processes */
  function LoadFromGraphSpec(cfg: Config, s: NetState, g: Graph): Out<Result<()>> {
    var s1 := s.(graph := Some(g));
    match Nodes(g.options)
    case Err(e) => Out(Err(e), s1)
    case Ok(ns) =>
      var s2 := AddEach(cfg, s1, ns);
      Out(Ok(()), if Truthy(cfg.router) then AddRouter(cfg, s2, g) else s2)
  }

  /** An object with distinct own keys, one of them `id` */
  predicate Identified(n: Js) {
    n.Obj? && Distinct(n.props) && "id" in Keys(n.props)
  }

  /** Without a factory, an identified node is added under its own id */
  lemma SelectedId(cfg: Config, s: NetState, n: Js, graph: Option<Graph>)
    requires cfg.factory.None? && Identified(n)
    ensures Id(GetComponentSpec(cfg, s, OwnEntries(n), graph).value) == GetProp(n, "id")
  {
    assert OwnEntries(n) == n.props;
    assert !FactoryWins(cfg, n.props, graph);
    TableSelected(cfg, s, n.props, graph);
    assert Get(n.props, "id").Some?;
  }

  /** Adding nodes one by one keeps every live id live, and (without a
      factory) leaves every identified node live under its own id */
  lemma {:induction false} AddEachLive(cfg: Config, s: NetState, ns: seq<Js>)
    requires Valid(s.registry)
    ensures var t := AddEach(cfg, s, ns);
      && Valid(t.registry)
      && t.graph == s.graph && t.running == s.running
      && (forall k :: Live(cfg, s, k) ==> Live(cfg, t, k))
      && (cfg.factory.None? ==> forall i :: 0 <= i < |ns| && Identified(ns[i]) ==> Live(cfg, t, GetProp(ns[i], "id")))
    decreases |ns|
  {
    if ns != [] {
      var c := GetComponentSpec(cfg, s, OwnEntries(ns[0]), None);
      var s1 := AddNodeSpec(cfg, c.after, c.value);
      AddNodeEffect(cfg, c.after, c.value);
      assert forall k :: Live(cfg, s, k) ==> Live(cfg, c.after, k);
      AddEachLive(cfg, s1, ns[1..]);
      if cfg.factory.None? {
        forall i | 0 <= i < |ns| && Identified(ns[i])
          ensures Live(cfg, AddEach(cfg, s, ns), GetProp(ns[i], "id"))
        {
          if i == 0 {
            SelectedId(cfg, s, ns[0], None);
          } else {
            assert ns[1..][i - 1] == ns[i];
          }
        }
      }
    }
  }

  /** After `loadFromGraph` the graph is stored, the call fails exactly when
      there are no processes, and, when the router option is truthy, the
      router is live. Without a factory, every graph node whose attributes
      have distinct keys is also live under its id, and with a falsy router
      option no other id is added */
  lemma LoadFromGraphLive(cfg: Config, s: NetState, g: Graph)
    requires Valid(s.registry)
    requires forall e :: e in OwnEntries(g.options.processes) ==> Distinct(OwnEntries(e.value))
    ensures var o := LoadFromGraphSpec(cfg, s, g);
      && o.after.graph == Some(g)
      && Valid(o.after.registry)
      && (o.value.Err? <==> g.options.processes.Undefined? || g.options.processes.Null?)
      && (o.value.Ok? && Truthy(cfg.router) ==> Live(cfg, o.after, Id(GetComponentSpec(cfg, AddEach(cfg, s.(graph := Some(g)), Nodes(g.options).value), RouterOptions(cfg), Some(g)).value)))
      && (o.value.Ok? && cfg.factory.None? ==>
            forall i :: 0 <= i < |Nodes(g.options).value| ==> Live(cfg, o.after, GetProp(Nodes(g.options).value[i], "id")))
      && (o.value.Ok? && cfg.factory.None? && !Truthy(cfg.router) ==>
            forall k :: k in Keys(o.after.nodes) ==> k in Keys(s.nodes) || CarriesId(Nodes(g.options).value, k))
  {
    GraphNodesIdentified(g.options);
    var s1 := s.(graph := Some(g));
    if Nodes(g.options).Ok? {
      var ns := Nodes(g.options).value;
      AddEachLive(cfg, s1, ns);
      if Truthy(cfg.router) {
        AddRouterLive(cfg, AddEach(cfg, s1, ns), g);
      } else if cfg.factory.None? {
        AddEachKeys(cfg, s1, ns);
      }
    }
  }

  /** Adding the nodes of a list adds no id other than theirs */
  lemma AddEachKeys(cfg: Config, s: NetState, ns: seq<Js>)
    requires cfg.factory.None? && AllIdentified(ns)
    ensures forall k :: k in Keys(AddEach(cfg, s, ns).nodes) ==> k in Keys(s.nodes) || CarriesId(ns, k)
  {
    forall k | k in Keys(AddEach(cfg, s, ns).nodes) && !CarriesId(ns, k)
      ensures k in Keys(s.nodes)
    {
      AddEachNodes(cfg, s, ns, k);
    }
  }

  /** Graph nodes are objects with distinct keys and an `id` when the
      process attributes have distinct keys */
  lemma GraphNodesIdentified(o: GraphOptions)
    requires forall e :: e in OwnEntries(o.processes) ==> Distinct(OwnEntries(e.value))
    ensures Nodes(o).Ok? ==> forall i :: 0 <= i < |Nodes(o).value| ==> Identified(Nodes(o).value[i])
  {
    NodesPerProcess(o);
    if Nodes(o).Ok? {
      var ns := Nodes(o).value;
      var ps := OwnEntries(o.processes);
      forall i | 0 <= i < |ns|
        ensures Identified(ns[i])
      {
        assert ps[i] in ps;
        NodeId(ps[i].key, ps[i].value);
        GetSpread([Entry("id", Str(ps[i].key))], OwnEntries(ps[i].value), "id");
      }
    }
  }

  /** Adding the router keeps live ids live and makes the router live */
  lemma AddRouterLive(cfg: Config, s: NetState, g: Graph)
    requires Valid(s.registry)
    ensures var t := AddRouter(cfg, s, g);
      && Valid(t.registry)
      && (forall k :: Live(cfg, s, k) ==> Live(cfg, t, k))
      && Live(cfg, t, Id(GetComponentSpec(cfg, s, RouterOptions(cfg), Some(g)).value))
  {
    var r := GetComponentSpec(cfg, s, RouterOptions(cfg), Some(g));
    AddNodeEffect(cfg, r.after, r.value);
    assert forall k :: Live(cfg, s, k) ==> Live(cfg, r.after, k);
  }

  /** `loadNodes(nodes)` */
  function LoadNodesSpec(cfg: Config, s: NetState, cs: seq<Component>): NetState
    decreases |cs|
  {
    if cs == [] then s else LoadNodesSpec(cfg, AddNodeSpec(cfg, s, cs[0]), cs[1..])
  }

  /** After `loadNodes` every given node is live under its id */
  lemma {:induction false} LoadNodesLive(cfg: Config, s: NetState, cs: seq<Component>)
    requires Valid(s.registry)
    ensures var t := LoadNodesSpec(cfg, s, cs);
      && Valid(t.registry)
      && (forall k :: Live(cfg, s, k) ==> Live(cfg, t, k))
      && (forall i :: 0 <= i < |cs| ==> Live(cfg, t, Id(cs[i])))
    decreases |cs|
  {
    if cs != [] {
      var s' := AddNodeSpec(cfg, s, cs[0]);
      var t := LoadNodesSpec(cfg, s', cs[1..]);
      assert LoadNodesSpec(cfg, s, cs) == t;
      AddNodeEffect(cfg, s, cs[0]);
      LoadNodesLive(cfg, s', cs[1..]);
      forall i | 1 <= i < |cs|
        ensures Live(cfg, t, Id(cs[i]))
      {
        assert cs[1..][i - 1] == cs[i];
      }
    }
  }

  // ---------------------------------------------------------------------
  // Hot reload
  // ---------------------------------------------------------------------

  /** `nodes.removed.forEach(n => this.removeNode(this.getComponent(n)))` */
  function RemoveEach(cfg: Config, s: NetState, ns: seq<Js>): NetState
    decreases |ns|
  {
    if ns == [] then s
    else
      var c := GetComponentSpec(cfg, s, OwnEntries(ns[0]), None);
      RemoveEach(cfg, RemoveNodeSpec(cfg, c.after, c.value).after, ns[1..])
  }

  /** `nodes.updated.forEach(...)`: remove, then add, the same component */
  function UpdateEach(cfg: Config, s: NetState, ns: seq<Js>): NetState
    decreases |ns|
  {
    if ns == [] then s
    else
      var c := GetComponentSpec(cfg, s, OwnEntries(ns[0]), None);
      UpdateEach(cfg, AddNodeSpec(cfg, RemoveNodeSpec(cfg, c.after, c.value).after, c.value), ns[1..])
  }

  /** `updateFromGraph(graph)`: the router built for the new graph is
      removed first, then the removed, updated and added nodes in turn, then
      the router is added, and only then is the graph stored */
  function UpdateFromGraphSpec(cfg: Config, s: NetState, g: Graph, p: Patch): NetState {
    var r := GetComponentSpec(cfg, s, RouterOptions(cfg), Some(g));
    var s1 := RemoveNodeSpec(cfg, r.after, r.value).after;
    var s2 := RemoveEach(cfg, s1, p.removed);
    var s3 := UpdateEach(cfg, s2, p.updated);
    var s4 := AddEach(cfg, s3, p.added);
    AddNodeSpec(cfg, s4, r.value).(graph := Some(g))
  }

  lemma {:induction false} RemoveEachValid(cfg: Config, s: NetState, ns: seq<Js>)
    requires Valid(s.registry)
    ensures Valid(RemoveEach(cfg, s, ns).registry)
    decreases |ns|
  {
    if ns != [] {
      var c := GetComponentSpec(cfg, s, OwnEntries(ns[0]), None);
      RemoveNodeEffect(cfg, c.after, c.value);
      RemoveEachValid(cfg, RemoveNodeSpec(cfg, c.after, c.value).after, ns[1..]);
    }
  }

  lemma {:induction false} UpdateEachValid(cfg: Config, s: NetState, ns: seq<Js>)
    requires Valid(s.registry)
    ensures Valid(UpdateEach(cfg, s, ns).registry)
    decreases |ns|
  {
    if ns != [] {
      var c := GetComponentSpec(cfg, s, OwnEntries(ns[0]), None);
      ReAdd(cfg, c.after, c.value);
      UpdateEachValid(cfg, AddNodeSpec(cfg, RemoveNodeSpec(cfg, c.after, c.value).after, c.value), ns[1..]);
    }
  }

  /** After `updateFromGraph` the new graph is stored, the router built for
      it is stored under its id with exactly one hook, on the newest loop,
      and (without a factory) every identified added node is live */
  lemma UpdateFromGraphEffect(cfg: Config, s: NetState, g: Graph, p: Patch)
    requires Valid(s.registry)
    ensures var t := UpdateFromGraphSpec(cfg, s, g, p);
      var r := GetComponentSpec(cfg, s, RouterOptions(cfg), Some(g)).value;
      && t.graph == Some(g)
      && Valid(t.registry)
      && Get(t.nodes, Id(r)) == Some(r)
      && Hooks(t.registry, ListenerKey(cfg, Id(r))) == [|t.registry.loops| - 1]
      && t.registry.loops[|t.registry.loops| - 1] == Loop(ListenerKey(cfg, Id(r)), Listener(r, ContextFor(cfg, Id(r))), false)
      && (cfg.factory.None? ==> forall i :: 0 <= i < |p.added| && Identified(p.added[i]) ==> Live(cfg, t, GetProp(p.added[i], "id")))
  {
    var ro := GetComponentSpec(cfg, s, RouterOptions(cfg), Some(g));
    var s1 := RemoveNodeSpec(cfg, ro.after, ro.value).after;
    var s4 := AddEach(cfg, UpdateEach(cfg, RemoveEach(cfg, s1, p.removed), p.updated), p.added);
    assert UpdateFromGraphSpec(cfg, s, g, p) == AddNodeSpec(cfg, s4, ro.value).(graph := Some(g));
    RemoveNodeEffect(cfg, ro.after, ro.value);
    UpdateNodesLive(cfg, s1, p);
    AddRouterLast(cfg, s4, ro.value, g);
  }

  /** The node phase of `updateFromGraph` keeps the registry consistent and
      (without a factory) leaves every identified added node live */
  lemma UpdateNodesLive(cfg: Config, s1: NetState, p: Patch)
    requires Valid(s1.registry)
    ensures var s4 := AddEach(cfg, UpdateEach(cfg, RemoveEach(cfg, s1, p.removed), p.updated), p.added);
      && Valid(s4.registry)
      && (cfg.factory.None? ==> forall i :: 0 <= i < |p.added| && Identified(p.added[i]) ==> Live(cfg, s4, GetProp(p.added[i], "id")))
  {
    RemoveEachValid(cfg, s1, p.removed);
    var s2 := RemoveEach(cfg, s1, p.removed);
    UpdateEachValid(cfg, s2, p.updated);
    AddEachLive(cfg, UpdateEach(cfg, s2, p.updated), p.added);
  }

  /** Adding the router last stores it with one hook on the newest loop and
      keeps every live node live */
  lemma AddRouterLast(cfg: Config, s4: NetState, r: Component, g: Graph)
    requires Valid(s4.registry)
    ensures var t := AddNodeSpec(cfg, s4, r).(graph := Some(g));
      && t.graph == Some(g)
      && Valid(t.registry)
      && Get(t.nodes, Id(r)) == Some(r)
      && Hooks(t.registry, ListenerKey(cfg, Id(r))) == [|t.registry.loops| - 1]
      && t.registry.loops[|t.registry.loops| - 1] == Loop(ListenerKey(cfg, Id(r)), Listener(r, ContextFor(cfg, Id(r))), false)
      && (forall k :: Live(cfg, s4, k) ==> Live(cfg, t, k))
  {
    AddNodeEffect(cfg, s4, r);
    var t := AddNodeSpec(cfg, s4, r);
    assert |t.registry.loops| == |s4.registry.loops| + 1;
    forall k | Live(cfg, s4, k)
      ensures Live(cfg, t.(graph := Some(g)), k)
    {
      assert Live(cfg, t, k);
    }
  }

  // ---------------------------------------------------------------------
  // Hot reload: the removed, updated and added nodes
  // ---------------------------------------------------------------------

  /** Every node of a patch list is an object with distinct keys and an id */
  predicate AllIdentified(ns: seq<Js>) {
    forall i :: 0 <= i < |ns| ==> Identified(ns[i])
  }

  /** Some node of the list has the id `k` */
  predicate CarriesId(ns: seq<Js>, k: Js) {
    exists i :: 0 <= i < |ns| && GetProp(ns[i], "id") == k
  }

  /** The id is live with exactly one hook, on a loop numbered `n0` or later */
  predicate LiveSince(cfg: Config, s: NetState, k: Js, n0: nat) {
    && Live(cfg, s, k)
    && |Hooks(s.registry, ListenerKey(cfg, k))| == 1
    && Hooks(s.registry, ListenerKey(cfg, k))[0] >= n0
  }

  lemma IdentifiedTail(ns: seq<Js>)
    requires ns != [] && AllIdentified(ns)
    ensures Identified(ns[0]) && AllIdentified(ns[1..])
  {
    forall i | 0 <= i < |ns| - 1
      ensures Identified(ns[1..][i])
    {
      assert ns[1..][i] == ns[i + 1];
    }
  }

  lemma CarriesTail(ns: seq<Js>, k: Js)
    requires ns != []
    ensures CarriesId(ns, k) <==> GetProp(ns[0], "id") == k || CarriesId(ns[1..], k)
  {
    if CarriesId(ns, k) {
      var i :| 0 <= i < |ns| && GetProp(ns[i], "id") == k;
      if i > 0 {
        assert ns[1..][i - 1] == ns[i];
      }
    }
    if CarriesId(ns[1..], k) {
      var i :| 0 <= i < |ns[1..]| && GetProp(ns[1..][i], "id") == k;
      assert ns[i + 1] == ns[1..][i];
    }
  }

  lemma CarriesPrefix(ns: seq<Js>, j: int, k: Js)
    requires 0 <= j <= |ns| && CarriesId(ns[..j], k)
    ensures CarriesId(ns, k)
  {
    var i :| 0 <= i < j && GetProp(ns[..j][i], "id") == k;
    assert ns[i] == ns[..j][i];
  }

  /** Without a factory, selecting a component for an identified node keeps
      the nodes, the registry and the flag, and gives the node's own id */
  lemma Selected(cfg: Config, s: NetState, n: Js)
    requires cfg.factory.None? && Identified(n)
    ensures var c := GetComponentSpec(cfg, s, OwnEntries(n), None);
      && Id(c.value) == GetProp(n, "id")
      && c.after.nodes == s.nodes && c.after.registry == s.registry && c.after.running == s.running
  {
    SelectedId(cfg, s, n, None);
  }

  /** Removing the nodes of a list deletes exactly their ids */
  lemma {:induction false} RemoveEachNodes(cfg: Config, s: NetState, ns: seq<Js>, k: Js)
    requires cfg.factory.None? && AllIdentified(ns)
    ensures CarriesId(ns, k) ==> Get(RemoveEach(cfg, s, ns).nodes, k) == None
    ensures !CarriesId(ns, k) ==> Get(RemoveEach(cfg, s, ns).nodes, k) == Get(s.nodes, k)
    decreases |ns|
  {
    if ns != [] {
      IdentifiedTail(ns);
      var c := GetComponentSpec(cfg, s, OwnEntries(ns[0]), None);
      var m := RemoveNodeSpec(cfg, c.after, c.value).after;
      assert RemoveEach(cfg, s, ns) == RemoveEach(cfg, m, ns[1..]);
      Selected(cfg, s, ns[0]);
      CarriesTail(ns, k);
      RemoveEachNodes(cfg, m, ns[1..], k);
    }
  }

  /** Removing the nodes of a list leaves no listener on their keys and adds
      none anywhere */
  lemma {:induction false} RemoveEachUnhooks(cfg: Config, s: NetState, ns: seq<Js>, k: Js)
    requires Valid(s.registry) && cfg.factory.None? && AllIdentified(ns)
    ensures CarriesId(ns, k) ==> !HasListeners(RemoveEach(cfg, s, ns).registry, ListenerKey(cfg, k))
    ensures !HasListeners(s.registry, ListenerKey(cfg, k)) ==> !HasListeners(RemoveEach(cfg, s, ns).registry, ListenerKey(cfg, k))
    decreases |ns|
  {
    if ns != [] {
      IdentifiedTail(ns);
      var c := GetComponentSpec(cfg, s, OwnEntries(ns[0]), None);
      var m := RemoveNodeSpec(cfg, c.after, c.value).after;
      assert RemoveEach(cfg, s, ns) == RemoveEach(cfg, m, ns[1..]);
      Selected(cfg, s, ns[0]);
      RemoveNodeEffect(cfg, c.after, c.value);
      CarriesTail(ns, k);
      RemoveEachUnhooks(cfg, m, ns[1..], k);
    }
  }

  /** Adding a node keeps an id live with one hook since `n0` */
  lemma AddKeepsLiveSince(cfg: Config, s: NetState, node: Component, k: Js, n0: nat)
    requires Valid(s.registry) && LiveSince(cfg, s, k, n0)
    ensures LiveSince(cfg, AddNodeSpec(cfg, s, node), k, n0)
  {
    var key := ListenerKey(cfg, k);
    HookedKey(s.registry, key, Hooks(s.registry, key)[0]);
    AddNodeEffect(cfg, s, node);
    assert Get(s.nodes, k).Some?;
  }

  /** Removing and re-adding a node makes its id live with one hook on the
      newest loop, and keeps any other id live with one hook since `n0` */
  lemma ReAddLiveSince(cfg: Config, s: NetState, node: Component, k: Js, n0: nat)
    requires Valid(s.registry)
    ensures var t := AddNodeSpec(cfg, RemoveNodeSpec(cfg, s, node).after, node);
      && Valid(t.registry)
      && |t.registry.loops| == |s.registry.loops| + 1
      && LiveSince(cfg, t, Id(node), |s.registry.loops|)
      && (LiveSince(cfg, s, k, n0) ==> LiveSince(cfg, t, k, n0))
  {
    var m := RemoveNodeSpec(cfg, s, node).after;
    RemoveListenerCancels(s.registry, ListenerKey(cfg, Id(node)));
    RemoveNodeEffect(cfg, s, node);
    AddNodeEffect(cfg, m, node);
    if LiveSince(cfg, s, k, n0) {
      var key := ListenerKey(cfg, k);
      HookedKey(s.registry, key, Hooks(s.registry, key)[0]);
      assert Get(s.nodes, k).Some?;
      if k != Id(node) {
        assert Get(m.nodes, k).Some?;
      }
    }
  }

  /** Re-adding the nodes of a list leaves each of their ids live with
      exactly one hook, on a loop started by this phase; other ids keep
      their entries, and ids live with one hook stay so */
  lemma UpdateEachLive(cfg: Config, s: NetState, ns: seq<Js>, k: Js, n0: nat)
    requires Valid(s.registry) && cfg.factory.None? && AllIdentified(ns)
    ensures var t := UpdateEach(cfg, s, ns);
      && Valid(t.registry)
      && |t.registry.loops| >= |s.registry.loops|
      && (CarriesId(ns, k) ==> LiveSince(cfg, t, k, |s.registry.loops|))
      && (!CarriesId(ns, k) ==> Get(t.nodes, k) == Get(s.nodes, k))
      && (LiveSince(cfg, s, k, n0) ==> LiveSince(cfg, t, k, n0))
  {
    UpdateEachKeeps(cfg, s, ns, k, n0);
    if CarriesId(ns, k) {
      UpdateEachMakesLive(cfg, s, ns, k);
    } else {
      UpdateEachNodes(cfg, s, ns, k);
    }
  }

  /** Re-adding nodes keeps the registry consistent, starts loops and keeps
      an id live with one hook since `n0` */
  lemma {:induction false} UpdateEachKeeps(cfg: Config, s: NetState, ns: seq<Js>, k: Js, n0: nat)
    requires Valid(s.registry)
    ensures var t := UpdateEach(cfg, s, ns);
      && Valid(t.registry)
      && |t.registry.loops| >= |s.registry.loops|
      && (LiveSince(cfg, s, k, n0) ==> LiveSince(cfg, t, k, n0))
    decreases |ns|
  {
    if ns != [] {
      var c := GetComponentSpec(cfg, s, OwnEntries(ns[0]), None);
      var m := AddNodeSpec(cfg, RemoveNodeSpec(cfg, c.after, c.value).after, c.value);
      assert UpdateEach(cfg, s, ns) == UpdateEach(cfg, m, ns[1..]);
      UpdateOneKeeps(cfg, s, ns[0], k, n0);
      UpdateEachKeeps(cfg, m, ns[1..], k, n0);
    }
  }

  /** One re-add as `UpdateEachKeeps` needs it */
  lemma UpdateOneKeeps(cfg: Config, s: NetState, n: Js, k: Js, n0: nat)
    requires Valid(s.registry)
    ensures var c := GetComponentSpec(cfg, s, OwnEntries(n), None);
      var m := AddNodeSpec(cfg, RemoveNodeSpec(cfg, c.after, c.value).after, c.value);
      && Valid(m.registry)
      && |m.registry.loops| >= |s.registry.loops|
      && (LiveSince(cfg, s, k, n0) ==> LiveSince(cfg, m, k, n0))
  {
    var c := GetComponentSpec(cfg, s, OwnEntries(n), None);
    assert c.after.nodes == s.nodes && c.after.registry == s.registry;
    ReAddLiveSince(cfg, c.after, c.value, k, n0);
  }

  /** Re-adding nodes leaves each of their ids live with one hook on a loop
      started by the phase */
  lemma {:induction false} UpdateEachMakesLive(cfg: Config, s: NetState, ns: seq<Js>, k: Js)
    requires Valid(s.registry) && cfg.factory.None? && AllIdentified(ns) && CarriesId(ns, k)
    ensures LiveSince(cfg, UpdateEach(cfg, s, ns), k, |s.registry.loops|)
    decreases |ns|
  {
    IdentifiedTail(ns);
    CarriesTail(ns, k);
    var c := GetComponentSpec(cfg, s, OwnEntries(ns[0]), None);
    var m := AddNodeSpec(cfg, RemoveNodeSpec(cfg, c.after, c.value).after, c.value);
    assert UpdateEach(cfg, s, ns) == UpdateEach(cfg, m, ns[1..]);
    Selected(cfg, s, ns[0]);
    ReAddLiveSince(cfg, c.after, c.value, k, 0);
    if GetProp(ns[0], "id") == k {
      UpdateEachKeeps(cfg, m, ns[1..], k, |s.registry.loops|);
    } else {
      UpdateEachMakesLive(cfg, m, ns[1..], k);
    }
  }

  /** Adding the nodes of a list keeps ids live with one hook */
  lemma {:induction false} AddEachKeepsLive(cfg: Config, s: NetState, ns: seq<Js>, k: Js, n0: nat)
    requires Valid(s.registry) && LiveSince(cfg, s, k, n0)
    ensures LiveSince(cfg, AddEach(cfg, s, ns), k, n0)
    decreases |ns|
  {
    if ns != [] {
      var c := GetComponentSpec(cfg, s, OwnEntries(ns[0]), None);
      var m := AddNodeSpec(cfg, c.after, c.value);
      assert AddEach(cfg, s, ns) == AddEach(cfg, m, ns[1..]);
      assert c.after.nodes == s.nodes && c.after.registry == s.registry;
      AddNodeEffect(cfg, c.after, c.value);
      AddKeepsLiveSince(cfg, c.after, c.value, k, n0);
      AddEachKeepsLive(cfg, m, ns[1..], k, n0);
    }
  }

  /** The hot-reload order: from the removal of the router to its final
      add, at no step of the removed, updated and added phases is the
      router's id in the node map, unless some patch node has that id */
  lemma HotReloadRouterAbsent(cfg: Config, s: NetState, g: Graph, p: Patch)
    requires cfg.factory.None? && AllIdentified(p.removed) && AllIdentified(p.updated) && AllIdentified(p.added)
    requires !CarriesId(p.removed, RouterId(cfg, s, g)) && !CarriesId(p.updated, RouterId(cfg, s, g))
    requires !CarriesId(p.added, RouterId(cfg, s, g))
    ensures var ro := GetComponentSpec(cfg, s, RouterOptions(cfg), Some(g));
      var s1 := RemoveNodeSpec(cfg, ro.after, ro.value).after;
      var s2 := RemoveEach(cfg, s1, p.removed);
      var s3 := UpdateEach(cfg, s2, p.updated);
      && Get(s1.nodes, Id(ro.value)) == None
      && (forall j :: 0 <= j <= |p.removed| ==> Get(RemoveEach(cfg, s1, p.removed[..j]).nodes, Id(ro.value)) == None)
      && (forall j :: 0 <= j <= |p.updated| ==> Get(UpdateEach(cfg, s2, p.updated[..j]).nodes, Id(ro.value)) == None)
      && (forall j :: 0 <= j <= |p.added| ==> Get(AddEach(cfg, s3, p.added[..j]).nodes, Id(ro.value)) == None)
  {
    var ro := GetComponentSpec(cfg, s, RouterOptions(cfg), Some(g));
    var rid := Id(ro.value);
    var s1 := RemoveNodeSpec(cfg, ro.after, ro.value).after;
    var s2 := RemoveEach(cfg, s1, p.removed);
    var s3 := UpdateEach(cfg, s2, p.updated);
    RemovePrefixesAbsent(cfg, s1, p.removed, rid);
    RemoveEachNodes(cfg, s1, p.removed, rid);
    UpdatePrefixesAbsent(cfg, s2, p.updated, rid);
    UpdateEachNodes(cfg, s2, p.updated, rid);
    AddPrefixesAbsent(cfg, s3, p.added, rid);
  }

  /** The id of the router `updateFromGraph` builds */
  function RouterId(cfg: Config, s: NetState, g: Graph): Js {
    Id(GetComponentSpec(cfg, s, RouterOptions(cfg), Some(g)).value)
  }

  lemma RemovePrefixesAbsent(cfg: Config, s: NetState, ns: seq<Js>, k: Js)
    requires cfg.factory.None? && AllIdentified(ns) && !CarriesId(ns, k) && Get(s.nodes, k) == None
    ensures forall j :: 0 <= j <= |ns| ==> Get(RemoveEach(cfg, s, ns[..j]).nodes, k) == None
  {
    forall j | 0 <= j <= |ns|
      ensures Get(RemoveEach(cfg, s, ns[..j]).nodes, k) == None
    {
      if CarriesId(ns[..j], k) {
        CarriesPrefix(ns, j, k);
      }
      RemoveEachNodes(cfg, s, ns[..j], k);
    }
  }

  lemma UpdatePrefixesAbsent(cfg: Config, s: NetState, ns: seq<Js>, k: Js)
    requires cfg.factory.None? && AllIdentified(ns) && !CarriesId(ns, k) && Get(s.nodes, k) == None
    ensures forall j :: 0 <= j <= |ns| ==> Get(UpdateEach(cfg, s, ns[..j]).nodes, k) == None
  {
    forall j | 0 <= j <= |ns|
      ensures Get(UpdateEach(cfg, s, ns[..j]).nodes, k) == None
    {
      if CarriesId(ns[..j], k) {
        CarriesPrefix(ns, j, k);
      }
      UpdateEachNodes(cfg, s, ns[..j], k);
    }
  }

  lemma AddPrefixesAbsent(cfg: Config, s: NetState, ns: seq<Js>, k: Js)
    requires cfg.factory.None? && AllIdentified(ns) && !CarriesId(ns, k) && Get(s.nodes, k) == None
    ensures forall j :: 0 <= j <= |ns| ==> Get(AddEach(cfg, s, ns[..j]).nodes, k) == None
  {
    forall j | 0 <= j <= |ns|
      ensures Get(AddEach(cfg, s, ns[..j]).nodes, k) == None
    {
      if CarriesId(ns[..j], k) {
        CarriesPrefix(ns, j, k);
      }
      AddEachNodes(cfg, s, ns[..j], k);
    }
  }

  /** Re-adding the nodes of a list changes no other id's entry */
  lemma {:induction false} UpdateEachNodes(cfg: Config, s: NetState, ns: seq<Js>, k: Js)
    requires cfg.factory.None? && AllIdentified(ns) && !CarriesId(ns, k)
    ensures Get(UpdateEach(cfg, s, ns).nodes, k) == Get(s.nodes, k)
    decreases |ns|
  {
    if ns != [] {
      IdentifiedTail(ns);
      var c := GetComponentSpec(cfg, s, OwnEntries(ns[0]), None);
      var m := AddNodeSpec(cfg, RemoveNodeSpec(cfg, c.after, c.value).after, c.value);
      assert UpdateEach(cfg, s, ns) == UpdateEach(cfg, m, ns[1..]);
      CarriesTail(ns, k);
      UpdateOneOther(cfg, s, ns[0], k);
      UpdateEachNodes(cfg, m, ns[1..], k);
    }
  }

  /** Adding one identified node leaves another id's entry alone */
  lemma AddOneOther(cfg: Config, s: NetState, n: Js, k: Js)
    requires cfg.factory.None? && Identified(n) && GetProp(n, "id") != k
    ensures var c := GetComponentSpec(cfg, s, OwnEntries(n), None);
      Get(AddNodeSpec(cfg, c.after, c.value).nodes, k) == Get(s.nodes, k)
  {
    Selected(cfg, s, n);
  }

  /** Re-adding one identified node leaves another id's entry alone */
  lemma UpdateOneOther(cfg: Config, s: NetState, n: Js, k: Js)
    requires cfg.factory.None? && Identified(n) && GetProp(n, "id") != k
    ensures var c := GetComponentSpec(cfg, s, OwnEntries(n), None);
      Get(AddNodeSpec(cfg, RemoveNodeSpec(cfg, c.after, c.value).after, c.value).nodes, k) == Get(s.nodes, k)
  {
    Selected(cfg, s, n);
  }

  /** Adding the nodes of a list changes no other id's entry */
  lemma {:induction false} AddEachNodes(cfg: Config, s: NetState, ns: seq<Js>, k: Js)
    requires cfg.factory.None? && AllIdentified(ns) && !CarriesId(ns, k)
    ensures Get(AddEach(cfg, s, ns).nodes, k) == Get(s.nodes, k)
    decreases |ns|
  {
    if ns != [] {
      CarriesTail(ns, k);
      IdentifiedTail(ns);
      var c := GetComponentSpec(cfg, s, OwnEntries(ns[0]), None);
      var m := AddNodeSpec(cfg, c.after, c.value);
      assert AddEach(cfg, s, ns) == AddEach(cfg, m, ns[1..]);
      AddOneOther(cfg, s, ns[0], k);
      AddEachNodes(cfg, m, ns[1..], k);
    }
  }

  /** The node phase of `updateFromGraph`: a removed id no later node has
      is gone, an updated id is live with one hook since the phase began,
      and an id no patch node has keeps its entry */
  lemma NodePhase(cfg: Config, s1: NetState, p: Patch, k: Js)
    requires Valid(s1.registry)
    requires cfg.factory.None? && AllIdentified(p.removed) && AllIdentified(p.updated) && AllIdentified(p.added)
    ensures var s4 := AddEach(cfg, UpdateEach(cfg, RemoveEach(cfg, s1, p.removed), p.updated), p.added);
      && Valid(s4.registry)
      && (CarriesId(p.removed, k) && !CarriesId(p.updated, k) && !CarriesId(p.added, k) ==> Get(s4.nodes, k) == None)
      && (CarriesId(p.updated, k) ==> LiveSince(cfg, s4, k, |s1.registry.loops|))
      && (!CarriesId(p.removed, k) && !CarriesId(p.updated, k) && !CarriesId(p.added, k) ==> Get(s4.nodes, k) == Get(s1.nodes, k))
  {
    var s2 := RemoveEach(cfg, s1, p.removed);
    var s3 := UpdateEach(cfg, s2, p.updated);
    RemoveEachValid(cfg, s1, p.removed);
    RemoveEachLoops(cfg, s1, p.removed);
    RemoveEachNodes(cfg, s1, p.removed, k);
    UpdateEachLive(cfg, s2, p.updated, k, |s1.registry.loops|);
    AddEachLive(cfg, s3, p.added);
    if !CarriesId(p.added, k) {
      AddEachNodes(cfg, s3, p.added, k);
    }
    if CarriesId(p.updated, k) {
      AddEachKeepsLive(cfg, s3, p.added, k, |s1.registry.loops|);
    }
  }

  /** Removing nodes keeps the number of loops started so far */
  lemma {:induction false} RemoveEachLoops(cfg: Config, s: NetState, ns: seq<Js>)
    ensures |RemoveEach(cfg, s, ns).registry.loops| == |s.registry.loops|
    decreases |ns|
  {
    if ns != [] {
      var c := GetComponentSpec(cfg, s, OwnEntries(ns[0]), None);
      var m := RemoveNodeSpec(cfg, c.after, c.value).after;
      assert |m.registry.loops| == |s.registry.loops|;
      RemoveEachLoops(cfg, m, ns[1..]);
    }
  }

  /** After `updateFromGraph` (without a factory, on identified patch
      nodes): a removed id that no updated or added node and not the router
      has is gone; every updated id is live with exactly one hook, on a loop
      started by the update; and an id no patch node and not the router has
      keeps its entry */
  lemma UpdateFromGraphNodes(cfg: Config, s: NetState, g: Graph, p: Patch, k: Js)
    requires Valid(s.registry)
    requires cfg.factory.None? && AllIdentified(p.removed) && AllIdentified(p.updated) && AllIdentified(p.added)
    ensures var t := UpdateFromGraphSpec(cfg, s, g, p);
      && (CarriesId(p.removed, k) && !CarriesId(p.updated, k) && !CarriesId(p.added, k) && k != RouterId(cfg, s, g) ==>
            Get(t.nodes, k) == None && !Live(cfg, t, k))
      && (CarriesId(p.updated, k) ==> LiveSince(cfg, t, k, |s.registry.loops|))
      && (!CarriesId(p.removed, k) && !CarriesId(p.updated, k) && !CarriesId(p.added, k) && k != RouterId(cfg, s, g) ==>
            Get(t.nodes, k) == Get(s.nodes, k))
  {
    var ro := GetComponentSpec(cfg, s, RouterOptions(cfg), Some(g));
    var s1 := RemoveNodeSpec(cfg, ro.after, ro.value).after;
    var s4 := AddEach(cfg, UpdateEach(cfg, RemoveEach(cfg, s1, p.removed), p.updated), p.added);
    assert UpdateFromGraphSpec(cfg, s, g, p) == AddNodeSpec(cfg, s4, ro.value).(graph := Some(g));
    RouterRemoved(cfg, s, g);
    NodePhase(cfg, s1, p, k);
    RouterReAdded(cfg, s4, ro.value, g, k, |s.registry.loops|);
  }

  /** Removing the router built for `g` keeps the registry consistent, starts
      no loop and changes no other id's entry */
  lemma RouterRemoved(cfg: Config, s: NetState, g: Graph)
    requires Valid(s.registry)
    ensures var ro := GetComponentSpec(cfg, s, RouterOptions(cfg), Some(g));
      var s1 := RemoveNodeSpec(cfg, ro.after, ro.value).after;
      && Valid(s1.registry)
      && |s1.registry.loops| == |s.registry.loops|
      && (forall k :: k != Id(ro.value) ==> Get(s1.nodes, k) == Get(s.nodes, k))
  {
    var ro := GetComponentSpec(cfg, s, RouterOptions(cfg), Some(g));
    assert ro.after.nodes == s.nodes && ro.after.registry == s.registry;
    RemoveNodeEffect(cfg, ro.after, ro.value);
  }

  /** Adding the router back and storing the graph changes no other id's
      entry and keeps ids live with one hook since `n0` */
  lemma RouterReAdded(cfg: Config, s: NetState, r: Component, g: Graph, k: Js, n0: nat)
    requires Valid(s.registry)
    ensures var t := AddNodeSpec(cfg, s, r).(graph := Some(g));
      && (k != Id(r) ==> Get(t.nodes, k) == Get(s.nodes, k))
      && (k != Id(r) && Get(s.nodes, k) == None ==> !Live(cfg, t, k))
      && (LiveSince(cfg, s, k, n0) ==> LiveSince(cfg, t, k, n0))
  {
    AddNodeEffect(cfg, s, r);
    if LiveSince(cfg, s, k, n0) {
      AddKeepsLiveSince(cfg, s, r, k, n0);
    }
  }

  // ---------------------------------------------------------------------
  // Running
  // ---------------------------------------------------------------------

  /** One `setup` per node, in map order */
  function Setups(nodes: seq<Entry<Js, Component>>): (hs: seq<Hook>)
    ensures |hs| == |nodes|
    ensures forall i :: 0 <= i < |nodes| ==> hs[i] == Setup(Id(nodes[i].value))
  {
    seq(|nodes|, i requires 0 <= i < |nodes| => Setup(Id(nodes[i].value)))
  }

  /** One `teardown` per node, in map order */
  function Teardowns(nodes: seq<Entry<Js, Component>>): (hs: seq<Hook>)
    ensures |hs| == |nodes|
    ensures forall i :: 0 <= i < |nodes| ==> hs[i] == Teardown(Id(nodes[i].value))
  {
    seq(|nodes|, i requires 0 <= i < |nodes| => Teardown(Id(nodes[i].value)))
  }

  /** `start()` */
  function StartSpec(s: NetState): NetState {
    if s.running then s else s.(running := true, log := s.log + Setups(s.nodes))
  }

  /** `stop()` */
  function StopSpec(s: NetState): NetState {
    if !s.running then s else s.(running := false, log := s.log + Teardowns(s.nodes))
  }

  /** `start` runs each node's `setup` once and a second `start` does
      nothing; `stop` runs each `teardown` once and leaves the nodes and the
      listeners alone; starting then stopping a stopped network returns it
      to where it was, plus one setup and one teardown per node */
  lemma StartStop(s: NetState)
    ensures StartSpec(StartSpec(s)) == StartSpec(s) && StopSpec(StopSpec(s)) == StopSpec(s)
    ensures StartSpec(s).running && !StopSpec(s).running
    ensures StopSpec(s).nodes == s.nodes && StopSpec(s).registry == s.registry
    ensures StartSpec(s).nodes == s.nodes && StartSpec(s).registry == s.registry
    ensures !s.running ==> StopSpec(StartSpec(s)) == s.(log := s.log + Setups(s.nodes) + Teardowns(s.nodes))
    ensures !s.running ==> |StartSpec(s).log| == |s.log| + |s.nodes|
  {
  }

  /** A node added to a running network is set up at once; one added to a
      stopped network is set up by `start`: either way exactly once */
  lemma SetupOnce(cfg: Config, s: NetState, node: Component)
    requires !s.running && Id(node) !in Keys(s.nodes)
    ensures StartSpec(AddNodeSpec(cfg, s, node)).log == s.log + Setups(s.nodes) + [Setup(Id(node))]
    ensures AddNodeSpec(cfg, StartSpec(s), node).log == s.log + Setups(s.nodes) + [Setup(Id(node))]
  {
    StartAfterAdd(cfg, s, node);
    AddAfterStart(cfg, s, node);
  }

  lemma StartAfterAdd(cfg: Config, s: NetState, node: Component)
    requires !s.running && Id(node) !in Keys(s.nodes)
    ensures StartSpec(AddNodeSpec(cfg, s, node)).log == s.log + (Setups(s.nodes) + [Setup(Id(node))])
  {
    var e := Entry(Id(node), node);
    PutNew(s.nodes, Id(node), node);
    AddNodeLog(cfg, s, node);
    var t := AddNodeSpec(cfg, s, node);
    var ns := s.nodes + [e];
    assert t.nodes == ns && t.log == s.log && !t.running;
    SetupsAppend(s.nodes, e);
    assert StartSpec(t).log == t.log + Setups(ns);
  }

  lemma AddAfterStart(cfg: Config, s: NetState, node: Component)
    requires !s.running
    ensures AddNodeSpec(cfg, StartSpec(s), node).log == s.log + Setups(s.nodes) + [Setup(Id(node))]
  {
    AddNodeLog(cfg, StartSpec(s), node);
  }

  lemma AddNodeLog(cfg: Config, s: NetState, node: Component)
    ensures AddNodeSpec(cfg, s, node).log == s.log + (if s.running then [Setup(Id(node))] else [])
    ensures AddNodeSpec(cfg, s, node).running == s.running
    ensures AddNodeSpec(cfg, s, node).nodes == Put(s.nodes, Id(node), node)
  {
  }

  lemma SetupsAppend(nodes: seq<Entry<Js, Component>>, e: Entry<Js, Component>)
    ensures Setups(nodes + [e]) == Setups(nodes) + [Setup(Id(e.value))]
  {
    var a, b := Setups(nodes + [e]), Setups(nodes) + [Setup(Id(e.value))];
    forall i | 0 <= i < |a|
      ensures a[i] == b[i]
    {
      if i < |nodes| {
        assert (nodes + [e])[i] == nodes[i];
      }
    }
  }

  /** A node's `send` goes to the router's from-queue: the target of every
      node's context is the node the router reads from. The trigger reaches
      the router's listener exactly when neither the network id nor the
      router option is null or undefined; otherwise it goes to an event key
      nobody listens on */
  lemma SendReachesRouter(cfg: Config, s: NetState, g: Graph, node: Js)
    requires cfg.factory.None? && cfg.components == ComponentTable(Base, cfg.router, [])
    ensures var r := GetComponentSpec(cfg, s, RouterOptions(cfg), Some(g)).value;
      var sender := ContextFor(cfg, node);
      var receiver := ContextFor(cfg, Id(r));
      && FromKeyRef(r) == Ok(Named(FromKey(sender)))
      && PortKey(Context.NodeOf(sender.target, Separator(sender)), Named(FromKey(sender)))
         == PortKey(Context.NodeOf(receiver.source, Separator(receiver)), FromKeyRef(r).value)
      && (EidString(Context.NodeOf(sender.target, Separator(sender))) == ListenerKey(cfg, Id(r))
          <==> !cfg.id.Undefined? && !cfg.id.Null? && !cfg.router.Undefined? && !cfg.router.Null?)
  {
    RouterSelected(cfg, s, g);
    EidIsListenerKey(cfg.id, cfg.router);
  }

  // ---------------------------------------------------------------------
  // The network object
  // ---------------------------------------------------------------------

  class Network {
    const config: Config
    const bus: MsgBus<Listener>
    var nodes: seq<Entry<Js, Component>>
    var graph: Option<Graph>
    var running: bool
    var log: seq<Hook>
    var minted: nat

    function State(): NetState
      reads this, bus
    {
      NetState(nodes, graph, running, log, bus.Snapshot(), minted)
    }

    /** `new Network(options)` without a graph or nodes to load; without a
        bus it makes one over an empty store */
    constructor (options: NetworkOptions, uuids: nat -> string, msgbus: Option<MsgBus<Listener>>)
      ensures config == NewConfig(options, uuids)
      ensures msgbus.Some? ==> bus == msgbus.value
      ensures msgbus.None? ==> fresh(bus) && bus.Snapshot() == Registry(map[], [])
      ensures State() == Initial(bus.Snapshot())
    {
      config := NewConfig(options, uuids);
      if msgbus.Some? {
        bus := msgbus.value;
      } else {
        var store := new RedisClient.Store(RedisClient.StoreState(map[], 0));
        bus := new MsgBus(store, None, None);
      }
      nodes := [];
      graph := None;
      running := false;
      log := [];
      minted := 1;
    }

    /** `addNode(node)` */
    method AddNode(node: Component) returns (r: Component)
      modifies this, bus
      ensures r == node
      ensures State() == AddNodeSpec(config, old(State()), node)
    {
      nodes := Put(nodes, Id(node), node);
      bus.AddListener(ListenerKey(config, Id(node)), Listener(node, ContextFor(config, Id(node))));
      if running {
        log := log + [Setup(Id(node))];
      }
      r := node;
    }

    /** `removeNode(node)` */
    method RemoveNode(node: Component) returns (present: bool)
      modifies this, bus
      ensures Out(present, State()) == RemoveNodeSpec(config, old(State()), node)
    {
      bus.RemoveListener(ListenerKey(config, Id(node)));
      if running {
        log := log + [Teardown(Id(node))];
      }
      present := Id(node) in Keys(nodes);
      nodes := Delete(nodes, Id(node));
    }

    /** `getComponent(options)` */
    method GetComponent(options: seq<Entry<string, Js>>, g: Option<Graph>) returns (c: Component)
      modifies this
      ensures Out(c, State()) == GetComponentSpec(config, old(State()), options, g)
    {
      var opts := Typed(options);
      if config.factory.Some? {
        var made := config.factory.value(opts, g);
        if made.Some? {
          return made.value;
        }
      }
      var cls := Get(config.components, String(Get(opts, "type").GetOr(Undefined))).GetOr(Base);
      c := NewComponent(cls, opts, g, config.uuids(minted));
      minted := minted + 1;
    }

    /** Select and add each node in turn */
    method AddAll(ns: seq<Js>)
      modifies this, bus
      ensures State() == AddEach(config, old(State()), ns)
    {
      ghost var start := State();
      var i := 0;
      while i < |ns|
        invariant 0 <= i <= |ns|
        invariant AddEach(config, State(), ns[i..]) == AddEach(config, start, ns)
      {
        assert ns[i..][1..] == ns[i + 1..];
        var c := GetComponent(OwnEntries(ns[i]), None);
        c := AddNode(c);
        i := i + 1;
      }
    }

    /** Select and remove each node in turn */
    method RemoveAll(ns: seq<Js>)
      modifies this, bus
      ensures State() == RemoveEach(config, old(State()), ns)
    {
      ghost var start := State();
      var i := 0;
      while i < |ns|
        invariant 0 <= i <= |ns|
        invariant RemoveEach(config, State(), ns[i..]) == RemoveEach(config, start, ns)
      {
        assert ns[i..][1..] == ns[i + 1..];
        var c := GetComponent(OwnEntries(ns[i]), None);
        var present := RemoveNode(c);
        i := i + 1;
      }
    }

    /** Select each node, remove it and add it again */
    method UpdateAll(ns: seq<Js>)
      modifies this, bus
      ensures State() == UpdateEach(config, old(State()), ns)
    {
      ghost var start := State();
      var i := 0;
      while i < |ns|
        invariant 0 <= i <= |ns|
        invariant UpdateEach(config, State(), ns[i..]) == UpdateEach(config, start, ns)
      {
        assert ns[i..][1..] == ns[i + 1..];
        var c := GetComponent(OwnEntries(ns[i]), None);
        var present := RemoveNode(c);
        c := AddNode(c);
        i := i + 1;
      }
    }

    /** `loadFromGraph(graph)` */
    method LoadFromGraph(g: Graph) returns (r: Result<()>)
      modifies this, bus
      ensures Out(r, State()) == LoadFromGraphSpec(config, old(State()), g)
    {
      graph := Some(g);
      var ns := Nodes(g.options);
      if ns.Err? {
        return Err(ns.error);
      }
      AddAll(ns.value);
      if Truthy(config.router) {
        var router := GetComponent(RouterOptions(config), Some(g));
        router := AddNode(router);
      }
      r := Ok(());
    }

    /** `updateFromGraph(graph)`, given the diff against the stored graph */
    method UpdateFromGraph(g: Graph, p: Patch)
      modifies this, bus
      ensures State() == UpdateFromGraphSpec(config, old(State()), g, p)
    {
      var router := GetComponent(RouterOptions(config), Some(g));
      var present := RemoveNode(router);
      RemoveAll(p.removed);
      UpdateAll(p.updated);
      AddAll(p.added);
      router := AddNode(router);
      graph := Some(g);
    }

    /** `loadNodes(nodes)` */
    method LoadNodes(cs: seq<Component>)
      modifies this, bus
      ensures State() == LoadNodesSpec(config, old(State()), cs)
    {
      ghost var start := State();
      var i := 0;
      while i < |cs|
        invariant 0 <= i <= |cs|
        invariant LoadNodesSpec(config, State(), cs[i..]) == LoadNodesSpec(config, start, cs)
      {
        assert cs[i..][1..] == cs[i + 1..];
        var c := AddNode(cs[i]);
        i := i + 1;
      }
    }

    /** `start()` */
    method Start()
      modifies this
      ensures State() == StartSpec(old(State()))
    {
      if running {
        return;
      }
      running := true;
      ghost var before := log;
      var i := 0;
      while i < |nodes|
        invariant 0 <= i <= |nodes|
        invariant log == before + Setups(nodes[..i])
        invariant nodes == old(nodes) && graph == old(graph) && minted == old(minted) && running == !old(running)
      {
        assert Setups(nodes[..i + 1]) == Setups(nodes[..i]) + [Setup(Id(nodes[i].value))];
        log := log + [Setup(Id(nodes[i].value))];
        i := i + 1;
      }
      assert nodes[..i] == nodes;
    }

    /** `stop()` */
    method Stop()
      modifies this
      ensures State() == StopSpec(old(State()))
    {
      if !running {
        return;
      }
      running := false;
      ghost var before := log;
      var i := 0;
      while i < |nodes|
        invariant 0 <= i <= |nodes|
        invariant log == before + Teardowns(nodes[..i])
        invariant nodes == old(nodes) && graph == old(graph) && minted == old(minted) && running == !old(running)
      {
        assert Teardowns(nodes[..i + 1]) == Teardowns(nodes[..i]) + [Teardown(Id(nodes[i].value))];
        log := log + [Teardown(Id(nodes[i].value))];
        i := i + 1;
      }
      assert nodes[..i] == nodes;
    }
  }

  /** `new Network(options)` with the graph and nodes options: the
      constructor, then `loadFromGraph` and `loadNodes`; a graph without
      processes makes the constructor throw */
  method NewNetwork(options: NetworkOptions, uuids: nat -> string, msgbus: Option<MsgBus<Listener>>,
                    graph: Option<Graph>, nodes: Option<seq<Component>>) returns (r: Result<Network>)
    modifies if msgbus.Some? then {msgbus.value} else {}
    ensures r.Err? <==> graph.Some? && Nodes(graph.value.options).Err?
    ensures r.Ok? ==> fresh(r.value) && r.value.config == NewConfig(options, uuids)
    ensures r.Ok? && msgbus.Some? ==> r.value.bus == msgbus.value
    ensures r.Ok? && msgbus.Some? ==> r.value.State() == CreateSpec(r.value.config, Initial(old(msgbus.value.Snapshot())), graph, nodes)
    ensures r.Ok? && msgbus.None? ==> r.value.State() == CreateSpec(r.value.config, Initial(Registry(map[], [])), graph, nodes)
  {
    var net := new Network(options, uuids, msgbus);
    if graph.Some? {
      var loaded := net.LoadFromGraph(graph.value);
      if loaded.Err? {
        return Err(loaded.error);
      }
    }
    if nodes.Some? {
      net.LoadNodes(nodes.value);
    }
    r := Ok(net);
  }

  /** What the constructor's loads do to the initial state */
  function CreateSpec(cfg: Config, s: NetState, graph: Option<Graph>, nodes: Option<seq<Component>>): NetState {
    var s1 := if graph.Some? then LoadFromGraphSpec(cfg, s, graph.value).after else s;
    if nodes.Some? then LoadNodesSpec(cfg, s1, nodes.value) else s1
  }
}
