/** The older network: a node map filled by `addComponent`, no `running`
    flag, listeners registered by `start` and removed by `stop`, and a
    factory whose result is taken even when it is null. Its context and
    router are the same as those of the `Context` and `Components`
    modules. */
module LegacyNetworks {
  import opened Js
  import opened Bus
  import opened Graphs
  import opened Components
  import opened Networks

  /** What the methods change: the node map, the hooks called so far, the
      bus's listener registry and the number of uuids drawn */
  datatype LegacyState = LegacyState(
    nodes: seq<Entry<Js, Component>>, log: seq<Hook>, registry: Registry<Listener>, minted: nat)

  /** A result and the state after */
  datatype LegacyOut<T> = LegacyOut(value: T, after: LegacyState)

  /** `{ id: uuid.v4(), router: "router", ...options }`, with the test
      component as the default class */
  function NewLegacyConfig(options: NetworkOptions, uuids: nat -> string): Config {
    var router := options.router.GetOr(Str("router"));
    Config(options.id.GetOr(Str(uuids(0))), router, ComponentTable(Test, router, options.components), options.factory, uuids)
  }

  // ---------------------------------------------------------------------
  // The node map
  // ---------------------------------------------------------------------

  /** `addComponent(c)`: reading `id` of a null component throws */
  function AddComponentSpec(s: LegacyState, c: Option<Component>): LegacyOut<Result<Component>> {
    match c
    case None => LegacyOut(Err(TypeError), s)
    case Some(c) => LegacyOut(Ok(c), s.(nodes := Put(s.nodes, Id(c), c)))
  }

  /** `removeComponent(c)`: whether the id was present */
  function RemoveComponentSpec(s: LegacyState, c: Component): LegacyOut<bool> {
    LegacyOut(Id(c) in Keys(s.nodes), s.(nodes := Delete(s.nodes, Id(c))))
  }

  /** `addComponent` stores a component under its id, replacing any entry
      there and touching no other; a null component is an error and changes
      nothing. `removeComponent` of a just-added component under a free id
      restores the map */
  lemma AddRemoveComponent(s: LegacyState, c: Component)
    ensures var a := AddComponentSpec(s, Some(c));
      && a.value == Ok(c)
      && Get(a.after.nodes, Id(c)) == Some(c)
      && (forall k :: k != Id(c) ==> Get(a.after.nodes, k) == Get(s.nodes, k))
      && a.after.log == s.log && a.after.registry == s.registry
    ensures AddComponentSpec(s, None) == LegacyOut(Err(TypeError), s)
    ensures var r := RemoveComponentSpec(s, c);
      && (r.value <==> Get(s.nodes, Id(c)).Some?)
      && Get(r.after.nodes, Id(c)) == None
      && (forall k :: k != Id(c) ==> Get(r.after.nodes, k) == Get(s.nodes, k))
    ensures Id(c) !in Keys(s.nodes) ==>
      RemoveComponentSpec(AddComponentSpec(s, Some(c)).after, c) == LegacyOut(true, s)
  {
    if Id(c) !in Keys(s.nodes) {
      DeleteAfterPut(s.nodes, Id(c), c);
    }
  }

  // ---------------------------------------------------------------------
  // Component selection
  // ---------------------------------------------------------------------

  /** `getComponent(options)`: when a factory is set its result is returned
      whatever it is; otherwise the table's class for the type, the base
      class when there is none */
  function LegacyGetComponentSpec(cfg: Config, s: LegacyState, options: seq<Entry<string, Js>>, graph: Option<Graph>): LegacyOut<Option<Component>> {
    var opts := Typed(options);
    if cfg.factory.Some? then LegacyOut(cfg.factory.value(opts, graph), s)
    else
      var cls := Get(cfg.components, String(Get(opts, "type").GetOr(Undefined))).GetOr(Base);
      LegacyOut(Some(NewComponent(cls, opts, graph, cfg.uuids(s.minted))), s.(minted := s.minted + 1))
  }

  /** With a factory the result is the factory's, null included, and no
      uuid is drawn; without one a component of the table's class (the test
      component by default) is built */
  lemma GetComponentLegacy(cfg: Config, s: LegacyState, options: seq<Entry<string, Js>>, graph: Option<Graph>)
    requires Distinct(options)
    ensures cfg.factory.Some? ==>
      LegacyGetComponentSpec(cfg, s, options, graph) == LegacyOut(cfg.factory.value(Typed(options), graph), s)
    ensures cfg.factory.None? ==>
      var o := LegacyGetComponentSpec(cfg, s, options, graph);
      && o.value.Some?
      && o.value.value.cls == Get(cfg.components, String(TypeOf(options))).GetOr(Base)
      && Id(o.value.value) == Get(options, "id").GetOr(Str(cfg.uuids(s.minted)))
      && o.after == s.(minted := s.minted + 1)
  {
    if cfg.factory.None? {
      TypedDistinct(options);
      var cls := Get(cfg.components, String(TypeOf(options))).GetOr(Base);
      NewComponentId(cls, Typed(options), graph, cfg.uuids(s.minted));
    }
  }

  /** The default table sends an untyped node to the test component */
  lemma DefaultIsTest(router: Js)
    requires String(router) != "default"
    ensures Get(ComponentTable(Test, router, []), String(Str("default"))) == Some(Test)
    ensures Get(ComponentTable(Test, router, []), String(router)) == Some(Router)
  {
  }

  // ---------------------------------------------------------------------
  // Loading
  // ---------------------------------------------------------------------

  /** `nodes.forEach(n => this.addComponent(this.getComponent(n)))`: a null
      component stops the loop with a TypeError */
  function AddEachLegacy(cfg: Config, s: LegacyState, ns: seq<Js>): LegacyOut<Result<()>>
    decreases |ns|
  {
    if ns == [] then LegacyOut(Ok(()), s)
    else
      var a := AddOne(cfg, s, ns[0]);
      if a.value.Err? then LegacyOut(Err(a.value.error), a.after)
      else AddEachLegacy(cfg, a.after, ns[1..])
  }

  /** `this.addComponent(this.getComponent(n))` */
  function AddOne(cfg: Config, s: LegacyState, n: Js): LegacyOut<Result<Component>> {
    var c := LegacyGetComponentSpec(cfg, s, OwnEntries(n), None);
    AddComponentSpec(c.after, c.value)
  }

  /** `loadFromGraph(graph)`: the graph is not stored */
  function LegacyLoadFromGraphSpec(cfg: Config, s: LegacyState, g: Graph): LegacyOut<Result<()>> {
    match Nodes(g.options)
    case Err(e) => LegacyOut(Err(e), s)
    case Ok(ns) =>
      var a := AddEachLegacy(cfg, s, ns);
      if a.value.Err? || !Truthy(cfg.router) then a
      else
        var r := LegacyGetComponentSpec(cfg, a.after, RouterOptions(cfg), Some(g));
        var b := AddComponentSpec(r.after, r.value);
        LegacyOut(if b.value.Ok? then Ok(()) else Err(b.value.error), b.after)
  }

  /** A factory that returns null for the first graph node makes
      `loadFromGraph` throw before any node is added */
  lemma NullComponentAborts(cfg: Config, s: LegacyState, g: Graph)
    requires cfg.factory.Some? && Nodes(g.options).Ok? && Nodes(g.options).value != []
    requires cfg.factory.value(Typed(OwnEntries(Nodes(g.options).value[0])), None).None?
    ensures LegacyLoadFromGraphSpec(cfg, s, g) == LegacyOut(Err(TypeError), s)
  {
  }

  /** The node map has an entry under `k` */
  predicate Stored(s: LegacyState, k: Js) {
    Get(s.nodes, k).Some?
  }

  /** Without a factory, one step of `loadFromGraph` succeeds, keeps the
      stored ids and stores an identified node under its own id */
  lemma AddStep(cfg: Config, s: LegacyState, n: Js)
    requires cfg.factory.None?
    ensures var a := AddOne(cfg, s, n);
      && a.value.Ok?
      && (forall k :: Stored(s, k) ==> Stored(a.after, k))
      && (Identified(n) ==> Stored(a.after, GetProp(n, "id")))
      && a.after.registry == s.registry && a.after.log == s.log
  {
    if Identified(n) {
      assert OwnEntries(n) == n.props;
      GetComponentLegacy(cfg, s, n.props, None);
      assert Get(n.props, "id").Some?;
    }
  }

  /** Without a factory, adding graph nodes stores every identified node
      under its own id and keeps the ids already there */
  lemma {:induction false} AddEachLegacyKeys(cfg: Config, s: LegacyState, ns: seq<Js>)
    requires cfg.factory.None?
    ensures var a := AddEachLegacy(cfg, s, ns);
      && a.value == Ok(())
      && (forall k :: Stored(s, k) ==> Stored(a.after, k))
      && (forall i :: 0 <= i < |ns| && Identified(ns[i]) ==> Stored(a.after, GetProp(ns[i], "id")))
      && a.after.registry == s.registry && a.after.log == s.log
    decreases |ns|
  {
    if ns != [] {
      var a := AddOne(cfg, s, ns[0]);
      AddStep(cfg, s, ns[0]);
      assert AddEachLegacy(cfg, s, ns) == AddEachLegacy(cfg, a.after, ns[1..]);
      AddEachLegacyKeys(cfg, a.after, ns[1..]);
      forall i | 1 <= i < |ns| && Identified(ns[i])
        ensures Stored(AddEachLegacy(cfg, s, ns).after, GetProp(ns[i], "id"))
      {
        assert ns[1..][i - 1] == ns[i];
      }
    }
  }

  /** Whatever the factory returns, adding graph nodes keeps the ids
      already stored and touches no listener, hook or log */
  lemma {:induction false} AddEachLegacyFrame(cfg: Config, s: LegacyState, ns: seq<Js>)
    ensures var a := AddEachLegacy(cfg, s, ns);
      && (forall k :: Stored(s, k) ==> Stored(a.after, k))
      && a.after.registry == s.registry && a.after.log == s.log
    decreases |ns|
  {
    if ns != [] {
      var a := AddOne(cfg, s, ns[0]);
      if a.value.Ok? {
        AddEachLegacyFrame(cfg, a.after, ns[1..]);
      }
    }
  }

  /** Whatever the factory returns, `loadFromGraph` fails with the state
      unchanged when there are no processes, keeps the ids already stored
      and touches no listener, hook or log */
  lemma LegacyLoadFromGraphFrame(cfg: Config, s: LegacyState, g: Graph)
    ensures var o := LegacyLoadFromGraphSpec(cfg, s, g);
      && (g.options.processes.Undefined? || g.options.processes.Null? ==> o.value.Err? && o.after == s)
      && (forall k :: Stored(s, k) ==> Stored(o.after, k))
      && o.after.registry == s.registry && o.after.log == s.log
  {
    if Nodes(g.options).Ok? {
      AddEachLegacyFrame(cfg, s, Nodes(g.options).value);
    }
  }

  /** `loadFromGraph` fails with the state unchanged when there are no
      processes, keeps the ids already stored and touches no listener, hook
      or log. Without a factory it fails only then, and otherwise every
      graph node is stored under its id and, when the router option is
      truthy, so is the router, while with a falsy router option no other id
      is stored */
  lemma LegacyLoadFromGraphKeys(cfg: Config, s: LegacyState, g: Graph)
    requires forall e :: e in OwnEntries(g.options.processes) ==> Distinct(OwnEntries(e.value))
    ensures var o := LegacyLoadFromGraphSpec(cfg, s, g);
      && (g.options.processes.Undefined? || g.options.processes.Null? ==> o.value.Err? && o.after == s)
      && (forall k :: Stored(s, k) ==> Stored(o.after, k))
      && o.after.registry == s.registry && o.after.log == s.log
      && (cfg.factory.None? ==> (o.value.Err? <==> g.options.processes.Undefined? || g.options.processes.Null?))
      && (cfg.factory.None? && o.value.Err? ==> o.after == s)
      && (cfg.factory.None? && o.value.Ok? ==>
            forall i :: 0 <= i < |Nodes(g.options).value| ==> Stored(o.after, GetProp(Nodes(g.options).value[i], "id")))
      && (cfg.factory.None? && o.value.Ok? && Truthy(cfg.router) ==>
            Stored(o.after, Id(LegacyGetComponentSpec(cfg, AddEachLegacy(cfg, s, Nodes(g.options).value).after, RouterOptions(cfg), Some(g)).value.value)))
      && (cfg.factory.None? && o.value.Ok? && !Truthy(cfg.router) ==>
            forall k :: Stored(o.after, k) ==> Stored(s, k) || CarriesId(Nodes(g.options).value, k))
  {
    LegacyLoadFromGraphFrame(cfg, s, g);
    GraphNodesIdentified(g.options);
    if Nodes(g.options).Ok? && cfg.factory.None? {
      var ns := Nodes(g.options).value;
      AddEachLegacyKeys(cfg, s, ns);
      if !Truthy(cfg.router) {
        forall k | Stored(AddEachLegacy(cfg, s, ns).after, k) && !CarriesId(ns, k)
          ensures Stored(s, k)
        {
          AddEachLegacyOnly(cfg, s, ns, k);
        }
      }
    }
  }

  /** Without a factory, adding identified graph nodes stores no id other
      than theirs */
  lemma {:induction false} AddEachLegacyOnly(cfg: Config, s: LegacyState, ns: seq<Js>, k: Js)
    requires cfg.factory.None? && AllIdentified(ns) && !CarriesId(ns, k)
    ensures Get(AddEachLegacy(cfg, s, ns).after.nodes, k) == Get(s.nodes, k)
    decreases |ns|
  {
    if ns != [] {
      var a := AddOne(cfg, s, ns[0]);
      AddOneOnly(cfg, s, ns[0], k);
      assert AddEachLegacy(cfg, s, ns) == AddEachLegacy(cfg, a.after, ns[1..]);
      CarriesTail(ns, k);
      AddEachLegacyOnly(cfg, a.after, ns[1..], k);
    }
  }

  lemma AddOneOnly(cfg: Config, s: LegacyState, n: Js, k: Js)
    requires cfg.factory.None? && Identified(n) && GetProp(n, "id") != k
    ensures AddOne(cfg, s, n).value.Ok?
    ensures Get(AddOne(cfg, s, n).after.nodes, k) == Get(s.nodes, k)
  {
    assert OwnEntries(n) == n.props;
    GetComponentLegacy(cfg, s, n.props, None);
    assert Get(n.props, "id").Some?;
  }

  // ---------------------------------------------------------------------
  // Running
  // ---------------------------------------------------------------------

  /** One node of `start()`: set it up, then (re)register its listener */
  function StartOne(cfg: Config, s: LegacyState, node: Component): LegacyState {
    s.(log := s.log + [Setup(Id(node))],
       registry := AddListenerSpec(s.registry, ListenerKey(cfg, Id(node)), Listener(node, ContextFor(cfg, Id(node)))))
  }

  /** One node of `stop()`: remove its listener, then tear it down */
  function StopOne(cfg: Config, s: LegacyState, node: Component): LegacyState {
    s.(registry := RemoveListenerSpec(s.registry, ListenerKey(cfg, Id(node))),
       log := s.log + [Teardown(Id(node))])
  }

  /** `start()` over the nodes `ns`, in map order */
  function StartFrom(cfg: Config, s: LegacyState, ns: seq<Entry<Js, Component>>): LegacyState
    decreases |ns|
  {
    if ns == [] then s else StartFrom(cfg, StartOne(cfg, s, ns[0].value), ns[1..])
  }

  /** `stop()` over the nodes `ns`, in map order */
  function StopFrom(cfg: Config, s: LegacyState, ns: seq<Entry<Js, Component>>): LegacyState
    decreases |ns|
  {
    if ns == [] then s else StopFrom(cfg, StopOne(cfg, s, ns[0].value), ns[1..])
  }

  /** `start` leaves the node map alone and calls the setup hook of every
      node, in map order */
  lemma {:induction false} StartLog(cfg: Config, s: LegacyState, ns: seq<Entry<Js, Component>>)
    ensures StartFrom(cfg, s, ns).nodes == s.nodes && StartFrom(cfg, s, ns).log == s.log + Setups(ns)
    decreases |ns|
  {
    if ns != [] {
      var t := StartOne(cfg, s, ns[0].value);
      assert StartFrom(cfg, s, ns) == StartFrom(cfg, t, ns[1..]);
      assert t.nodes == s.nodes && t.log == s.log + [Setup(Id(ns[0].value))];
      StartLog(cfg, t, ns[1..]);
      HooksCons(ns);
      assert t.log + Setups(ns[1..]) == s.log + ([Setup(Id(ns[0].value))] + Setups(ns[1..]));
    }
  }

  /** `stop` leaves the node map alone and calls the teardown hook of every
      node, in map order */
  lemma {:induction false} StopLog(cfg: Config, s: LegacyState, ns: seq<Entry<Js, Component>>)
    ensures StopFrom(cfg, s, ns).nodes == s.nodes && StopFrom(cfg, s, ns).log == s.log + Teardowns(ns)
    decreases |ns|
  {
    if ns != [] {
      var t := StopOne(cfg, s, ns[0].value);
      assert StopFrom(cfg, s, ns) == StopFrom(cfg, t, ns[1..]);
      assert t.nodes == s.nodes && t.log == s.log + [Teardown(Id(ns[0].value))];
      StopLog(cfg, t, ns[1..]);
      HooksCons(ns);
      assert t.log + Teardowns(ns[1..]) == s.log + ([Teardown(Id(ns[0].value))] + Teardowns(ns[1..]));
    }
  }

  lemma HooksCons(ns: seq<Entry<Js, Component>>)
    requires ns != []
    ensures Setups(ns) == [Setup(Id(ns[0].value))] + Setups(ns[1..])
    ensures Teardowns(ns) == [Teardown(Id(ns[0].value))] + Teardowns(ns[1..])
  {
    SetupsCons(ns);
    TeardownsCons(ns);
  }

  lemma SetupsCons(ns: seq<Entry<Js, Component>>)
    requires ns != []
    ensures Setups(ns) == [Setup(Id(ns[0].value))] + Setups(ns[1..])
  {
    var a, b := Setups(ns), [Setup(Id(ns[0].value))] + Setups(ns[1..]);
    forall i | 0 <= i < |a|
      ensures a[i] == b[i]
    {
      if i > 0 {
        assert ns[1..][i - 1] == ns[i];
      }
    }
  }

  lemma TeardownsCons(ns: seq<Entry<Js, Component>>)
    requires ns != []
    ensures Teardowns(ns) == [Teardown(Id(ns[0].value))] + Teardowns(ns[1..])
  {
    var a, b := Teardowns(ns), [Teardown(Id(ns[0].value))] + Teardowns(ns[1..]);
    forall i | 0 <= i < |a|
      ensures a[i] == b[i]
    {
      if i > 0 {
        assert ns[1..][i - 1] == ns[i];
      }
    }
  }

  /** Exactly one cancel hook on the key */
  predicate Single(r: Registry<Listener>, key: string) {
    |Hooks(r, key)| == 1
  }

  /** Starting one node leaves exactly one hook on its key and keeps every
      other key that had exactly one */
  lemma StartOneSingle(cfg: Config, s: LegacyState, node: Component)
    requires Valid(s.registry)
    ensures var t := StartOne(cfg, s, node);
      && Valid(t.registry)
      && Single(t.registry, ListenerKey(cfg, Id(node)))
      && (forall k :: Single(s.registry, k) ==> Single(t.registry, k))
  {
    AddListenerReplaces(s.registry, ListenerKey(cfg, Id(node)), Listener(node, ContextFor(cfg, Id(node))));
  }

  /** Stopping one node leaves no listener on its key and none on a key
      that had none */
  lemma StopOneRemoves(cfg: Config, s: LegacyState, node: Component)
    requires Valid(s.registry)
    ensures var t := StopOne(cfg, s, node);
      && Valid(t.registry)
      && !HasListeners(t.registry, ListenerKey(cfg, Id(node)))
      && (forall k :: !HasListeners(s.registry, k) ==> !HasListeners(t.registry, k))
  {
    RemoveListenerCancels(s.registry, ListenerKey(cfg, Id(node)));
  }

  /** After `start` each node's key has exactly one hook, however often
      `start` ran before: a repeated `start` replaces the listeners rather
      than adding to them */
  lemma {:induction false} StartRegisters(cfg: Config, s: LegacyState, ns: seq<Entry<Js, Component>>)
    requires Valid(s.registry)
    ensures var t := StartFrom(cfg, s, ns);
      && Valid(t.registry)
      && (forall k :: Single(s.registry, k) ==> Single(t.registry, k))
      && (forall i :: 0 <= i < |ns| ==> Single(t.registry, ListenerKey(cfg, Id(ns[i].value))))
    decreases |ns|
  {
    if ns != [] {
      StartOneSingle(cfg, s, ns[0].value);
      StartRegisters(cfg, StartOne(cfg, s, ns[0].value), ns[1..]);
      forall i | 1 <= i < |ns|
        ensures Single(StartFrom(cfg, s, ns).registry, ListenerKey(cfg, Id(ns[i].value)))
      {
        assert ns[1..][i - 1] == ns[i];
      }
    }
  }

  /** After `stop` no node's key has a listener */
  lemma {:induction false} StopRemoves(cfg: Config, s: LegacyState, ns: seq<Entry<Js, Component>>)
    requires Valid(s.registry)
    ensures var t := StopFrom(cfg, s, ns);
      && Valid(t.registry)
      && (forall k :: !HasListeners(s.registry, k) ==> !HasListeners(t.registry, k))
      && (forall i :: 0 <= i < |ns| ==> !HasListeners(t.registry, ListenerKey(cfg, Id(ns[i].value))))
    decreases |ns|
  {
    if ns != [] {
      StopOneRemoves(cfg, s, ns[0].value);
      StopRemoves(cfg, StopOne(cfg, s, ns[0].value), ns[1..]);
      forall i | 1 <= i < |ns|
        ensures !HasListeners(StopFrom(cfg, s, ns).registry, ListenerKey(cfg, Id(ns[i].value)))
      {
        assert ns[1..][i - 1] == ns[i];
      }
    }
  }

  // ---------------------------------------------------------------------
  // The network object
  // ---------------------------------------------------------------------

  class LegacyNetwork {
    const config: Config
    const bus: MsgBus<Listener>
    var nodes: seq<Entry<Js, Component>>
    var log: seq<Hook>
    var minted: nat

    function State(): LegacyState
      reads this, bus
    {
      LegacyState(nodes, log, bus.Snapshot(), minted)
    }

    /** `new Network(options)` without a graph or nodes to load */
    constructor (options: NetworkOptions, uuids: nat -> string, msgbus: Option<MsgBus<Listener>>)
      ensures config == NewLegacyConfig(options, uuids)
      ensures msgbus.Some? ==> bus == msgbus.value
      ensures msgbus.None? ==> fresh(bus) && bus.Snapshot() == Registry(map[], [])
      ensures State() == LegacyState([], [], bus.Snapshot(), 1)
    {
      config := NewLegacyConfig(options, uuids);
      if msgbus.Some? {
        bus := msgbus.value;
      } else {
        var store := new RedisClient.Store(RedisClient.StoreState(map[], 0));
        bus := new MsgBus(store, None, None);
      }
      nodes := [];
      log := [];
      minted := 1;
    }

    /** `addComponent(c)` */
    method AddComponent(c: Option<Component>) returns (r: Result<Component>)
      modifies this
      ensures LegacyOut(r, State()) == AddComponentSpec(old(State()), c)
    {
      if c.None? {
        return Err(TypeError);
      }
      nodes := Put(nodes, Id(c.value), c.value);
      r := Ok(c.value);
    }

    /** `removeComponent(c)` */
    method RemoveComponent(c: Component) returns (present: bool)
      modifies this
      ensures LegacyOut(present, State()) == RemoveComponentSpec(old(State()), c)
    {
      present := Id(c) in Keys(nodes);
      nodes := Delete(nodes, Id(c));
    }

    /** `getComponent(options)` */
    method GetComponent(options: seq<Entry<string, Js>>, g: Option<Graph>) returns (c: Option<Component>)
      modifies this
      ensures LegacyOut(c, State()) == LegacyGetComponentSpec(config, old(State()), options, g)
    {
      var opts := Typed(options);
      if config.factory.Some? {
        return config.factory.value(opts, g);
      }
      var cls := Get(config.components, String(Get(opts, "type").GetOr(Undefined))).GetOr(Base);
      c := Some(NewComponent(cls, opts, g, config.uuids(minted)));
      minted := minted + 1;
    }

    /** `loadFromGraph(graph)` */
    method LoadFromGraph(g: Graph) returns (r: Result<()>)
      modifies this
      ensures LegacyOut(r, State()) == LegacyLoadFromGraphSpec(config, old(State()), g)
    {
      var ns := Nodes(g.options);
      if ns.Err? {
        return Err(ns.error);
      }
      ghost var start := State();
      var i := 0;
      while i < |ns.value|
        invariant 0 <= i <= |ns.value|
        invariant AddEachLegacy(config, State(), ns.value[i..]) == AddEachLegacy(config, start, ns.value)
      {
        assert ns.value[i..][1..] == ns.value[i + 1..];
        var c := GetComponent(OwnEntries(ns.value[i]), None);
        var added := AddComponent(c);
        if added.Err? {
          return Err(added.error);
        }
        i := i + 1;
      }
      if Truthy(config.router) {
        var router := GetComponent(RouterOptions(config), Some(g));
        var added := AddComponent(router);
        if added.Err? {
          return Err(added.error);
        }
      }
      r := Ok(());
    }

    /** `loadNodes(nodes)` */
    method LoadNodes(cs: seq<Component>)
      modifies this
      ensures nodes == PutAll(old(nodes), cs)
      ensures log == old(log) && minted == old(minted)
    {
      var i := 0;
      while i < |cs|
        invariant 0 <= i <= |cs|
        invariant PutAll(nodes, cs[i..]) == PutAll(old(nodes), cs)
        invariant log == old(log) && minted == old(minted)
      {
        assert cs[i..][1..] == cs[i + 1..];
        var added := AddComponent(Some(cs[i]));
        i := i + 1;
      }
    }

    /** `start()` */
    method Start()
      modifies this, bus
      ensures State() == StartFrom(config, old(State()), old(nodes))
    {
      ghost var start := State();
      var i := 0;
      while i < |nodes|
        invariant 0 <= i <= |nodes|
        invariant nodes == old(nodes) && minted == old(minted)
        invariant StartFrom(config, State(), nodes[i..]) == StartFrom(config, start, nodes)
      {
        assert nodes[i..][1..] == nodes[i + 1..];
        var node := nodes[i].value;
        log := log + [Setup(Id(node))];
        bus.AddListener(ListenerKey(config, Id(node)), Listener(node, ContextFor(config, Id(node))));
        i := i + 1;
      }
    }

    /** `stop()` */
    method Stop()
      modifies this, bus
      ensures State() == StopFrom(config, old(State()), old(nodes))
    {
      ghost var start := State();
      var i := 0;
      while i < |nodes|
        invariant 0 <= i <= |nodes|
        invariant nodes == old(nodes) && minted == old(minted)
        invariant StopFrom(config, State(), nodes[i..]) == StopFrom(config, start, nodes)
      {
        assert nodes[i..][1..] == nodes[i + 1..];
        var node := nodes[i].value;
        bus.RemoveListener(ListenerKey(config, Id(node)));
        log := log + [Teardown(Id(node))];
        i := i + 1;
      }
    }
  }

  /** `addComponent` for each component in turn */
  function PutAll(m: seq<Entry<Js, Component>>, cs: seq<Component>): seq<Entry<Js, Component>>
    decreases |cs|
  {
    if cs == [] then m else PutAll(Put(m, Id(cs[0]), cs[0]), cs[1..])
  }

  /** An id none of the components has keeps its entry */
  lemma {:induction false} PutAllKeeps(m: seq<Entry<Js, Component>>, cs: seq<Component>, k: Js)
    requires forall i :: 0 <= i < |cs| ==> Id(cs[i]) != k
    ensures Get(PutAll(m, cs), k) == Get(m, k)
    decreases |cs|
  {
    if cs != [] {
      assert Id(cs[0]) != k;
      forall i | 0 <= i < |cs[1..]|
        ensures Id(cs[1..][i]) != k
      {
        assert cs[1..][i] == cs[i + 1];
      }
      PutAllKeeps(Put(m, Id(cs[0]), cs[0]), cs[1..], k);
    }
  }

  /** After `loadNodes` a component is stored under its id unless a later
      one has the same id: the last one given under an id wins */
  lemma {:induction false} PutAllLastWins(m: seq<Entry<Js, Component>>, cs: seq<Component>, i: nat)
    requires i < |cs| && forall j :: i < j < |cs| ==> Id(cs[j]) != Id(cs[i])
    ensures Get(PutAll(m, cs), Id(cs[i])) == Some(cs[i])
    decreases |cs|
  {
    var rest := cs[1..];
    if i == 0 {
      forall j | 0 <= j < |rest|
        ensures Id(rest[j]) != Id(cs[0])
      {
        assert rest[j] == cs[j + 1];
      }
      PutAllKeeps(Put(m, Id(cs[0]), cs[0]), rest, Id(cs[0]));
    } else {
      assert rest[i - 1] == cs[i];
      forall j | i - 1 < j < |rest|
        ensures Id(rest[j]) != Id(rest[i - 1])
      {
        assert rest[j] == cs[j + 1];
      }
      PutAllLastWins(Put(m, Id(cs[0]), cs[0]), rest, i - 1);
    }
  }

  /** `new Network(options)` with the graph and nodes options */
  method NewLegacyNetwork(options: NetworkOptions, uuids: nat -> string, msgbus: Option<MsgBus<Listener>>,
                          graph: Option<Graph>, nodes: Option<seq<Component>>) returns (r: Result<LegacyNetwork>)
    ensures r.Ok? ==> fresh(r.value) && r.value.config == NewLegacyConfig(options, uuids)
    ensures r.Ok? && msgbus.Some? ==> r.value.bus == msgbus.value
    ensures r.Err? ==> graph.Some? && LegacyLoadFromGraphSpec(NewLegacyConfig(options, uuids),
                         LegacyState([], [], if msgbus.Some? then msgbus.value.Snapshot() else Registry(map[], []), 1), graph.value).value.Err?
  {
    var net := new LegacyNetwork(options, uuids, msgbus);
    if graph.Some? {
      var loaded := net.LoadFromGraph(graph.value);
      if loaded.Err? {
        return Err(loaded.error);
      }
    }
    if nodes.Some? {
      net.LoadNodes(nodes.value);
    }
    r := Ok(net);
  }
}
