# kess-flow runtime core in Dafny

A model of the in-process logic of kess-flow, a flow-based dataflow runtime
in which components exchange messages through Redis lists (bounded per-port
data queues) and Redis streams (per-node trigger events):

- `utils.dfy` (`Utils`): the `group` and `flat` array helpers.
- `js.dfy` (`Js`): the JavaScript values the runtime passes around. Objects
  and Maps are ordered association lists: setting a key keeps its position or
  appends it, deleting removes it, and `{ ...a, ...b }` lets `b` win.
- `redis.dfy` (`RedisClient`): a Redis store of lists and streams. LRANGE,
  LTRIM, LPUSH, LLEN, XADD and XDEL are pure functions, with the Redis
  negative-index and clamping rules. The `Queue` class gives
  `len`/`has`/`pop`/`push`, each a MULTI block. The `MQ` class has the stream
  field codec and `publish`/`delete`.
- `msgbus.dfy` (`Bus`): the `MsgBus` class. It forwards to the queues and
  streams with its `mqMaxlen`/`queueMaxlen` options. It also keeps the
  per-key listener registry: each listener loop has a `remove` flag and the
  key has a cancel hook. One batch of a listener loop is modelled.
- `context.dfy` (`Context`): the `network.node.port` and `network.node` keys.
  Also the `Input`/`Output` classes, where each data write is followed by one
  trigger event.
- `graph.dfy` (`Graphs`): the graph's route index from `"node.port"` keys to
  target ports, `nodes`, `connections` and the port-key codec.
- `components.dfy` (`Components`): component construction and id
  defaulting, the router, and its fan-out `process`.
- `networks.dfy` (`Networks`): the `Network` class of `src/networks.ts`. It
  covers the node map, the running flag, the setup and teardown hooks,
  listener wiring, component selection, graph loading and hot reload.
- `network.dfy` (`LegacyNetworks`): the older `Network` of `src/network.ts`.
  It has no running flag and wires listeners in `start`/`stop`. Its
  `Context` and `Components.Router` copies are the same code as
  `src/context.ts` and `src/components.ts`. They are modelled once, by the
  `Context` and `Components` members, whose rows also name the legacy lines.

Each class keeps its state in fields and mirrors it as a datatype value.
Every method is specified by a pure function of the old state. The lemmas
state what the source promises about those functions.

Where the documented design of kess-flow and its code differ, the model
follows the code:

- `getData` with `count > 1` returns the popped items newest first and
  oldest last (LRANGE order of an LPUSH list), not oldest first.
- `has` with count 0 is false on an empty queue, because it also asks that
  the key exist.
- `push` keeps `maxlen + 1` items (`LTRIM key 0 maxlen`).
- An event whose handler threw is not deleted (src/msgbus.ts:77-82). It stays
  in the stream, and `Bus.ListenerTurnDeletes` states so.
- A node's trigger reaches the router only when neither the network id nor
  the router option is null or undefined: `eidString` joins with `join`,
  which prints those as "", while the network listens on a template string,
  which prints "null" or "undefined" (src/context.ts:23, src/networks.ts:63).
  With `router: null`, which `updateFromGraph` adds without a truthiness
  check (src/networks.ts:115-134), triggers go to "n." while the router
  listens on "n.null". `Networks.SendReachesRouter` states exactly when the
  keys agree.

## Model

| member | source | states |
|---|---|---|
| Utils.Group | src/utils/index.ts:7-13 | for chunk > 0 (for chunk <= 0 the loop `i += chunk` never ends unless the array is empty; the only caller passes 2) the result is the chunking of the array into consecutive slices |
| Utils.Flat | src/utils/index.ts:15-19 | the result is the concatenation of the groups in order |
| Utils.ConcatChunks | src/utils/index.ts:7-19 | `flat(group(a, chunk)) == a` for chunk > 0 |
| Utils.ChunkSizes | src/utils/index.ts:9-11 | every group but the last has exactly `chunk` elements, the last between 1 and `chunk` |
| Utils.ChunkCount | src/utils/index.ts:8-12 | there are ceil(len / chunk) groups, and `group([], k) == []` |
| Utils.ConcatLength | src/utils/index.ts:15-19 | the length of `flat` is the sum of the inner lengths |
| Utils.ConcatIndex | src/utils/index.ts:15-19 | element k of group i sits at offset (lengths of groups before i) + k: order is preserved |
| Js.Put | src/networks.ts:62 | `Map.set`: the key maps to the new value and every other key is unchanged |
| Js.PutNew | src/networks.ts:62 | a new key is appended at the end (Map insertion order) |
| Js.PutExisting | src/networks.ts:62 | setting an existing key keeps the key order |
| Js.Delete | src/networks.ts:77 | `Map.delete`: the key is gone, others are unchanged, and a missing key changes nothing |
| Js.DeleteAfterPut | src/network.ts:41-48 | deleting a key just set under a fresh key restores the map |
| Js.GetSpread | src/context.ts:8-11 | `{ ...base, ...over }` reads a key from `over` when it has one, otherwise from `base`, and keeps keys distinct |
| RedisClient.Window | src/redis/client.ts:164-165 | the LRANGE/LTRIM window is within the list and is non-empty exactly when the normalised start and stop select something |
| RedisClient.Reverse | src/redis/client.ts:175 | LPUSH of several values puts them at the head in reverse order |
| RedisClient.Stored | src/redis/client.ts:165 | a list trimmed to empty removes its key; other keys are unchanged |
| RedisClient.QueueLen | src/redis/client.ts:142-144 | `len` fails on a stream key and is the list length otherwise (0 for a missing key) |
| RedisClient.QueueFrame | src/redis/client.ts:157-180 | `pop` and `push` touch their own key only and never leave an empty list stored |
| RedisClient.QueueErrors | src/redis/client.ts:157-180 | the MULTI blocks throw the first command error: WRONGTYPE on a stream key, and a wrong-arity LPUSH without items; otherwise they succeed |
| RedisClient.HasIff | src/redis/client.ts:146-155 | `has(count)` is true iff the key exists (the list is non-empty) and its length is at least `count` |
| RedisClient.PopTakesOldest | src/redis/client.ts:157-170 | `pop(count)` with count ≥ 1 returns the last min(count, len) items with the oldest last, leaves the first len − count, remaining ++ returned == old, and count ≥ len removes the key |
| RedisClient.PopZero | src/redis/client.ts:164-165 | `pop` with count 0 returns the whole list and removes nothing |
| RedisClient.PushKeepsNewest | src/redis/client.ts:172-177 | `push(items)` leaves the first maxlen+1 items of reverse(items) ++ old: at most maxlen+1 items, newest at the head, overflow drops the oldest |
| RedisClient.PushFifo | src/redis/client.ts:172-177 | a single-item push below capacity appends to the oldest-first view of the list |
| RedisClient.PopFifo | src/redis/client.ts:157-170 | a count-1 pop returns the oldest item, and returned ++ rest is the old oldest-first view |
| RedisClient.Fifo | src/redis/client.ts:157-180 | with single-item pushes, count-1 pops and never more than maxlen+1 held items, the popped items followed by what is left are the old contents followed by the pushed items: items come out in push order |
| RedisClient.Queue.constructor | src/redis/client.ts:134-140 | `maxlen` defaults to 100 |
| RedisClient.Queue.Len | src/redis/client.ts:142-144 | LLEN of the key, failing on a stream |
| RedisClient.Queue.Has | src/redis/client.ts:146-155 | key existence and LLEN ≥ count, with count defaulting to 1 |
| RedisClient.Queue.Pop | src/redis/client.ts:157-170 | the store after and the result are those of LRANGE key -count -1 and LTRIM key 0 -count-1 in one block |
| RedisClient.Queue.Push | src/redis/client.ts:172-180 | the store after and the result are those of LPUSH and LTRIM key 0 maxlen in one block |
| RedisClient.FormatSpec | src/redis/client.ts:65-71 | `formatMessageData` yields 2·(number of keys) elements alternating key and value |
| RedisClient.FormatPairs | src/redis/client.ts:57-71 | grouping the formatted array by 2 gives one [key, value] pair per entry, in order |
| RedisClient.ParseFormatFrom | src/redis/client.ts:57-63 | parsing formatted pairs into an object appends them after its entries |
| RedisClient.ParseFormat | src/redis/client.ts:57-71 | `parseMessageData(formatMessageData(d)) == d` |
| RedisClient.ParseDistinct | src/redis/client.ts:57-63 | parsing builds an object with distinct keys |
| RedisClient.XAddAppends | src/redis/client.ts:88-96 | `publish` appends exactly one entry carrying the formatted fields, keeps at most `maxlen` entries (the newest) and touches no other key |
| RedisClient.WithoutId | src/redis/client.ts:126-128 | XDEL removes exactly the entries with that id |
| RedisClient.MQ.constructor | src/redis/client.ts:48-55 | `maxlen` defaults to 100 and `block` to 60 |
| RedisClient.MQ.FormatMessageData | src/redis/client.ts:65-71 | the loop builds the alternating key/value array |
| RedisClient.MQ.ParseMessageData | src/redis/client.ts:57-63 | the loop over pairs builds the object the parse function describes |
| RedisClient.MQ.Publish | src/redis/client.ts:88-96 | the store after is that of one XADD with MAXLEN |
| RedisClient.MQ.Delete | src/redis/client.ts:126-128 | the store after is that of one XDEL |
| Bus.MsgBus.constructor | src/msgbus.ts:10-18 | `mqMaxlen` and `queueMaxlen` default to 100, and the registry starts empty |
| Bus.MsgBus.HasData | src/msgbus.ts:40-46 | the queue's `has` on the key, with count defaulting to 1 |
| Bus.MsgBus.GetData | src/msgbus.ts:48-56 | pops `count` (default 1) items; returns the array when count > 1, otherwise its first item, or undefined when nothing was popped |
| Bus.MsgBus.SendData | src/msgbus.ts:58-60 | pushes exactly the one item onto the key's queue with maxlen `queueMaxlen` |
| Bus.MsgBus.SendEvent | src/msgbus.ts:62-64 | publishes exactly one entry on the key's stream with maxlen `mqMaxlen` |
| Bus.MsgBus.AddListener | src/msgbus.ts:66-89 | the registry after is: remove the key's listeners, then hook one new live loop |
| Bus.MsgBus.RemoveListener | src/msgbus.ts:91-95 | the registry after is: the key's hooks run (setting their loops' `remove` flags), then the key is cleared |
| Bus.MsgBus.HasListenersNow | src/msgbus.ts:97-99 | true iff the key has a cancel hook |
| Bus.MsgBus.ListenerStep | src/msgbus.ts:74-85 | one turn of a loop: stop if flagged, otherwise delete the events of the batch whose handler completed |
| Bus.AddListenerReplaces | src/msgbus.ts:66-71 | after `addListener(k, h)` every earlier loop on k is flagged, k has exactly one hook and one live loop, `hasListeners(k)` holds, and other keys and loops are unchanged |
| Bus.RemoveListenerCancels | src/msgbus.ts:91-95 | after `removeListener(k)` every loop on k is flagged, `hasListeners(k)` is false, and other keys and loops are unchanged |
| Bus.ListenerTurnDeletes | src/msgbus.ts:74-82 | a flagged loop returns before reading; otherwise an event is deleted iff its handler completed |
| Bus.Completed | src/msgbus.ts:77-82 | the ids deleted are exactly those of the batch events whose handler completed |
| Bus.DeleteAllEntries | src/msgbus.ts:80 | deleting those ids removes exactly those entries and touches no other key |
| Context.MidExtendsEid | src/context.ts:22-49 | `eidString() == network + sep + node` and `midString(p) == eidString() + sep + p` |
| Context.MidIsNotEid | src/context.ts:34-49 | with a non-empty separator a port key is never its node's event key |
| Context.EidIsListenerKey | src/context.ts:46-49 | under the default separator the event key equals `network + "." + node` as a template string prints it (the key the network listens on) iff neither id is null or undefined; `join` prints those as "" |
| Context.QualifiedKeys | src/context.ts:112-115 | a message id is addressed with "." whatever the context's separator, the same from every node, and its event key prefixes its port key |
| Context.DeliverWritesOnce | src/context.ts:107-119 | a data write pushes exactly one item at the head of the port queue and publishes exactly one trigger entry on the node's stream, touching nothing else |
| Context.Input.constructor | src/context.ts:58-73 | separator defaults to "." and fromKey to "from"; the source and target nodes take the context separator unless they give their own |
| Context.Input.HasData | src/context.ts:77-89 | `has` on the source node's port key (or on the message id's key), count defaulting to 1; the same holds for the copy at src/network.ts:240-252 |
| Context.Input.GetData | src/context.ts:91-103 | `getData` on the source node's port key (or on the message id's key); likewise the copy at src/network.ts:254-266 |
| Context.Output.constructor | src/context.ts:58-73 | the same defaults as the input half |
| Context.Output.SendData | src/context.ts:107-119 | one bus `sendData` on the target's port key, then one trigger on the same node's event key; a failed push stops before the trigger; likewise the copy at src/network.ts:270-285 |
| Context.Output.Send | src/context.ts:121-127 | `sendData(fromKey, { network, node, data })` with the source's network and node; likewise the copy at src/network.ts:287-293 |
| Context.Output.SendError | src/context.ts:129-135 | the same with an `error` field; likewise the copy at src/network.ts:295-301 |
| Graphs.Split | src/graph.ts:44 | `split` always yields at least one piece |
| Graphs.CpRoundTrip | src/graph.ts:43-50 | `cpToString(cp) == node + "." + port` and `cpFromString(cpToString(cp)) == cp` when neither part contains "." |
| Graphs.ConnectionsOf | src/graph.ts:31-36 | `connections` maps `process` to `node`, keeps order and count, and a missing field gives [] |
| Graphs.NewGraph | src/graph.ts:8-18 | the constructor's loop builds the route index of the connections |
| Graphs.RouteIndexTargets | src/graph.ts:8-18 | each route list holds the targets of the connections from its key in connection order, and a key has a list iff some connection leaves from it |
| Graphs.NextPorts | src/graph.ts:38-40 | `getNextPorts(np)` lists the target of every connection whose source has np's key, in order, and [] when none does |
| Graphs.RouteCount | src/graph.ts:8-18 | the route lists have distinct keys and together hold exactly one entry per connection |
| Graphs.KeyCollision | src/graph.ts:48-50 | node "a.b" port "c" and node "a" port "b.c" share the key "a.b.c" and so one route list |
| Graphs.NodeId | src/graph.ts:24-29 | a node's id is its key unless its attributes carry their own `id`, which wins |
| Graphs.NodesPerProcess | src/graph.ts:24-29 | `nodes` fails exactly on null/undefined processes; otherwise it has one node per process, in key order, node i's `id` is its attributes' `id` when they have one and the process key otherwise, and every attribute of process i is read back from node i |
| Components.NewComponentId | src/components.ts:8-17 | `id` is `options.id` when given, otherwise the generated uuid |
| Components.NewRouterFromKey | src/components.ts:33-38 | the router's `fromKey` defaults to "from" and can be overridden |
| Components.PortWrites | src/components.ts:50-52 | one write per next port of `{node, port}`, addressed to the envelope's network and the target's node and port |
| Components.RouteWritesCount | src/components.ts:47-55 | the number of writes is the sum over data ports of their next ports; a port without a route adds none |
| Components.RouteWritesExact | src/components.ts:46-55 | a write is issued iff it carries `data[port]` to a next port of some data port, and every destination uses the envelope's network |
| Components.FanoutExample | src/components.ts:47-55 | with A.out connected to B.in and C.in, `{out: 42}` is written to both |
| Components.EmptyFromQueue | src/components.ts:45-46 | as written an empty from-queue makes `process` throw a TypeError; with the guard awaited it does nothing |
| Components.GuardPasses | src/components.ts:44-56 | when the from-queue holds data, the awaited guard and the code as written behave the same |
| Components.RouterProcess | src/components.ts:44-56 | reads the from-key, pops one envelope when the queue has data, and delivers the fan-out writes (the corrected guard); the router copy at src/network.ts:144-156 is the same code |
| Components.DeliverAllFrame | src/components.ts:47-55 | on a store where the target queues hold no stream and the target streams no list, every fan-out write succeeds and no key other than the written queues and streams changes |
| Components.DeliverAllHeads | src/context.ts:107-118 | when no two writes share a queue, each queue afterwards is the written value followed by its old items, trimmed to `maxlen + 1` |
| Components.DeliverAllStreams | src/context.ts:107-118 | every target's event stream holds a stream afterwards (the trigger was published there) |
| Components.DeliverAllOtherQueues | src/components.ts:47-55 | the fan-out changes no queue other than the ones it writes: the contents of every other key are what they were |
| Components.FanoutExampleStore | src/components.ts:47-55 | with A.out connected to B.in and C.in, `{out: 42}` into an empty store leaves 42 in the queues n.B.in and n.C.in and nothing in any other queue; only the streams n.B and n.C appear besides |
| Components.DeliverWrites | src/components.ts:47-55 | performs the writes one by one and returns the first error |
| Networks.DefaultTable | src/networks.ts:22-26 | the table maps "default" to the base class and the router option to the Router class, and has no other keys |
| Networks.Network.constructor | src/networks.ts:16-29 | id defaults to a uuid, router to "router", running to false, the table is built, the node map is empty and a new bus is made when none is given |
| Networks.NewNetwork | src/networks.ts:16-36 | construction then `loadFromGraph` and `loadNodes`; it throws iff a graph without processes is given |
| Networks.ListenerKeyOrdinary | src/networks.ts:63 | a node's listener key `${id}.${nodeId}` contains ".", so it is never "error", "newListener" or "removeListener"; the legacy network uses the same key (src/network.ts:95) |
| Networks.AddNodeEffect | src/networks.ts:57-70 | `addNode` stores the node under its id, leaves exactly one fresh live loop on `id.nodeId`, flags the older ones, leaves other keys alone, and calls `setup` iff running |
| Networks.RemoveNodeEffect | src/networks.ts:72-78 | `removeNode` returns whether the id was present, deletes it, leaves no listener on its key, leaves other entries alone and calls `teardown` iff running |
| Networks.AddThenRemove | src/networks.ts:57-78 | adding a node under a fresh id, then removing it, restores the node map and leaves no listener |
| Networks.ReAdd | src/networks.ts:125-129 | remove then add of one node stores it with exactly one fresh hook and logs teardown then setup when running |
| Networks.Network.AddNode | src/networks.ts:57-70 | returns the node; the state after is the `addNode` effect |
| Networks.Network.RemoveNode | src/networks.ts:72-78 | the presence flag and the state after are the `removeNode` effect |
| Networks.TypedDistinct | src/networks.ts:81-84 | `type` defaults to "default" and the options' `id` is kept |
| Networks.TableSelected | src/networks.ts:85-94 | a non-null factory result is returned as is and draws no uuid; otherwise the table's class for the type is built (base class for an unknown type), with the options' id or a fresh uuid |
| Networks.RouterSelected | src/networks.ts:102-110 | without a factory and with the default table the router options build a Router whose id is the router option and whose fromKey is "from" |
| Networks.Network.GetComponent | src/networks.ts:80-95 | returns the selected component; only a constructed one draws a uuid |
| Networks.SelectedId | src/networks.ts:99-101 | without a factory a graph node is added under its own id |
| Networks.GraphNodesIdentified | src/graph.ts:24-29 | graph nodes are objects with distinct keys and an `id` |
| Networks.AddEachLive | src/networks.ts:99-101 | adding graph nodes keeps live ids live and the registry consistent; without a factory each identified node becomes live under its id |
| Networks.AddRouterLive | src/networks.ts:102-110 | adding the router keeps live ids live and makes the router live |
| Networks.AddEachKeys | src/networks.ts:99-101 | without a factory, adding graph nodes stores no id other than theirs |
| Networks.LoadFromGraphLive | src/networks.ts:97-111 | for any factory `loadFromGraph` stores the graph, fails iff there are no processes, and makes the router live when the router option is truthy; without a factory it also makes every graph node live, and with a falsy router option every id stored afterwards was stored before or is a graph node's id |
| Networks.Network.AddAll | src/networks.ts:99-101 | the loop adds each node's component in order |
| Networks.Network.LoadFromGraph | src/networks.ts:97-111 | the result and the state after are those of `loadFromGraph` |
| Networks.LoadNodesLive | src/networks.ts:138-142 | after `loadNodes` every given node is live under its id and live ids stay live |
| Networks.Network.LoadNodes | src/networks.ts:138-142 | the loop adds each node in order |
| Networks.RemoveEachNodes | src/networks.ts:121-124 | without a factory the `removed` phase deletes every removed node's id and leaves every other id's entry alone |
| Networks.RemoveEachUnhooks | src/networks.ts:121-124 | without a factory, after the `removed` phase no removed id has a listener, and no key gains one |
| Networks.ReAddLiveSince | src/networks.ts:125-129 | remove then add of one node leaves its id live with exactly one hook, on the newest loop, and keeps other ids that had one hook so |
| Networks.UpdateEachLive | src/networks.ts:125-129 | without a factory, after the `updated` phase each updated id is live with exactly one hook, on a loop this phase started; other ids keep their entries and their single hook; the registry stays consistent |
| Networks.HotReloadRouterAbsent | src/networks.ts:114-134 | without a factory, from the router's removal on, at every step of the `removed`, `updated` and `added` phases the router's id is absent from the node map, unless a patch node has that id |
| Networks.UpdateFromGraphNodes | src/networks.ts:113-136 | without a factory, after `updateFromGraph` a removed id that no later phase re-adds (and not the router's) is deleted and not live; each updated id is live with exactly one hook on a loop the update started; an id no patch node and not the router has keeps its entry |
| Networks.UpdateFromGraphEffect | src/networks.ts:113-136 | after `updateFromGraph` the new graph is stored, the router built with it is the newest live loop on its key, and, without a factory, each added node is live |
| Networks.Network.RemoveAll | src/networks.ts:121-124 | the loop removes each `removed` node in order |
| Networks.Network.UpdateAll | src/networks.ts:125-129 | the loop removes then re-adds each `updated` node in order |
| Networks.Network.UpdateFromGraph | src/networks.ts:113-136 | removes the router, removes `removed`, re-adds `updated`, adds `added`, adds the new router, stores the graph, in that order |
| Networks.StartStop | src/networks.ts:144-162 | `start`/`stop` are idempotent, set/clear running, call each hook once and leave nodes and listeners alone; start then stop returns to the start state plus the hooks |
| Networks.SetupOnce | src/networks.ts:144-154 | a node added before or after `start` gets exactly one `setup` |
| Networks.Network.Start | src/networks.ts:144-154 | no-op when running; otherwise sets the flag and logs each node's `setup` |
| Networks.Network.Stop | src/networks.ts:156-162 | no-op when stopped; otherwise clears the flag and logs each node's `teardown` |
| Networks.SendReachesRouter | src/networks.ts:58-65 | without a factory and with the default table, a node's `send` lands on the router's from-port queue, and its trigger reaches the router's listener key iff neither the network id nor the router option is null or undefined |
| LegacyNetworks.AddRemoveComponent | src/network.ts:41-48 | `addComponent` stores under `c.id`, replacing an entry and touching no other; null throws; `removeComponent` returns presence and deletes; add then remove under a fresh id restores the map |
| LegacyNetworks.LegacyNetwork.AddComponent | src/network.ts:41-44 | the state after is the `addComponent` effect |
| LegacyNetworks.LegacyNetwork.RemoveComponent | src/network.ts:46-48 | the presence flag and the state after are the `removeComponent` effect |
| LegacyNetworks.GetComponentLegacy | src/network.ts:50-65 | a set factory's result is returned whatever it is, null included, with no uuid drawn; otherwise the table class (base class fallback) with the options' id or a uuid |
| LegacyNetworks.DefaultIsTest | src/network.ts:18-22 | the legacy table maps "default" to the test component and the router option to the Router |
| LegacyNetworks.LegacyNetwork.GetComponent | src/network.ts:50-65 | the result and the uuid counter after are those of `getComponent` |
| LegacyNetworks.NullComponentAborts | src/network.ts:67-70 | a factory returning null for the first node makes `loadFromGraph` throw with the state unchanged |
| LegacyNetworks.AddStep | src/network.ts:68-70 | without a factory one node step succeeds, keeps stored ids and stores the node under its id |
| LegacyNetworks.AddEachLegacyKeys | src/network.ts:68-70 | without a factory all graph nodes are stored under their ids, earlier ids stay, and no listener or hook is touched |
| LegacyNetworks.AddEachLegacyFrame | src/network.ts:68-70 | whatever the factory returns, adding graph nodes keeps the stored ids and touches no listener, hook or log |
| LegacyNetworks.LegacyLoadFromGraphFrame | src/network.ts:67-80 | whatever the factory returns, `loadFromGraph` fails with the state unchanged when there are no processes, keeps stored ids and touches no listener, hook or log |
| LegacyNetworks.LegacyLoadFromGraphKeys | src/network.ts:67-80 | for any factory `loadFromGraph` fails with the state unchanged when there are no processes, keeps stored ids and wires no listener; without a factory it fails only then, stores every node and, iff the router option is truthy, the router, and with a falsy router option every id stored afterwards was stored before or is a graph node's id |
| LegacyNetworks.LegacyNetwork.LoadFromGraph | src/network.ts:67-80 | the result and the state after are those of `loadFromGraph`; the graph is not stored |
| LegacyNetworks.LegacyNetwork.LoadNodes | src/network.ts:82-86 | the loop adds each component in order |
| LegacyNetworks.PutAllKeeps | src/network.ts:82-86 | an id none of the loaded components has keeps its entry |
| LegacyNetworks.PutAllLastWins | src/network.ts:82-86 | each loaded component is stored under its id unless a later one has the same id |
| LegacyNetworks.StartOneSingle | src/network.ts:94-97 | re-registering a node leaves exactly one hook on its key and keeps other single hooks |
| LegacyNetworks.StopOneRemoves | src/network.ts:103-104 | removing a node's listener leaves none on its key |
| LegacyNetworks.StartLog | src/network.ts:88-99 | `start` calls every node's `setup` in map order and leaves the node map alone |
| LegacyNetworks.StopLog | src/network.ts:101-106 | `stop` calls every node's `teardown` in map order and leaves the node map alone |
| LegacyNetworks.StartRegisters | src/network.ts:88-99 | after `start` (with no guard, however often it ran) each node's key has exactly one hook |
| LegacyNetworks.StopRemoves | src/network.ts:101-106 | after `stop` no node's key has a listener |
| LegacyNetworks.LegacyNetwork.Start | src/network.ts:88-99 | the loop sets each node up and then re-registers its listener |
| LegacyNetworks.LegacyNetwork.Stop | src/network.ts:101-106 | the loop removes each node's listener and then tears it down |
| LegacyNetworks.LegacyNetwork.constructor | src/network.ts:12-24 | id defaults to a uuid, router to "router", the legacy table is built and a new bus is made when none is given |
| LegacyNetworks.NewLegacyNetwork | src/network.ts:12-31 | construction then `loadFromGraph` and `loadNodes`; it throws only when the graph load throws |

## Left out

- Client construction (mock or real ioredis), `MQ.subscribe`, `read`, `range` and `len`: network I/O and an endless blocking loop. The listener loop is modelled as one batch step (`Bus.MsgBus.ListenerStep`).
- Stream ids are a counter in the store, not microsecond timestamps.
- `JSON.stringify`/`JSON.parse` around queue items and ioredis' stringifying of arguments are the identity.
- `KEYS key` is exact key existence, not a glob.
- `Promise.all` concurrency in the listener loop and the router fan-out is sequential here. The writes go in the order of the data keys and next ports.
- Integer-like keys, which JavaScript objects list first, are not reordered. Prototype lookups in the component table are not modelled.
- A user component class is assumed to call the base constructor, drawing one uuid. Its own `setup`, `process` and `teardown` are not modelled.
- uuid generation is a supply function `uuids` indexed by a counter in the network state.
- `setup` and `teardown` are recorded in a hook log instead of being run. `console.log` and `utils.delay` are left out.
- `Components.Test` (a `setInterval` timer) and `Components.Error` of the legacy file are left out. The test component exists only as a class name in the legacy table.
- `graph.diff` is not defined in the graph source; its `nodes` patch is an input to `updateFromGraph`.
- `Graph.load`, `Network.load` and `update` read files.
- `getTranspileComponent`/`TranspileNetwork` evaluate transpiled foreign code. They are an opaque factory function here.
- `src/component.ts` is the same base class as `src/components.ts` and is modelled once.
- Networks.UpdateFromGraphEffect: states the router, the added nodes and the stored graph. The effect on removed and updated nodes is stated by `Networks.UpdateFromGraphNodes`, and the router's absence during the node phases by `Networks.HotReloadRouterAbsent`. The added nodes' liveness assumes no component factory; the router and the stored graph hold for any factory.
- Networks.UpdateFromGraphNodes: assumes no component factory and patch nodes that carry an `id`. With a factory the ids of the components it returns are not known to the model.
- Networks.HotReloadRouterAbsent: the same assumptions as `Networks.UpdateFromGraphNodes`.
- Networks.RouterSelected: assumes no component factory and the default table. A factory's router is whatever it returns, so its id and fromKey are not known to the model. This matters because `TranspileNetwork` always passes a factory (src/networks.ts:189-195).
- Networks.AddEachLive: the per-node liveness assumes no component factory. Keeping live ids live holds for any factory.
- Networks.AddEachKeys: assumes no component factory, for the same reason as `Networks.UpdateFromGraphNodes`.
- Networks.LoadFromGraphLive: the per-node liveness and the converse for a falsy router option assume no component factory. The stored graph, the error condition and the router's liveness hold for any factory.
- Networks.RemoveEachNodes: assumes no component factory and removed nodes that carry an `id`.
- Networks.RemoveEachUnhooks: the same assumptions as `Networks.RemoveEachNodes`.
- Networks.UpdateEachLive: assumes no component factory and updated nodes that carry an `id`.
- Networks.SendReachesRouter: assumes no component factory and the default table, so that the router is a `Router` whose id is the router option.
- LegacyNetworks.LegacyLoadFromGraphKeys: with a factory it states only the no-processes error, the kept ids and the untouched registry and log. A null factory result throws part-way (`LegacyNetworks.NullComponentAborts` shows the first-node case), and the ids of the stored components are the factory's.
- JavaScript numbers are integers here (`Num(n: int)` in `js.dfy`). Fractions, NaN and Infinity do not occur, nor their string forms or truthiness.
- Bus.MsgBus.AddListener: bus keys go straight to Node's EventEmitter (src/msgbus.ts:69, 92-93), which gives three event names a meaning of its own; the model treats every key as an ordinary name. In the source, `addListener("error", h)` always throws, because its `removeListener("error")` emits "error" with no listener, and every later `addListener` for another key flags the loop of a "newListener" listener. Every key the networks use contains "." (`Networks.ListenerKeyOrdinary`), so none of this reaches them.
- Bus.MsgBus.RemoveListener: with the same reservation, in the source `removeListener("error")` without a listener throws, and removing another key's hook flags the loop of a "removeListener" listener.
- Bus.AddListenerReplaces: "other keys and loops are unchanged" does not hold in the source for a loop on "newListener".
- Bus.RemoveListenerCancels: "other keys and loops are unchanged" does not hold in the source for a loop on "removeListener".
- Networks.Network.constructor: loading the graph and nodes options is in `Networks.NewNetwork`, where a throw becomes an error result.
- LegacyNetworks.NewLegacyNetwork: states the error case and the configuration only, not the state after loading.
- Components.RouterProcess: models the guard as evidently intended (awaited). The code as written is `Components.RouterAsWritten` (see Findings).

## Findings

| source | as written | input that shows it | evidently intended | confidence | as-written member | corrected member |
|---|---|---|---|---|---|---|
| src/components.ts:45 (same at src/network.ts:145) | `if (!input.hasData(fromKey)) return;` tests the un-awaited Promise, which is always truthy, so the router always pops | a trigger on the router while its from-queue is empty: the pop returns [], `getData` returns undefined, and destructuring it throws a TypeError | return without doing anything when the from-queue has no data | high, not executed | Components.EmptyFromQueue | Components.RouterProcess |

`Components.RouterAsWritten` models the code as written. `Components.EmptyFromQueue` shows that it throws on an empty from-queue. `Components.RouterCorrected` awaits the guard. The same lemma proves that the corrected router does nothing on an empty from-queue. `Components.GuardPasses` proves that it agrees with the code as written whenever the queue holds data. `Components.RouterProcess` implements the corrected router.
