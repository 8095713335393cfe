/** The Redis client of the runtime: a bounded per-port queue built from list
    commands, and the stream field codec of the message queue. The store is a
    map from keys to lists and streams; a list keeps its head (the side LPUSH
    writes to) at index 0. */
module RedisClient {
  import opened Js
  import Utils

  // ---------------------------------------------------------------------
  // The store
  // ---------------------------------------------------------------------

  /** A stream entry: its id and its flat field/value argument list */
  datatype StreamEntry = StreamEntry(id: nat, fields: seq<Js>)

  datatype Value = List(items: seq<Js>) | Stream(entries: seq<StreamEntry>)

  /** All keys of the store, and the id the next XADD will assign */
  datatype StoreState = StoreState(keys: map<string, Value>, nextId: nat)

  /** What a command, or a MULTI of commands, replies and leaves behind */
  datatype Reply<T> = Reply(result: Result<T>, after: StoreState)

  function Lookup(st: StoreState, key: string): Option<Value> {
    if key in st.keys then Some(st.keys[key]) else None
  }

  /** Redis removes a list key once the list is empty */
  function Stored(st: StoreState, key: string, v: Option<Value>): (r: StoreState)
    ensures Lookup(r, key) == (if v == Some(List([])) then None else v)
    ensures forall k :: k != key ==> Lookup(r, k) == Lookup(st, k)
    ensures r.nextId == st.nextId
  {
    match v
    case Some(x) => if x == List([]) then st.(keys := st.keys - {key}) else st.(keys := st.keys[key := x])
    case None => st.(keys := st.keys - {key})
  }

  /** The list at `key` as the queue sees it; an absent key is an empty list */
  function Contents(st: StoreState, key: string): seq<Js> {
    match Lookup(st, key)
    case Some(List(items)) => items
    case _ => []
  }

  predicate HoldsStream(st: StoreState, key: string) {
    Lookup(st, key).Some? && Lookup(st, key).value.Stream?
  }

  /** No empty list is ever stored */
  predicate NoEmptyLists(st: StoreState) {
    forall k :: k in st.keys ==> st.keys[k] != List([])
  }

  function Reverse<T>(s: seq<T>): (r: seq<T>)
    ensures |r| == |s|
    ensures forall i :: 0 <= i < |s| ==> r[i] == s[|s| - 1 - i]
  {
    if s == [] then [] else Reverse(s[1..]) + [s[0]]
  }

  lemma {:induction false} ReverseAppend<T>(a: seq<T>, b: seq<T>)
    ensures Reverse(a + b) == Reverse(b) + Reverse(a)
  {
    var l, r := Reverse(a + b), Reverse(b) + Reverse(a);
    assert |l| == |r|;
    forall i | 0 <= i < |l| ensures l[i] == r[i] {
      if i < |b| {
        assert l[i] == (a + b)[|a| + |b| - 1 - i];
      }
    }
  }

  // ---------------------------------------------------------------------
  // List commands
  // ---------------------------------------------------------------------

  /** A list index as LRANGE and LTRIM read it: a negative one counts from
      the end */
  function Offset(i: int, len: nat): int {
    if i < 0 then len + i else i
  }

  /** The half-open range of positions that `start stop` selects: start is
      raised to 0, stop lowered to len - 1, and a start past stop or past
      the end selects nothing */
  function Window(start: int, stop: int, len: nat): (w: (nat, nat))
    ensures w.0 <= w.1 <= len
    ensures w.0 < w.1 <==> (len > 0 && 0 <= Offset(stop, len) && Offset(start, len) < len
                            && Offset(start, len) <= Offset(stop, len))
  {
    var s := Offset(start, len);
    var e := Offset(stop, len);
    var lo := if s < 0 then 0 else s;
    var hi := if e >= len then len - 1 else e;
    if lo > hi || lo >= len then (0, 0) else (lo, hi + 1)
  }

  /** LRANGE key start stop */
  function LRange(v: Option<Value>, start: int, stop: int): Result<seq<Js>> {
    match v
    case None => Ok([])
    case Some(Stream(_)) => Err(WrongType)
    case Some(List(items)) =>
      var w := Window(start, stop, |items|);
      Ok(items[w.0..w.1])
  }

  /** LTRIM key start stop: the value left at the key */
  function LTrim(v: Option<Value>, start: int, stop: int): Result<Option<Value>> {
    match v
    case None => Ok(None)
    case Some(Stream(_)) => Err(WrongType)
    case Some(List(items)) =>
      var w := Window(start, stop, |items|);
      Ok(Some(List(items[w.0..w.1])))
  }

  /** LPUSH key x1 .. xn: each value in turn goes to the head */
  function LPush(v: Option<Value>, xs: seq<Js>): Result<Option<Value>> {
    match v
    case None => Ok(Some(List(Reverse(xs))))
    case Some(Stream(_)) => Err(WrongType)
    case Some(List(items)) => Ok(Some(List(Reverse(xs) + items)))
  }

  /** LLEN key */
  function LLen(v: Option<Value>): Result<int> {
    match v
    case None => Ok(0)
    case Some(Stream(_)) => Err(WrongType)
    case Some(List(items)) => Ok(|items|)
  }

  /** Runs one list command of a MULTI block: the key changes only when the
      command succeeds */
  function Apply(st: StoreState, key: string, r: Result<Option<Value>>): StoreState {
    if r.Ok? then Stored(st, key, r.value) else st
  }

  /** The first error of a MULTI block of two commands, as `err1 || err2` */
  function FirstError<A, B, C>(r1: Result<A>, r2: Result<B>, ok: C): Result<C> {
    if r1.Err? then Err(r1.error) else if r2.Err? then Err(r2.error) else Ok(ok)
  }

  // ---------------------------------------------------------------------
  // The queue
  // ---------------------------------------------------------------------

  const DefaultQueueMaxlen := 100

  /** `len()` */
  function QueueLen(st: StoreState, key: string): (r: Result<int>)
    ensures r == (if HoldsStream(st, key) then Err(WrongType) else Ok(|Contents(st, key)|))
  {
    LLen(Lookup(st, key))
  }

  /** `has({count})`: the key exists (KEYS, taken as an exact match) and the
      list holds at least `count` items; LLEN is not sent when the key is
      absent */
  function QueueHas(st: StoreState, key: string, count: int): Result<bool> {
    if key !in st.keys then Ok(false)
    else
      var n := LLen(Lookup(st, key));
      if n.Err? then Err(n.error) else Ok(n.value >= count)
  }

  /** `pop({count})`: MULTI; LRANGE key -count -1; LTRIM key 0 -count-1; EXEC */
  function QueuePop(st: StoreState, key: string, count: int): Reply<seq<Js>> {
    var range := LRange(Lookup(st, key), -count, -1);
    var trim := LTrim(Lookup(st, key), 0, -count - 1);
    var after := Apply(st, key, trim);
    if range.Err? then Reply(Err(range.error), after)
    else Reply(FirstError(range, trim, range.value), after)
  }

  /** `push(...items)`: MULTI; LPUSH key items; LTRIM key 0 maxlen; EXEC.
      LPUSH without values is refused when queued, which aborts the block */
  function QueuePush(st: StoreState, key: string, maxlen: int, items: seq<Js>): Reply<()> {
    if items == [] then Reply(Err(WrongArity), st)
    else
      var push := LPush(Lookup(st, key), items);
      var st1 := Apply(st, key, push);
      var trim := LTrim(Lookup(st1, key), 0, maxlen);
      Reply(FirstError(push, trim, ()), Apply(st1, key, trim))
  }

  /** Every queue operation touches its own key only and keeps the store
      free of empty lists */
  lemma QueueFrame(st: StoreState, key: string, maxlen: int, count: int, items: seq<Js>, k: string)
    requires k != key
    ensures Lookup(QueuePop(st, key, count).after, k) == Lookup(st, k)
    ensures Lookup(QueuePush(st, key, maxlen, items).after, k) == Lookup(st, k)
    ensures NoEmptyLists(st) ==> NoEmptyLists(QueuePop(st, key, count).after)
    ensures NoEmptyLists(st) ==> NoEmptyLists(QueuePush(st, key, maxlen, items).after)
  {
    ApplyKeeps(st, key, LTrim(Lookup(st, key), 0, -count - 1), k);
    if items != [] {
      var push := LPush(Lookup(st, key), items);
      var st1 := Apply(st, key, push);
      ApplyKeeps(st, key, push, k);
      ApplyKeeps(st1, key, LTrim(Lookup(st1, key), 0, maxlen), k);
    }
  }

  /** One command of a block leaves the other keys alone and stores no
      empty list */
  lemma ApplyKeeps(st: StoreState, key: string, r: Result<Option<Value>>, k: string)
    requires k != key
    ensures Lookup(Apply(st, key, r), k) == Lookup(st, k)
    ensures NoEmptyLists(st) ==> NoEmptyLists(Apply(st, key, r))
  {
    var t := Apply(st, key, r);
    if NoEmptyLists(st) {
      forall k' | k' in t.keys
        ensures t.keys[k'] != List([])
      {
        assert Lookup(t, k') == Some(t.keys[k']);
      }
    }
  }

  /** A stream at the key makes push and pop throw WRONGTYPE and change
      nothing; push without items throws and changes nothing */
  lemma QueueErrors(st: StoreState, key: string, maxlen: int, count: int, items: seq<Js>)
    ensures HoldsStream(st, key) ==> QueuePop(st, key, count) == Reply(Err(WrongType), st)
    ensures HoldsStream(st, key) && items != [] ==> QueuePush(st, key, maxlen, items) == Reply(Err(WrongType), st)
    ensures items == [] ==> QueuePush(st, key, maxlen, items) == Reply(Err(WrongArity), st)
    ensures !HoldsStream(st, key) ==> QueuePop(st, key, count).result.Ok?
    ensures !HoldsStream(st, key) && items != [] ==> QueuePush(st, key, maxlen, items).result.Ok?
  {
  }

  /** `has(count)` holds exactly when the list has at least one and at least
      `count` items */
  lemma {:induction false} HasIff(st: StoreState, key: string, count: int)
    requires NoEmptyLists(st) && !HoldsStream(st, key)
    ensures QueueHas(st, key, count).Ok?
    ensures QueueHas(st, key, count).value <==> |Contents(st, key)| >= 1 && |Contents(st, key)| >= count
  {
    if key in st.keys {
      assert st.keys[key] != List([]);
    }
  }

  /** Where `pop(count)` splits a list of n items: n - count, or 0 when
      count >= n */
  function Cut(n: nat, count: int): nat {
    if count >= n then 0 else n - count
  }

  /** `pop(count)` with count >= 1 returns the last min(count, len) items in
      list order, oldest last, and leaves the rest: remaining ++ returned is
      the old list. With count >= len that is the whole list, and the key is
      gone */
  lemma {:induction false} PopTakesOldest(st: StoreState, key: string, count: int)
    requires !HoldsStream(st, key) && count >= 1
    ensures QueuePop(st, key, count).result
         == Ok(Contents(st, key)[Cut(|Contents(st, key)|, count)..])
    ensures Contents(QueuePop(st, key, count).after, key)
         == Contents(st, key)[..Cut(|Contents(st, key)|, count)]
    ensures Contents(QueuePop(st, key, count).after, key) + QueuePop(st, key, count).result.value
         == Contents(st, key)
    ensures count >= |Contents(st, key)| ==> key !in QueuePop(st, key, count).after.keys
  {
    var l := Contents(st, key);
    var cut := Cut(|l|, count);
    var r := QueuePop(st, key, count);
    assert l == l[..cut] + l[cut..];
    if key in st.keys {
      assert st.keys[key] == List(l);
      if l != [] {
        assert Window(-count, -1, |l|) == (cut, |l|);
        assert Window(0, -count - 1, |l|) == (0, cut);
        assert LTrim(Lookup(st, key), 0, -count - 1) == Ok(Some(List(l[..cut])));
        assert l[cut..|l|] == l[cut..];
        assert LRange(Lookup(st, key), -count, -1) == Ok(l[cut..]);
        if cut == 0 {
          assert l[..cut] == [];
        }
      } else {
        assert r.after == Stored(st, key, Some(List([])));
      }
    }
  }

  /** `pop({count: 0})` is LRANGE 0 -1 and LTRIM 0 -1: it returns the whole
      list and removes nothing */
  lemma {:induction false} PopZero(st: StoreState, key: string)
    requires !HoldsStream(st, key) && NoEmptyLists(st)
    ensures QueuePop(st, key, 0) == Reply(Ok(Contents(st, key)), st)
  {
    var l := Contents(st, key);
    assert l[0..|l|] == l;
    if key in st.keys {
      assert st.keys[key] != List([]);
      assert st.keys == st.keys[key := List(l)];
    }
  }

  function Take<T>(s: seq<T>, n: nat): seq<T> {
    if n < |s| then s[..n] else s
  }

  /** `push(items)` leaves the first maxlen+1 items of reverse(items) ++ old:
      at most maxlen+1 items, the newest at the head, and an overflow drops
      the oldest items from the tail */
  lemma {:induction false} PushKeepsNewest(st: StoreState, key: string, maxlen: nat, items: seq<Js>)
    requires !HoldsStream(st, key) && items != []
    ensures QueuePush(st, key, maxlen, items).result == Ok(())
    ensures Contents(QueuePush(st, key, maxlen, items).after, key)
         == Take(Reverse(items) + Contents(st, key), maxlen + 1)
    ensures |Contents(QueuePush(st, key, maxlen, items).after, key)| <= maxlen + 1
  {
    var all := Reverse(items) + Contents(st, key);
    assert Reverse(items) + [] == Reverse(items);
    assert Lookup(Apply(st, key, LPush(Lookup(st, key), items)), key) == Some(List(all));
  }

  // ---------------------------------------------------------------------
  // FIFO order
  // ---------------------------------------------------------------------

  datatype QueueOp = PushOne(item: Js) | PopOne

  function Pushed(ops: seq<QueueOp>): seq<Js> {
    if ops == [] then []
    else (if ops[0].PushOne? then [ops[0].item] else []) + Pushed(ops[1..])
  }

  /** One single-item `push` or `pop()`: the state after it and the items it returned */
  function Step(st: StoreState, key: string, maxlen: int, op: QueueOp): (StoreState, seq<Js>) {
    match op
    case PushOne(x) => (QueuePush(st, key, maxlen, [x]).after, [])
    case PopOne =>
      var r := QueuePop(st, key, 1);
      (r.after, if r.result.Ok? then r.result.value else [])
  }

  /** The final state of a run of operations and all items popped, in order */
  function Run(st: StoreState, key: string, maxlen: int, ops: seq<QueueOp>): (StoreState, seq<Js>)
    decreases |ops|
  {
    if ops == [] then (st, [])
    else
      var s := Step(st, key, maxlen, ops[0]);
      var rest := Run(s.0, key, maxlen, ops[1..]);
      (rest.0, s.1 + rest.1)
  }

  /** No push of the run meets a full queue (more than maxlen items held) */
  predicate NeverFull(st: StoreState, key: string, maxlen: int, ops: seq<QueueOp>)
    decreases |ops|
  {
    ops == [] ||
    ((ops[0].PushOne? ==> |Contents(st, key)| <= maxlen)
     && NeverFull(Step(st, key, maxlen, ops[0]).0, key, maxlen, ops[1..]))
  }

  lemma PushFifo(st: StoreState, key: string, maxlen: int, x: Js)
    requires !HoldsStream(st, key) && |Contents(st, key)| <= maxlen
    ensures !HoldsStream(QueuePush(st, key, maxlen, [x]).after, key)
    ensures Reverse(Contents(QueuePush(st, key, maxlen, [x]).after, key)) == Reverse(Contents(st, key)) + [x]
  {
    PushKeepsNewest(st, key, maxlen, [x]);
    ReverseAppend([x], Contents(st, key));
  }

  lemma PopFifo(st: StoreState, key: string)
    requires !HoldsStream(st, key)
    ensures !HoldsStream(QueuePop(st, key, 1).after, key)
    ensures QueuePop(st, key, 1).result.Ok?
    ensures QueuePop(st, key, 1).result.value + Reverse(Contents(QueuePop(st, key, 1).after, key))
         == Reverse(Contents(st, key))
  {
    var l := Contents(st, key);
    var r := QueuePop(st, key, 1);
    PopTakesOldest(st, key, 1);
    if l != [] {
      var n := |l| - 1;
      var front := Contents(r.after, key);
      assert front == l[..n];
      assert r.result.value == [l[n]];
      assert l == front + [l[n]];
      ReverseAppend(front, [l[n]]);
      assert Reverse([l[n]]) == [l[n]];
    } else {
      assert r.result.value == [];
      assert Contents(r.after, key) == [];
    }
  }

  lemma StepFifo(st: StoreState, key: string, maxlen: int, op: QueueOp)
    requires !HoldsStream(st, key)
    requires op.PushOne? ==> |Contents(st, key)| <= maxlen
    ensures !HoldsStream(Step(st, key, maxlen, op).0, key)
    ensures Step(st, key, maxlen, op).1 + Reverse(Contents(Step(st, key, maxlen, op).0, key))
         == Reverse(Contents(st, key)) + (if op.PushOne? then [op.item] else [])
  {
    match op
    case PushOne(x) =>
      PushFifo(st, key, maxlen, x);
    case PopOne =>
      PopFifo(st, key);
  }

  lemma Assoc<T>(a: seq<T>, b: seq<T>, c: seq<T>)
    ensures (a + b) + c == a + (b + c)
  {
  }

  /** With single-item pushes, single pops and a queue that never
      overflows, items come out in the order they went in: everything popped
      followed by what is still queued (oldest first) is what was queued at
      the start followed by everything pushed */
  lemma {:induction false} Fifo(st: StoreState, key: string, maxlen: int, ops: seq<QueueOp>)
    requires !HoldsStream(st, key) && NeverFull(st, key, maxlen, ops)
    ensures Run(st, key, maxlen, ops).1 + Reverse(Contents(Run(st, key, maxlen, ops).0, key))
         == Reverse(Contents(st, key)) + Pushed(ops)
    decreases |ops|
  {
    if ops != [] {
      var s := Step(st, key, maxlen, ops[0]);
      var rest := Run(s.0, key, maxlen, ops[1..]);
      var mine := if ops[0].PushOne? then [ops[0].item] else [];
      assert Run(st, key, maxlen, ops) == (rest.0, s.1 + rest.1);
      assert Pushed(ops) == mine + Pushed(ops[1..]);
      StepFifo(st, key, maxlen, ops[0]);
      Fifo(s.0, key, maxlen, ops[1..]);
      ghost var later := Reverse(Contents(rest.0, key));
      ghost var middle := Reverse(Contents(s.0, key));
      ghost var first := Reverse(Contents(st, key));
      ghost var more := Pushed(ops[1..]);
      assert rest.1 + later == middle + more;
      assert s.1 + middle == first + mine;
      Assoc(s.1, rest.1, later);
      Assoc(s.1, middle, more);
      Assoc(first, mine, more);
    }
  }

  /** The queue of one port: its options are `{ maxlen: 100, ...options }` */
  class Store {
    var state: StoreState

    constructor (init: StoreState)
      ensures state == init
    {
      state := init;
    }
  }

  class Queue {
    const store: Store
    const key: string
    const maxlen: int

    constructor (store: Store, key: string, maxlen: Option<int>)
      ensures this.store == store && this.key == key
      ensures this.maxlen == maxlen.GetOr(DefaultQueueMaxlen)
    {
      this.store := store;
      this.key := key;
      this.maxlen := maxlen.GetOr(DefaultQueueMaxlen);
    }

    method Len() returns (r: Result<int>)
      ensures r == (if HoldsStream(store.state, key) then Err(WrongType) else Ok(|Contents(store.state, key)|))
    {
      r := LLen(Lookup(store.state, key));
    }

    /** `has(options)`, count defaulting to 1 */
    method Has(count: Option<int>) returns (r: Result<bool>)
      ensures r == QueueHas(store.state, key, count.GetOr(1))
    {
      var c := count.GetOr(1);
      if key !in store.state.keys {
        return Ok(false);
      }
      var n := Len();
      if n.Err? {
        return Err(n.error);
      }
      r := Ok(n.value >= c);
    }

    /** `pop(options)`, count defaulting to 1 */
    method Pop(count: Option<int>) returns (r: Result<seq<Js>>)
      modifies store
      ensures Reply(r, store.state) == QueuePop(old(store.state), key, count.GetOr(1))
    {
      var c := count.GetOr(1);
      var range := LRange(Lookup(store.state, key), -c, -1);
      var trim := LTrim(Lookup(store.state, key), 0, -c - 1);
      if trim.Ok? {
        store.state := Stored(store.state, key, trim.value);
      }
      r := FirstError(range, trim, if range.Ok? then range.value else []);
    }

    method Push(items: seq<Js>) returns (r: Result<()>)
      modifies store
      ensures Reply(r, store.state) == QueuePush(old(store.state), key, maxlen, items)
    {
      if items == [] {
        return Err(WrongArity);
      }
      var push := LPush(Lookup(store.state, key), items);
      if push.Ok? {
        store.state := Stored(store.state, key, push.value);
      }
      var trim := LTrim(Lookup(store.state, key), 0, maxlen);
      if trim.Ok? {
        store.state := Stored(store.state, key, trim.value);
      }
      r := FirstError(push, trim, ());
    }
  }

  // ---------------------------------------------------------------------
  // Streams and the field codec
  // ---------------------------------------------------------------------

  const DefaultMqMaxlen := 100
  const DefaultBlock := 60

  /** The newest n entries */
  function Last<T>(s: seq<T>, n: nat): seq<T> {
    if |s| > n then s[|s| - n..] else s
  }

  function XAppend(st: StoreState, key: string, maxlen: nat, before: seq<StreamEntry>, fields: seq<Js>): Reply<nat> {
    var kept := Last(before + [StreamEntry(st.nextId, fields)], maxlen);
    Reply(Ok(st.nextId), StoreState(st.keys[key := Stream(kept)], st.nextId + 1))
  }

  /** XADD key MAXLEN maxlen <id> f1 v1 ..: appends one entry with the next
      id and keeps the newest `maxlen` entries */
  function XAdd(st: StoreState, key: string, maxlen: int, fields: seq<Js>): Reply<nat> {
    if maxlen < 0 then Reply(Err(OutOfRange), st)
    else if fields == [] || |fields| % 2 == 1 then Reply(Err(WrongArity), st)
    else match Lookup(st, key)
      case Some(List(_)) => Reply(Err(WrongType), st)
      case Some(Stream(es)) => XAppend(st, key, maxlen, es, fields)
      case None => XAppend(st, key, maxlen, [], fields)
  }

  function WithoutId(entries: seq<StreamEntry>, id: nat): (r: seq<StreamEntry>)
    ensures forall e :: e in r <==> e in entries && e.id != id
    ensures |r| <= |entries|
  {
    if entries == [] then []
    else (if entries[0].id == id then [] else [entries[0]]) + WithoutId(entries[1..], id)
  }

  /** XDEL key id: the number of entries removed */
  function XDel(st: StoreState, key: string, id: nat): Reply<nat> {
    match Lookup(st, key)
    case None => Reply(Ok(0), st)
    case Some(List(_)) => Reply(Err(WrongType), st)
    case Some(Stream(es)) =>
      var kept := WithoutId(es, id);
      Reply(Ok(|es| - |kept|), st.(keys := st.keys[key := Stream(kept)]))
  }

  function Entries(st: StoreState, key: string): seq<StreamEntry> {
    match Lookup(st, key)
    case Some(Stream(es)) => es
    case _ => []
  }

  /** A publish with an even, non-empty field list and MAXLEN >= 1 appends
      exactly one entry carrying those fields, keeps at most `maxlen`
      entries and touches no other key */
  lemma {:induction false} XAddAppends(st: StoreState, key: string, maxlen: int, fields: seq<Js>, k: string)
    requires maxlen >= 1 && fields != [] && |fields| % 2 == 0
    requires !(Lookup(st, key).Some? && Lookup(st, key).value.List?)
    ensures var r := XAdd(st, key, maxlen, fields);
      && r.result == Ok(st.nextId)
      && var es := Entries(r.after, key);
         && 1 <= |es| <= maxlen
         && es[|es| - 1] == StreamEntry(st.nextId, fields)
         && es[..|es| - 1] == Last(Entries(st, key), maxlen - 1)
         && (k != key ==> Lookup(r.after, k) == Lookup(st, k))
  {
  }

  /** `formatMessageData(data)`: key, value, key, value, .. in enumeration
      order */
  function FormatSpec(data: seq<Entry<string, Js>>): (r: seq<Js>)
    ensures |r| == 2 * |data|
    ensures forall i :: 0 <= i < |data| ==> r[2 * i] == Str(data[i].key) && r[2 * i + 1] == data[i].value
  {
    if data == [] then []
    else [Str(data[0].key), data[0].value] + FormatSpec(data[1..])
  }

  /** Element i of a group, `undefined` past its end as in `const [k, v] = g` */
  function Elem(g: seq<Js>, i: nat): Js {
    if i < |g| then g[i] else Undefined
  }

  /** The object the parse loop builds from `obj` and the remaining groups */
  function ParseGroups(obj: seq<Entry<string, Js>>, groups: seq<seq<Js>>): seq<Entry<string, Js>>
    decreases |groups|
  {
    if groups == [] then obj
    else ParseGroups(Put(obj, String(Elem(groups[0], 0)), Elem(groups[0], 1)), groups[1..])
  }

  /** `parseMessageData(data)`: pairs up the reply and sets `obj[key] = value`
      for each pair; a later duplicate key overwrites in place, and an odd
      last key gets `undefined` */
  function ParseSpec(data: seq<Js>): seq<Entry<string, Js>> {
    ParseGroups([], Utils.Chunks(data, 2))
  }

  lemma {:induction false} FormatPairs(data: seq<Entry<string, Js>>)
    ensures data != [] ==>
      Utils.Chunks(FormatSpec(data), 2) == [[Str(data[0].key), data[0].value]] + Utils.Chunks(FormatSpec(data[1..]), 2)
    ensures data == [] ==> Utils.Chunks(FormatSpec(data), 2) == []
  {
    if data != [] {
      var f := FormatSpec(data);
      assert f[..2] == [Str(data[0].key), data[0].value];
      assert f[2..] == FormatSpec(data[1..]);
      if data[1..] == [] {
        assert FormatSpec(data[1..]) == [];
        assert f == [Str(data[0].key), data[0].value];
        assert Utils.Chunks(f, 2) == [f];
      }
    }
  }

  lemma {:induction false} ParseFormatFrom(acc: seq<Entry<string, Js>>, data: seq<Entry<string, Js>>)
    requires Distinct(acc + data)
    ensures ParseGroups(acc, Utils.Chunks(FormatSpec(data), 2)) == acc + data
    decreases |data|
  {
    FormatPairs(data);
    if data == [] {
      assert acc + data == acc;
    } else {
      var rest := Utils.Chunks(FormatSpec(data[1..]), 2);
      var g := [Str(data[0].key), data[0].value];
      assert ([g] + rest)[1..] == rest;
      assert String(Elem(g, 0)) == data[0].key && Elem(g, 1) == data[0].value;
      assert ParseGroups(acc, [g] + rest) == ParseGroups(Put(acc, data[0].key, data[0].value), rest);
      DistinctSplit(acc, data);
      PutNew(acc, data[0].key, data[0].value);
      assert Put(acc, data[0].key, data[0].value) == acc + [Entry(data[0].key, data[0].value)];
      ParseFormatFrom(acc + [data[0]], data[1..]);
    }
  }

  /** The codec round trip: parsing what was formatted gives back the object */
  lemma {:induction false} ParseFormat(data: seq<Entry<string, Js>>)
    requires Distinct(data)
    ensures ParseSpec(FormatSpec(data)) == data
  {
    assert [] + data == data;
    ParseFormatFrom([], data);
  }

  /** Parsing yields an object: every key occurs once, and it has at most
      one property per pair */
  lemma {:induction false} ParseDistinct(obj: seq<Entry<string, Js>>, groups: seq<seq<Js>>)
    requires Distinct(obj)
    ensures Distinct(ParseGroups(obj, groups))
    decreases |groups|
  {
    if groups != [] {
      PutDistinct(obj, String(Elem(groups[0], 0)), Elem(groups[0], 1));
      ParseDistinct(Put(obj, String(Elem(groups[0], 0)), Elem(groups[0], 1)), groups[1..]);
    }
  }

  /** The message queue of a stream key: its options are
      `{ maxlen: 100, block: 60, ...options }` */
  class MQ {
    const store: Store
    const key: string
    const maxlen: int
    const block: int

    constructor (store: Store, key: string, maxlen: Option<int>, block: Option<int>)
      ensures this.store == store && this.key == key
      ensures this.maxlen == maxlen.GetOr(DefaultMqMaxlen) && this.block == block.GetOr(DefaultBlock)
    {
      this.store := store;
      this.key := key;
      this.maxlen := maxlen.GetOr(DefaultMqMaxlen);
      this.block := block.GetOr(DefaultBlock);
    }

    /** `for (let key in data) array.push(key, data[key])` */
    method FormatMessageData(data: Js) returns (fields: seq<Js>)
      ensures fields == FormatSpec(OwnEntries(data))
    {
      var props := OwnEntries(data);
      fields := [];
      var i := 0;
      while i < |props|
        invariant 0 <= i <= |props|
        invariant fields + FormatSpec(props[i..]) == FormatSpec(props)
      {
        assert props[i..][1..] == props[i + 1..];
        Assoc(fields, [Str(props[i].key), props[i].value], FormatSpec(props[i + 1..]));
        fields := fields + [Str(props[i].key), props[i].value];
        i := i + 1;
      }
    }

    method ParseMessageData(data: seq<Js>) returns (obj: seq<Entry<string, Js>>)
      ensures obj == ParseSpec(data)
    {
      var groups := Utils.Group(data, 2);
      obj := [];
      var i := 0;
      while i < |groups|
        invariant 0 <= i <= |groups|
        invariant ParseGroups(obj, groups[i..]) == ParseSpec(data)
      {
        assert groups[i..][1..] == groups[i + 1..];
        var g := groups[i];
        obj := Put(obj, String(Elem(g, 0)), Elem(g, 1));
        i := i + 1;
      }
    }

    /** `publish(data)` */
    method Publish(data: Js) returns (r: Result<nat>)
      modifies store
      ensures Reply(r, store.state) == XAdd(old(store.state), key, maxlen, FormatSpec(OwnEntries(data)))
    {
      var fields := FormatMessageData(data);
      var reply := XAdd(store.state, key, maxlen, fields);
      store.state := reply.after;
      r := reply.result;
    }

    /** `delete(id)` */
    method Delete(id: nat) returns (r: Result<nat>)
      modifies store
      ensures Reply(r, store.state) == XDel(old(store.state), key, id)
    {
      var reply := XDel(store.state, key, id);
      store.state := reply.after;
      r := reply.result;
    }
  }
}
