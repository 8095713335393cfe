/** JavaScript values as the runtime handles them: payloads, option bags and
    attribute bags are plain JSON-like values; objects and Maps keep their
    insertion order, which the model represents as association lists. */
module Js {

  datatype Option<T> = None | Some(value: T) {
    /** `{ x: dflt, ...options }` where `options.x` may be absent */
    function GetOr(dflt: T): T {
      match this
      case Some(v) => v
      case None => dflt
    }
  }

  /** What an operation throws: the Redis error replies the runtime can
      receive, and the JavaScript TypeError of reading a property of null or
      undefined */
  datatype Error =
    | WrongType   // a list command on a stream key or the other way round
    | WrongArity  // a command sent with a wrong number of arguments
    | OutOfRange  // a negative MAXLEN
    | TypeError

  /** A value or what was thrown instead */
  datatype Result<T> = Ok(value: T) | Err(error: Error)

  // ---------------------------------------------------------------------
  // Ordered association lists: JS objects (string keys) and Maps
  // ---------------------------------------------------------------------

  datatype Entry<K, V> = Entry(key: K, value: V)

  function Keys<K, V>(s: seq<Entry<K, V>>): (ks: seq<K>)
    ensures |ks| == |s|
    ensures forall i :: 0 <= i < |s| ==> ks[i] == s[i].key
  {
    if s == [] then [] else [s[0].key] + Keys(s[1..])
  }

  /** Every key occurs once, as in a JS object or Map */
  predicate Distinct<K(==), V>(s: seq<Entry<K, V>>) {
    s == [] || (s[0].key !in Keys(s[1..]) && Distinct(s[1..]))
  }

  lemma {:induction false} KeysAppend<K, V>(a: seq<Entry<K, V>>, b: seq<Entry<K, V>>)
    ensures Keys(a + b) == Keys(a) + Keys(b)
  {
    if a != [] {
      assert (a + b)[1..] == a[1..] + b;
      KeysAppend(a[1..], b);
    } else {
      assert a + b == b;
    }
  }

  /** In a list with distinct keys, a later key is not among the earlier ones */
  lemma {:induction false} DistinctSplit<K, V>(a: seq<Entry<K, V>>, b: seq<Entry<K, V>>)
    requires Distinct(a + b) && b != []
    ensures b[0].key !in Keys(a)
    ensures (a + [b[0]]) + b[1..] == a + b
  {
    assert (a + [b[0]]) + b[1..] == a + b;
    if a != [] {
      assert (a + b)[1..] == a[1..] + b;
      DistinctSplit(a[1..], b);
      KeysAppend(a[1..], b);
      assert Keys(a[1..] + b)[|a| - 1] == b[0].key;
    }
  }

  /** `obj[k]` / `map.get(k)` */
  function Get<K(==), V>(s: seq<Entry<K, V>>, k: K): (r: Option<V>)
    ensures r.Some? <==> k in Keys(s)
    ensures r.Some? ==> exists i :: 0 <= i < |s| && s[i] == Entry(k, r.value)
  {
    if s == [] then None
    else if s[0].key == k then Some(s[0].value)
    else Get(s[1..], k)
  }

  /** `obj[k] = v` / `map.set(k, v)`: an existing key keeps its position and
      takes the new value, a new key goes last */
  function Put<K(==,!new), V>(s: seq<Entry<K, V>>, k: K, v: V): (r: seq<Entry<K, V>>)
    ensures Get(r, k) == Some(v)
    ensures forall k' :: k' != k ==> Get(r, k') == Get(s, k')
  {
    if s == [] then [Entry(k, v)]
    else if s[0].key == k then [Entry(k, v)] + s[1..]
    else [s[0]] + Put(s[1..], k, v)
  }

  /** Assigning an existing key leaves the key order alone */
  lemma {:induction false} PutExisting<K(!new), V>(s: seq<Entry<K, V>>, k: K, v: V)
    requires k in Keys(s)
    ensures Keys(Put(s, k, v)) == Keys(s)
  {
    if s[0].key != k {
      PutExisting(s[1..], k, v);
    }
  }

  /** Assigning a new key appends it */
  lemma {:induction false} PutNew<K(!new), V>(s: seq<Entry<K, V>>, k: K, v: V)
    requires k !in Keys(s)
    ensures Put(s, k, v) == s + [Entry(k, v)]
  {
    if s != [] {
      PutNew(s[1..], k, v);
    }
  }

  /** Assignment keeps keys distinct */
  lemma {:induction false} PutDistinct<K(!new), V>(s: seq<Entry<K, V>>, k: K, v: V)
    requires Distinct(s)
    ensures Distinct(Put(s, k, v))
  {
    if s != [] && s[0].key != k {
      PutDistinct(s[1..], k, v);
      assert Get(Put(s[1..], k, v), s[0].key) == Get(s[1..], s[0].key);
    }
  }

  /** `map.delete(k)` */
  function Delete<K(==,!new), V>(s: seq<Entry<K, V>>, k: K): (r: seq<Entry<K, V>>)
    ensures Get(r, k) == None
    ensures forall k' :: k' != k ==> Get(r, k') == Get(s, k')
    ensures k !in Keys(s) ==> r == s
  {
    if s == [] then []
    else if s[0].key == k then Delete(s[1..], k)
    else [s[0]] + Delete(s[1..], k)
  }

  lemma {:induction false} DeleteDistinct<K(!new), V>(s: seq<Entry<K, V>>, k: K)
    requires Distinct(s)
    ensures Distinct(Delete(s, k))
  {
    if s != [] {
      DeleteDistinct(s[1..], k);
      if s[0].key != k {
        assert Get(Delete(s[1..], k), s[0].key) == Get(s[1..], s[0].key);
      }
    }
  }

  /** Deleting a key just added with `set` restores the map */
  lemma {:induction false} DeleteAfterPut<K(!new), V>(s: seq<Entry<K, V>>, k: K, v: V)
    requires k !in Keys(s)
    ensures Delete(Put(s, k, v), k) == s
  {
    PutNew(s, k, v);
    DeleteAppended(s, Entry(k, v));
  }

  lemma {:induction false} DeleteAppended<K(!new), V>(s: seq<Entry<K, V>>, e: Entry<K, V>)
    requires e.key !in Keys(s)
    ensures Delete(s + [e], e.key) == s
  {
    if s == [] {
      assert Delete([e][1..], e.key) == [];
    } else {
      assert (s + [e])[1..] == s[1..] + [e];
      assert s[0].key == Keys(s)[0];
      DeleteAppended(s[1..], e);
    }
  }

  /** `{ ...base, ...over }` */
  function Spread<V>(base: seq<Entry<string, V>>, over: seq<Entry<string, V>>): seq<Entry<string, V>>
    decreases over
  {
    if over == [] then base else Spread(Put(base, over[0].key, over[0].value), over[1..])
  }

  /** With distinct keys on the right, a spread property comes from the right
      when it is there and from the left otherwise. */
  lemma {:induction false} GetSpread<V>(base: seq<Entry<string, V>>, over: seq<Entry<string, V>>, k: string)
    requires Distinct(over)
    ensures Get(Spread(base, over), k) == if k in Keys(over) then Get(over, k) else Get(base, k)
    ensures Distinct(base) ==> Distinct(Spread(base, over))
    decreases over
  {
    if over != [] {
      var b' := Put(base, over[0].key, over[0].value);
      if Distinct(base) {
        PutDistinct(base, over[0].key, over[0].value);
      }
      GetSpread(b', over[1..], k);
    }
  }

  // ---------------------------------------------------------------------
  // Values
  // ---------------------------------------------------------------------

  /** A JavaScript value as far as the runtime looks into it; numbers are
      integers. */
  datatype Js =
    | Undefined
    | Null
    | Bool(b: bool)
    | Num(n: int)
    | Str(s: string)
    | Arr(items: seq<Js>)
    | Obj(props: seq<Entry<string, Js>>)

  function Digits(n: nat): (r: string)
    ensures |r| > 0
    ensures forall i :: 0 <= i < |r| ==> '0' <= r[i] <= '9'
  {
    var d := ['0' + (n % 10) as char];
    if n < 10 then d else Digits(n / 10) + d
  }

  /** Decimal notation of an integer, as `String(n)` prints it */
  function IntToString(n: int): string {
    if n < 0 then "-" + Digits(-n) else Digits(n)
  }

  /** `String(v)`, also what a template literal `${v}` and a property key
      conversion produce */
  function String(v: Js): string {
    match v
    case Undefined => "undefined"
    case Null => "null"
    case Bool(b) => if b then "true" else "false"
    case Num(n) => IntToString(n)
    case Str(s) => s
    case Arr(items) => JoinText(items, ",")
    case Obj(_) => "[object Object]"
  }

  /** `parts.join(sep)`: `null` and `undefined` elements print as "" */
  function JoinText(parts: seq<Js>, sep: string): string {
    if parts == [] then ""
    else
      var head := if parts[0].Undefined? || parts[0].Null? then "" else String(parts[0]);
      if |parts| == 1 then head else head + sep + JoinText(parts[1..], sep)
  }

  /** The text an element contributes to `join` */
  function PartText(v: Js): string {
    if v.Undefined? || v.Null? then "" else String(v)
  }

  function Indexed(items: seq<Js>): (r: seq<Entry<string, Js>>)
    ensures |r| == |items|
    ensures forall i :: 0 <= i < |r| ==> r[i] == Entry(IntToString(i), items[i])
  {
    seq(|items|, i requires 0 <= i < |items| => Entry(IntToString(i), items[i]))
  }

  /** JavaScript truthiness: `undefined`, `null`, `false`, `0` and `""` are
      falsy, everything else is truthy */
  predicate Truthy(v: Js) {
    match v
    case Undefined => false
    case Null => false
    case Bool(b) => b
    case Num(n) => n != 0
    case Str(s) => s != ""
    case _ => true
  }

  /** The own enumerable properties of `v`, in enumeration order: what
      `{ ...v }` copies and what `Object.keys(v)` lists */
  function OwnEntries(v: Js): seq<Entry<string, Js>> {
    match v
    case Obj(props) => props
    case Arr(items) => Indexed(items)
    case Str(s) => Indexed(seq(|s|, i requires 0 <= i < |s| => Str([s[i]])))
    case _ => []
  }

  /** `Object.keys(v)` with the values: a TypeError (None) on null and undefined */
  function ObjectEntries(v: Js): (r: Option<seq<Entry<string, Js>>>)
    ensures r.None? <==> v.Undefined? || v.Null?
    ensures r.Some? ==> r.value == OwnEntries(v)
  {
    if v.Undefined? || v.Null? then None else Some(OwnEntries(v))
  }

  /** `v.name` on an object; other values have none of the properties the
      runtime reads */
  function GetProp(v: Js, name: string): Js {
    if v.Obj? then Get(v.props, name).GetOr(Undefined) else Undefined
  }
}
