/** The array helpers `group` and `flat`: cutting an array into consecutive
    chunks of a fixed size, and concatenating an array of arrays. */
module Utils {

  function Min(a: int, b: int): int { if a <= b then a else b }

  /** The chunks of `a`, each `chunk` long except a shorter last one */
  function Chunks<T>(a: seq<T>, chunk: nat): seq<seq<T>>
    requires chunk > 0
    decreases |a|
  {
    if a == [] then []
    else if |a| <= chunk then [a]
    else [a[..chunk]] + Chunks(a[chunk..], chunk)
  }

  /** The concatenation of a sequence of sequences, in order */
  function Concat<T>(g: seq<seq<T>>): seq<T> {
    if g == [] then [] else Concat(g[..|g| - 1]) + g[|g| - 1]
  }

  function SumLengths<T>(g: seq<seq<T>>): nat {
    if g == [] then 0 else SumLengths(g[..|g| - 1]) + |g[|g| - 1]|
  }

  /** `group(array, chunk)`: the loop advances `i` by `chunk` and pushes
      `array.slice(i, i + chunk)`; for chunk <= 0 the loop never ends
      unless the array is empty, and the only caller passes 2 */
  method Group<T>(a: seq<T>, chunk: nat) returns (result: seq<seq<T>>)
    requires chunk > 0
    ensures result == Chunks(a, chunk)
  {
    result := [];
    var i := 0;
    while i < |a|
      invariant 0 <= i <= |a|
      invariant result + Chunks(a[i..], chunk) == Chunks(a, chunk)
      decreases |a| - i
    {
      var j := Min(i + chunk, |a|);
      ghost var rest := a[i..];
      result := result + [a[i..j]];
      if i + chunk < |a| {
        assert rest[..chunk] == a[i..j] && rest[chunk..] == a[i + chunk..];
        assert Chunks(rest, chunk) == [a[i..j]] + Chunks(a[i + chunk..], chunk);
        i := i + chunk;
      } else {
        assert rest == a[i..j];
        assert a[|a|..] == [];
        i := |a|;
      }
    }
    assert a[|a|..] == [];
  }

  /** `flat(array)`: pushes the elements of each inner array in turn */
  method Flat<T>(g: seq<seq<T>>) returns (result: seq<T>)
    ensures result == Concat(g)
  {
    result := [];
    var i := 0;
    while i < |g|
      invariant 0 <= i <= |g|
      invariant result == Concat(g[..i])
    {
      assert g[..i + 1][..i] == g[..i];
      result := result + g[i];
      i := i + 1;
    }
    assert g[..|g|] == g;
  }

  lemma {:induction false} ConcatAppend<T>(g: seq<seq<T>>, h: seq<seq<T>>)
    ensures Concat(g + h) == Concat(g) + Concat(h)
    decreases |h|
  {
    if h != [] {
      var h' := h[..|h| - 1];
      assert (g + h)[..|g + h| - 1] == g + h';
      ConcatAppend(g, h');
    } else {
      assert g + h == g;
    }
  }

  /** `flat(group(a, chunk)) == a` */
  lemma {:induction false} ConcatChunks<T>(a: seq<T>, chunk: nat)
    requires chunk > 0
    ensures Concat(Chunks(a, chunk)) == a
    decreases |a|
  {
    if a == [] {
    } else if |a| <= chunk {
      assert Concat([a]) == Concat([]) + a;
    } else {
      ConcatChunks(a[chunk..], chunk);
      ConcatAppend([a[..chunk]], Chunks(a[chunk..], chunk));
      assert Concat([a[..chunk]]) == Concat([]) + a[..chunk];
      assert a[..chunk] + a[chunk..] == a;
    }
  }

  /** Every chunk but the last has exactly `chunk` elements; the last has
      between 1 and `chunk` */
  lemma {:induction false} ChunkSizes<T>(a: seq<T>, chunk: nat)
    requires chunk > 0
    ensures forall i :: 0 <= i < |Chunks(a, chunk)| - 1 ==> |Chunks(a, chunk)[i]| == chunk
    ensures a != [] ==> 1 <= |Chunks(a, chunk)[|Chunks(a, chunk)| - 1]| <= chunk
    decreases |a|
  {
    if a != [] && |a| > chunk {
      var rest := Chunks(a[chunk..], chunk);
      ChunkSizes(a[chunk..], chunk);
      assert Chunks(a, chunk) == [a[..chunk]] + rest;
      forall i | 0 <= i < |Chunks(a, chunk)| - 1
        ensures |Chunks(a, chunk)[i]| == chunk
      {
        if i > 0 {
          assert Chunks(a, chunk)[i] == rest[i - 1];
        }
      }
    }
  }

  /** `group([], k) == []`, and there are ceil(|a| / chunk) chunks */
  lemma {:induction false} ChunkCount<T>(a: seq<T>, chunk: nat)
    requires chunk > 0
    ensures |Chunks(a, chunk)| == (|a| + chunk - 1) / chunk
    ensures a == [] ==> Chunks(a, chunk) == []
    decreases |a|
  {
    if a == [] {
      DivUnique(chunk - 1, chunk, 0, chunk - 1);
    } else if |a| <= chunk {
      DivUnique(|a| + chunk - 1, chunk, 1, |a| - 1);
    } else {
      ChunkCount(a[chunk..], chunk);
      var n := |a| + chunk - 1;
      assert |Chunks(a, chunk)| == (n - chunk) / chunk + 1;
      DivStep(n, chunk);
    }
  }

  lemma MulMono(d: int, c: int)
    requires d >= 1 && c > 0
    ensures d * c >= c
  {
  }

  /** Euclidean division is determined by quotient and remainder */
  lemma DivUnique(x: int, c: int, q: int, r: int)
    requires c > 0 && 0 <= r < c && x == q * c + r
    ensures x / c == q
  {
    var q', r' := x / c, x % c;
    assert (q' - q) * c == r - r';
    if q' > q {
      MulMono(q' - q, c);
    } else if q' < q {
      MulMono(q - q', c);
    }
  }

  lemma DivStep(x: nat, c: nat)
    requires 0 < c <= x
    ensures x / c == (x - c) / c + 1
  {
    var q, r := (x - c) / c, (x - c) % c;
    assert x == (q + 1) * c + r;
    DivUnique(x, c, q + 1, r);
  }

  /** `flat` has as many elements as the inner arrays together */
  lemma {:induction false} ConcatLength<T>(g: seq<seq<T>>)
    ensures |Concat(g)| == SumLengths(g)
    decreases |g|
  {
    if g != [] {
      ConcatLength(g[..|g| - 1]);
    }
  }

  /** `flat` keeps order: element k of inner array i lands right after all
      elements of the arrays before i */
  lemma {:induction false} ConcatIndex<T>(g: seq<seq<T>>, i: nat, k: nat)
    requires i < |g| && k < |g[i]|
    ensures SumLengths(g[..i]) + k < |Concat(g)|
    ensures Concat(g)[SumLengths(g[..i]) + k] == g[i][k]
    decreases |g|
  {
    ConcatLength(g[..i]);
    var pre, post := g[..i], g[i + 1..];
    assert g == pre + [g[i]] + post;
    ConcatAppend(pre + [g[i]], post);
    ConcatAppend(pre, [g[i]]);
    assert Concat([g[i]]) == Concat([]) + g[i];
  }
}
