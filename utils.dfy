/** The batch splitter of service/utils.go: cut a sequence into chunks of at
    most `size` elements, in order. */
module Utils {

  /** The chunks of `s`: runs of exactly `size` elements while more than `size`
      remain, then the remainder if it is not empty. */
  function Chunks<T>(s: seq<T>, size: nat): seq<seq<T>>
    requires size > 0
    decreases |s|
  {
    if |s| > size then [s[..size]] + Chunks(s[size..], size)
    else if |s| > 0 then [s]
    else []
  }

  /** The concatenation of `ss`, in order. */
  function Flatten<T>(ss: seq<seq<T>>): seq<T>
  {
    if ss == [] then [] else ss[0] + Flatten(ss[1..])
  }

  /** ceil(n / d) for a positive divisor. */
  function CeilDiv(n: nat, d: nat): nat
    requires d > 0
  {
    (n + d - 1) / d
  }

  /** Every chunk but the last has exactly `size` elements; the last has 1 to `size`. */
  predicate IsChunking<T>(chunks: seq<seq<T>>, size: nat)
  {
    (forall i :: 0 <= i < |chunks| - 1 ==> |chunks[i]| == size) &&
    (|chunks| > 0 ==> 0 < |chunks[|chunks| - 1]| <= size)
  }

  lemma FlattenAppend<T>(a: seq<seq<T>>, b: seq<seq<T>>)
    ensures Flatten(a + b) == Flatten(a) + Flatten(b)
    decreases |a|
  {
    if a != [] {
      assert (a + b)[1..] == a[1..] + b;
      FlattenAppend(a[1..], b);
    } else {
      assert a + b == b;
    }
  }

  lemma FlattenSnoc<T>(a: seq<seq<T>>, x: seq<T>)
    ensures Flatten(a + [x]) == Flatten(a) + x
  {
    FlattenAppend(a, [x]);
    assert Flatten([x]) == x + Flatten([]);
  }

  /** Flattening one more element of a prefix appends that element. */
  lemma FlattenTake<T>(ss: seq<seq<T>>, j: nat)
    requires j < |ss|
    ensures Flatten(ss[..j + 1]) == Flatten(ss[..j]) + ss[j]
  {
    assert ss[..j + 1] == ss[..j] + [ss[j]];
    FlattenSnoc(ss[..j], ss[j]);
  }

  /** Concatenating the chunks in order gives back the input. */
  lemma {:induction false} ChunksFlatten<T>(s: seq<T>, size: nat)
    requires size > 0
    ensures Flatten(Chunks(s, size)) == s
    decreases |s|
  {
    if |s| > size {
      var rest := Chunks(s[size..], size);
      ChunksFlatten(s[size..], size);
      assert ([s[..size]] + rest)[1..] == rest;
      assert s[..size] + s[size..] == s;
    } else if |s| > 0 {
      assert Flatten([s]) == s + Flatten([]);
    }
  }

  /** All chunks but the last are full and none is empty. */
  lemma {:induction false} ChunksShape<T>(s: seq<T>, size: nat)
    requires size > 0
    ensures IsChunking(Chunks(s, size), size)
    decreases |s|
  {
    if |s| > size {
      ChunksShape(s[size..], size);
      var rest := Chunks(s[size..], size);
      assert |rest| > 0;
      var all := [s[..size]] + rest;
      forall i | 0 <= i < |all| - 1 ensures |all[i]| == size {
        if i > 0 { assert all[i] == rest[i - 1]; }
      }
    }
  }

  lemma MulAtLeast(k: int, d: int)
    requires k >= 1 && d > 0
    ensures k * d >= d
    decreases k
  {
    if k > 1 {
      MulAtLeast(k - 1, d);
      assert k * d == (k - 1) * d + d;
    }
  }

  lemma DivUnique(a: int, d: int, q: int, r: int)
    requires d > 0 && 0 <= r < d && a == q * d + r
    ensures a / d == q
  {
    var q', r' := a / d, a % d;
    assert a == q' * d + r';
    var k := q - q';
    assert k * d == q * d - q' * d;
    assert k * d == r' - r;
    if k >= 1 {
      MulAtLeast(k, d);
    }
  }

  lemma DivStep(x: nat, d: nat)
    requires d > 0
    ensures (x + d) / d == x / d + 1
  {
    var q, r := x / d, x % d;
    assert x == q * d + r;
    assert x + d == (q + 1) * d + r;
    DivUnique(x + d, d, q + 1, r);
  }

  lemma DivSmall(x: nat, d: nat)
    requires d > 0 && x < d
    ensures x / d == 0
  {
  }

  /** There are ceil(|s| / size) chunks. */
  lemma {:induction false} ChunksCount<T>(s: seq<T>, size: nat)
    requires size > 0
    ensures |Chunks(s, size)| == CeilDiv(|s|, size)
    decreases |s|
  {
    if |s| > size {
      ChunksCount(s[size..], size);
      DivStep(|s| - 1, size);
    } else if |s| > 0 {
      DivStep(|s| - 1, size);
      DivSmall(|s| - 1, size);
    } else {
      DivSmall(size - 1, size);
    }
  }

  /** The chunking in full: the chunks concatenate back to the input, all
      but the last are full, none is empty, there are ceil(|s| / size) of
      them, and a non-empty input of at most `size` elements is one chunk. */
  lemma ChunksProperties<T>(s: seq<T>, size: nat)
    requires size > 0
    ensures Flatten(Chunks(s, size)) == s
    ensures IsChunking(Chunks(s, size), size)
    ensures |Chunks(s, size)| == CeilDiv(|s|, size)
    ensures Chunks(s, size) == [] <==> s == []
    ensures 0 < |s| <= size ==> Chunks(s, size) == [s]
  {
    ChunksFlatten(s, size);
    ChunksShape(s, size);
    ChunksCount(s, size);
  }

  /** SplitSlice (service/utils.go): slices `size` elements off the front
      while more than `size` remain, then appends the non-empty remainder.
      With size = 0 the loop never advances, hence the precondition. */
  method SplitSlice<T>(s: seq<T>, size: nat) returns (sl: seq<seq<T>>)
    requires size > 0
    ensures sl == Chunks(s, size)
  {
    sl := [];
    var rest := s;
    while |rest| > size
      invariant sl + Chunks(rest, size) == Chunks(s, size)
      decreases |rest|
    {
      assert Chunks(rest, size) == [rest[..size]] + Chunks(rest[size..], size);
      sl := sl + [rest[..size]];
      rest := rest[size..];
    }
    if |rest| > 0 {
      sl := sl + [rest];
    }
  }
}
