/** Cutting a sequence into consecutive batches of a fixed size, the shape every
    loader and the migration hand their data to the vector store in. */
module Chunking {
  import opened Common

  /** `ceil(a / n)`: the number of `n`-sized steps that reach or pass `a`. */
  function CeilDiv(a: nat, n: nat): nat
    requires n > 0
    decreases a
  {
    if a == 0 then 0 else if a <= n then 1 else 1 + CeilDiv(a - n, n)
  }

  /** `CeilDiv(a, n)` is the least `c` with `a <= c * n`. */
  lemma {:induction false} CeilDivBounds(a: nat, n: nat)
    requires n > 0
    ensures a <= CeilDiv(a, n) * n
    ensures a > 0 ==> (CeilDiv(a, n) - 1) * n < a
    decreases a
  {
    if a > n {
      CeilDivBounds(a - n, n);
      var c := CeilDiv(a - n, n);
      assert (c + 1) * n == c * n + n;
      assert c > 0 ==> (c - 1) * n + n == c * n;
    }
  }

  /** The concatenation of a sequence of sequences. */
  function Flatten<T>(xs: seq<seq<T>>): seq<T> {
    if xs == [] then [] else xs[0] + Flatten(xs[1..])
  }

  lemma {:induction false} FlattenSnoc<T>(xs: seq<seq<T>>, x: seq<T>)
    ensures Flatten(xs + [x]) == Flatten(xs) + x
  {
    if xs != [] {
      assert (xs + [x])[1..] == xs[1..] + [x];
      FlattenSnoc(xs[1..], x);
    }
  }

  /** `s` cut into consecutive pieces of `n` elements; the last piece holds what remains. */
  function Chunks<T>(s: seq<T>, n: nat): seq<seq<T>>
    requires n > 0
    decreases |s|
  {
    if |s| == 0 then []
    else if |s| <= n then [s]
    else [s[..n]] + Chunks(s[n..], n)
  }

  /** There are `ceil(|s| / n)` pieces, none empty, all but the last exactly `n` long, and
      together they are `s` again. */
  lemma {:induction false} ChunksShape<T>(s: seq<T>, n: nat)
    requires n > 0
    ensures |Chunks(s, n)| == CeilDiv(|s|, n)
    ensures Flatten(Chunks(s, n)) == s
    ensures forall k :: 0 <= k < |Chunks(s, n)| ==> 0 < |Chunks(s, n)[k]| <= n
    ensures forall k :: 0 <= k < |Chunks(s, n)| - 1 ==> |Chunks(s, n)[k]| == n
    decreases |s|
  {
    if |s| > n {
      var rest := Chunks(s[n..], n);
      ChunksShape(s[n..], n);
      var cs := [s[..n]] + rest;
      assert Chunks(s, n) == cs;
      assert cs[1..] == rest;
      assert s == s[..n] + s[n..];
      forall k | 1 <= k < |cs| ensures cs[k] == rest[k - 1] { }
    } else if |s| > 0 {
      assert Flatten(Chunks(s, n)) == s + Flatten([]);
    }
  }

  /** Piece `k` of `Chunks(s, n)` is the slice `[k * n, min(k * n + n, |s|))` of `s`. */
  lemma ChunkAt<T>(s: seq<T>, n: nat, k: nat)
    requires n > 0 && k < |Chunks(s, n)|
    ensures k * n < |s|
    ensures Chunks(s, n)[k] == s[k * n..Min(k * n + n, |s|)]
  {
    ChunkFrom(s, n, k, k * n);
  }

  /** `ChunkAt` with the start `lo == k * n` as a parameter, so the induction is linear. */
  lemma {:induction false} ChunkFrom<T>(s: seq<T>, n: nat, k: nat, lo: nat)
    requires n > 0 && k < |Chunks(s, n)| && lo == k * n
    ensures lo < |s|
    ensures Chunks(s, n)[k] == s[lo..Min(lo + n, |s|)]
    decreases k
  {
    if k > 0 {
      assert |s| > n;
      var rest := s[n..];
      assert Chunks(s, n) == [s[..n]] + Chunks(rest, n);
      assert Chunks(s, n)[k] == Chunks(rest, n)[k - 1];
      MulStep(k, n);
      ChunkFrom(rest, n, k - 1, lo - n);
      SliceShift(s, n, lo - n, Min(lo + n, |s|) - n);
    }
  }

  /** A slice of a suffix is a slice of the whole, shifted. */
  lemma SliceShift<T>(s: seq<T>, n: nat, a: nat, b: nat)
    requires n <= |s| && a <= b <= |s| - n
    ensures s[n..][a..b] == s[n + a..n + b]
  {
  }

  lemma MulStep(k: nat, n: nat)
    requires k > 0
    ensures (k - 1) * n + n == k * n
  {
  }

  /** Pieces that are non-empty, at most `n` long and exactly `n` long except the last are
      the chunking of their concatenation: batching is determined by its sizes. */
  lemma {:induction false} ChunksUnique<T>(cs: seq<seq<T>>, n: nat)
    requires n > 0
    requires forall k :: 0 <= k < |cs| ==> 0 < |cs[k]| <= n
    requires forall k :: 0 <= k < |cs| - 1 ==> |cs[k]| == n
    ensures Chunks(Flatten(cs), n) == cs
  {
    if |cs| == 1 {
      assert Flatten(cs) == cs[0];
    } else if |cs| > 1 {
      var rest := cs[1..];
      ChunksUnique(rest, n);
      assert |Flatten(rest)| > 0 by { assert Flatten(rest) == rest[0] + Flatten(rest[1..]); }
      var s := Flatten(cs);
      assert s == cs[0] + Flatten(rest);
      assert s[..n] == cs[0] && s[n..] == Flatten(rest);
      assert cs == [cs[0]] + rest;
    }
  }
}
