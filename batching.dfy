/**
 * Splitting a list into consecutive batches, as the tag scripts do before
 * each bulk upsert: `for (let i = 0; i < xs.length; i += size)
 * batches.push(xs.slice(i, i + size))`.
 */
module Batching {

  function Min(a: int, b: int): int {
    if a <= b then a else b
  }

  /** The batches: every one full but the last, which holds what is left. */
  function Batches<T>(xs: seq<T>, size: nat): seq<seq<T>>
    requires size > 0
    decreases |xs|
  {
    if xs == [] then []
    else if |xs| <= size then [xs]
    else [xs[..size]] + Batches(xs[size..], size)
  }

  /** The batches laid end to end. */
  function Flatten<T>(bs: seq<seq<T>>): seq<T>
    decreases |bs|
  {
    if bs == [] then [] else bs[0] + Flatten(bs[1..])
  }

  lemma {:induction false} FlattenConcat<T>(a: seq<seq<T>>, b: seq<seq<T>>)
    ensures Flatten(a + b) == Flatten(a) + Flatten(b)
    decreases |a|
  {
    if a == [] {
      assert a + b == b;
    } else {
      assert (a + b)[1..] == a[1..] + b;
      FlattenConcat(a[1..], b);
    }
  }

  /** The batches cover the whole list, in order, each element once. */
  lemma {:induction false} FlattenBatches<T>(xs: seq<T>, size: nat)
    requires size > 0
    ensures Flatten(Batches(xs, size)) == xs
    decreases |xs|
  {
    if xs != [] && |xs| > size {
      FlattenBatches(xs[size..], size);
      assert ([xs[..size]] + Batches(xs[size..], size))[1..] == Batches(xs[size..], size);
      assert xs[..size] + xs[size..] == xs;
    }
  }

  /** No batch is empty or larger than `size`, and every batch but the last is full. */
  lemma {:induction false} BatchSizes<T>(xs: seq<T>, size: nat)
    requires size > 0
    ensures forall k :: 0 <= k < |Batches(xs, size)| ==> 0 < |Batches(xs, size)[k]| <= size
    ensures forall k :: 0 <= k < |Batches(xs, size)| - 1 ==> |Batches(xs, size)[k]| == size
    decreases |xs|
  {
    if xs != [] && |xs| > size {
      BatchSizes(xs[size..], size);
      var rest := Batches(xs[size..], size);
      assert forall k :: 1 <= k < |rest| + 1 ==> Batches(xs, size)[k] == rest[k - 1];
    }
  }

  /** There are `ceil(|xs| / size)` batches, the count the scripts log: the smallest `n` with `n * size >= |xs|`. */
  lemma {:induction false} BatchCount<T>(xs: seq<T>, size: nat)
    requires size > 0
    ensures var n := |Batches(xs, size)|; (n - 1) * size < |xs| <= n * size
    decreases |xs|
  {
    if xs != [] && |xs| > size {
      BatchCount(xs[size..], size);
      var n := |Batches(xs[size..], size)|;
      assert (n + 1) * size == n * size + size;
      assert n * size == (n - 1) * size + size;
    }
  }

  /** Batching depends only on the length: lists of equal length are cut at the same places. */
  lemma {:induction false} BatchesSameShape<T, U>(xs: seq<T>, ys: seq<U>, size: nat)
    requires size > 0 && |xs| == |ys|
    ensures |Batches(xs, size)| == |Batches(ys, size)|
    decreases |xs|
  {
    if xs != [] && |xs| > size {
      BatchesSameShape(xs[size..], ys[size..], size);
    }
  }

  /** Batch `k` starts at element `k * size`. */
  lemma {:induction false} BatchAt<T>(xs: seq<T>, size: nat, k: nat)
    requires size > 0 && k < |Batches(xs, size)|
    ensures k * size < |xs|
    ensures Batches(xs, size)[k] == xs[k * size..Min(k * size + size, |xs|)]
    decreases k
  {
    if k == 0 {
      assert k * size == 0;
    } else {
      assert |xs| > size;
      var rest := xs[size..];
      assert Batches(xs, size)[k] == Batches(rest, size)[k - 1];
      BatchAt(rest, size, k - 1);
      var m := (k - 1) * size;
      assert m + size == k * size;
      assert |rest| + size == |xs|;
      assert Min(m + size, |rest|) + size == Min(k * size + size, |xs|);
      var e := Min(m + size, |rest|);
      SliceOfSuffix(xs, size, m, e);
    }
  }

  lemma SliceOfSuffix<T>(xs: seq<T>, d: nat, a: nat, b: nat)
    requires d <= |xs| && a <= b <= |xs| - d
    ensures xs[d..][a..b] == xs[d + a..d + b]
  {
    forall i | 0 <= i < b - a
      ensures xs[d..][a..b][i] == xs[d + a..d + b][i]
    {
      assert xs[d..][a..b][i] == xs[d + a + i];
    }
  }

  /** The index-stepping loop that pushes `xs.slice(i, i + size)`. */
  method MakeBatches<T>(xs: seq<T>, size: nat) returns (bs: seq<seq<T>>)
    requires size > 0
    ensures bs == Batches(xs, size)
  {
    bs := [];
    var i := 0;
    while i < |xs|
      invariant 0 <= i <= |xs|
      invariant bs + Batches(xs[i..], size) == Batches(xs, size)
      decreases |xs| - i
    {
      var j := Min(i + size, |xs|);
      assert Batches(xs[i..], size) == [xs[i..j]] + Batches(xs[j..], size) by {
        if |xs[i..]| > size {
          assert xs[i..][size..] == xs[j..];
          assert xs[i..][..size] == xs[i..j];
        } else {
          assert xs[j..] == [];
          assert xs[i..] == xs[i..j];
        }
      }
      bs := bs + [xs[i..j]];
      i := j;
    }
    assert xs[i..] == [];
  }
}
