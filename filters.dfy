/**
 * JavaScript's `Array.prototype.filter`, given the callback's verdict on each
 * element, and the facts every filter of the program relies on: it keeps
 * order and multiplicity, keeping all is the identity and keeping none is empty.
 */
module Filters {

  /** `xs.filter(...)` given the verdict on each element. */
  function Keep<T>(xs: seq<T>, flags: seq<bool>): seq<T>
    requires |flags| == |xs|
    decreases |xs|
  {
    if xs == [] then [] else (if flags[0] then [xs[0]] else []) + Keep(xs[1..], flags[1..])
  }

  /** A filter keeps order: its result is the input at increasing positions, exactly those it keeps. */
  lemma {:induction false} KeepInOrder<T>(xs: seq<T>, flags: seq<bool>) returns (idx: seq<nat>)
    requires |flags| == |xs|
    ensures var r := Keep(xs, flags);
      |idx| == |r|
      && (forall k :: 0 <= k < |idx| ==> idx[k] < |xs| && r[k] == xs[idx[k]])
      && (forall a, b :: 0 <= a < b < |idx| ==> idx[a] < idx[b])
      && (forall j :: 0 <= j < |xs| ==> (j in idx <==> flags[j]))
    decreases |xs|
  {
    if xs == [] {
      idx := [];
    } else {
      var rest := KeepInOrder(xs[1..], flags[1..]);
      var rr := Keep(xs[1..], flags[1..]);
      idx := ConsIdx(flags[0], rest);
      ConsPositions(xs, rr, rest, flags[0]);
      ConsIncreasing(flags[0], rest);
      ConsMembers(flags[0], rest, flags);
    }
  }

  /** The positions `rest` of a tail, as positions of the whole sequence. */
  function Shift(rest: seq<nat>): (r: seq<nat>)
    ensures |r| == |rest| && forall k :: 0 <= k < |rest| ==> r[k] == rest[k] + 1
  {
    seq(|rest|, k requires 0 <= k < |rest| => rest[k] + 1)
  }

  /** The positions kept by a filter: the head's position when it is kept, then the tail's, shifted. */
  function ConsIdx(keep: bool, rest: seq<nat>): seq<nat> {
    (if keep then [0] else []) + Shift(rest)
  }

  lemma ConsPositions<T>(xs: seq<T>, rr: seq<T>, rest: seq<nat>, keep: bool)
    requires xs != [] && |rest| == |rr|
    requires forall k :: 0 <= k < |rest| ==> rest[k] < |xs| - 1 && rr[k] == xs[1..][rest[k]]
    ensures var idx := ConsIdx(keep, rest); var r := (if keep then [xs[0]] else []) + rr;
      |idx| == |r| && forall k :: 0 <= k < |idx| ==> idx[k] < |xs| && r[k] == xs[idx[k]]
  {
    var idx := ConsIdx(keep, rest);
    var r := (if keep then [xs[0]] else []) + rr;
    var h := if keep then 1 else 0;
    forall k | 0 <= k < |idx|
      ensures idx[k] < |xs| && r[k] == xs[idx[k]]
    {
      if k >= h {
        assert idx[k] == rest[k - h] + 1 && r[k] == rr[k - h];
      }
    }
  }

  lemma ConsIncreasing(keep: bool, rest: seq<nat>)
    requires forall a, b :: 0 <= a < b < |rest| ==> rest[a] < rest[b]
    ensures var idx := ConsIdx(keep, rest); forall a, b :: 0 <= a < b < |idx| ==> idx[a] < idx[b]
  {
    var idx := ConsIdx(keep, rest);
    var h := if keep then 1 else 0;
    forall a, b | 0 <= a < b < |idx|
      ensures idx[a] < idx[b]
    {
      assert idx[b] == rest[b - h] + 1;
      if a >= h {
        assert idx[a] == rest[a - h] + 1;
      }
    }
  }

  lemma ConsMembers(keep: bool, rest: seq<nat>, flags: seq<bool>)
    requires |flags| >= 1 && flags[0] == keep
    requires forall j :: 0 <= j < |flags| - 1 ==> (j in rest <==> flags[1..][j])
    ensures forall j :: 0 <= j < |flags| ==> (j in ConsIdx(keep, rest) <==> flags[j])
  {
    var sh := Shift(rest);
    var h := if keep then 1 else 0;
    forall j | 0 <= j < |flags|
      ensures j in ConsIdx(keep, rest) <==> flags[j]
    {
      if j == 0 {
        assert 0 !in sh;
      } else {
        assert flags[1..][j - 1] == flags[j];
        if j - 1 in rest {
          var k :| 0 <= k < |rest| && rest[k] == j - 1;
          assert sh[k] == j;
        }
      }
    }
  }

  lemma {:induction false} KeepAll<T>(xs: seq<T>, flags: seq<bool>)
    requires |flags| == |xs| && forall k :: 0 <= k < |flags| ==> flags[k]
    ensures Keep(xs, flags) == xs
    decreases |xs|
  {
    if xs != [] {
      KeepAll(xs[1..], flags[1..]);
      assert [xs[0]] + xs[1..] == xs;
    }
  }

  lemma {:induction false} KeepNone<T>(xs: seq<T>, flags: seq<bool>)
    requires |flags| == |xs| && forall k :: 0 <= k < |flags| ==> !flags[k]
    ensures Keep(xs, flags) == []
    decreases |xs|
  {
    if xs != [] {
      KeepNone(xs[1..], flags[1..]);
    }
  }
}
