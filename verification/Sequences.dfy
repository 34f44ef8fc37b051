/** Filtered sequences, by the positions that are kept. */
module Sequences {

  /** `r` consists of the elements of `xs` at the positions `at`, which increase. */
  ghost predicate Picks<T>(r: seq<T>, xs: seq<T>, at: seq<nat>) {
    && |r| == |at|
    && (forall k :: 0 <= k < |at| ==> at[k] < |xs| && r[k] == xs[at[k]])
    && (forall j, k :: 0 <= j < k < |at| ==> at[j] < at[k])
  }

  ghost predicate PicksWhere<T(!new)>(r: seq<T>, xs: seq<T>, at: seq<nat>, keep: nat -> bool) {
    Picks(r, xs, at) && forall i: nat :: i in at <==> i < |xs| && keep(i)
  }

  /** `r` consists of exactly the elements of `xs` at the positions to keep, in order. */
  ghost predicate IsFilter<T(!new)>(r: seq<T>, xs: seq<T>, keep: nat -> bool) {
    exists at :: PicksWhere(r, xs, at, keep)
  }

  lemma FilterNothing<T(!new)>(keep: nat -> bool)
    ensures IsFilter<T>([], [], keep)
  {
    assert PicksWhere<T>([], [], [], keep);
  }

  function Shifted(at: seq<nat>): (r: seq<nat>)
    ensures |r| == |at| && forall k :: 0 <= k < |at| ==> r[k] == at[k] + 1
  {
    seq(|at|, k requires 0 <= k < |at| => at[k] + 1)
  }

  lemma InShifted(at: seq<nat>, i: nat)
    ensures i in Shifted(at) <==> i > 0 && i - 1 in at
  {
    if i > 0 && i - 1 in at {
      var k :| 0 <= k < |at| && at[k] == i - 1;
      assert Shifted(at)[k] == i;
    }
  }

  function Later(keep: nat -> bool): nat -> bool { (i: nat) => keep(i + 1) }

  /** One more element in front. */
  lemma FilterCons<T(!new)>(r: seq<T>, xs: seq<T>, keep: nat -> bool)
    requires xs != [] && IsFilter(r, xs[1..], Later(keep))
    ensures IsFilter(if keep(0) then [xs[0]] + r else r, xs, keep)
  {
    var rest: seq<nat> :| PicksWhere(r, xs[1..], rest, Later(keep));
    PicksLater(r, xs, rest);
    var at := if keep(0) then [0] + Shifted(rest) else Shifted(rest);
    forall i: nat ensures i in at <==> i < |xs| && keep(i) {
      InShifted(rest, i);
      assert i > 0 ==> (i - 1 in rest <==> i - 1 < |xs[1..]| && Later(keep)(i - 1));
    }
    assert PicksWhere(if keep(0) then [xs[0]] + r else r, xs, at, keep);
  }

  lemma PicksLater<T>(r: seq<T>, xs: seq<T>, rest: seq<nat>)
    requires xs != [] && Picks(r, xs[1..], rest)
    ensures Picks(r, xs, Shifted(rest)) && Picks([xs[0]] + r, xs, [0] + Shifted(rest))
  {}

  lemma FilterSame<T(!new)>(r: seq<T>, xs: seq<T>, keep: nat -> bool, keep': nat -> bool)
    requires IsFilter(r, xs, keep) && forall i: nat :: i < |xs| ==> keep(i) == keep'(i)
    ensures IsFilter(r, xs, keep')
  {
    var at: seq<nat> :| PicksWhere(r, xs, at, keep);
    assert PicksWhere(r, xs, at, keep');
  }

  /** What a filter keeps was to be kept. */
  lemma FilterKept<T(!new)>(r: seq<T>, xs: seq<T>, keep: nat -> bool, k: nat) returns (i: nat)
    requires IsFilter(r, xs, keep) && k < |r|
    ensures i < |xs| && keep(i) && r[k] == xs[i]
  {
    var at: seq<nat> :| PicksWhere(r, xs, at, keep);
    i := at[k];
    assert i in at;
  }

  /** A filter that keeps everything, and what every filter keeps. */
  lemma FilterAll<T(!new)>(r: seq<T>, xs: seq<T>, keep: nat -> bool)
    requires IsFilter(r, xs, keep)
    ensures (forall i: nat :: i < |xs| ==> keep(i)) ==> r == xs
    ensures forall i: nat :: i < |xs| && keep(i) ==> xs[i] in r
    ensures forall x <- r :: x in xs
  {
    var at: seq<nat> :| PicksWhere(r, xs, at, keep);
    forall i: nat | i < |xs| && keep(i) ensures xs[i] in r {
      var k :| 0 <= k < |at| && at[k] == i;
      assert r[k] == xs[i];
    }
    if forall i: nat :: i < |xs| ==> keep(i) { AllPositions(at, |xs|); }
  }

  /** Increasing positions that leave nothing out. */
  lemma AllPositions(at: seq<nat>, n: nat)
    requires forall j, k :: 0 <= j < k < |at| ==> at[j] < at[k]
    requires forall i: nat :: i in at <==> i < n
    ensures |at| == n && forall k :: 0 <= k < n ==> at[k] == k
    decreases n
  {
    assert at != [] ==> at[0] in at;
    if n > 0 {
      var last := |at| - 1;
      assert n - 1 in at;
      assert at[last] == n - 1 by {
        var k :| 0 <= k < |at| && at[k] == n - 1;
        assert at[last] in at;
      }
      var init := at[..last];
      forall i: nat ensures i in init <==> i < n - 1 {
        if i < n - 1 {
          assert i in at;
          var k :| 0 <= k < |at| && at[k] == i;
          assert init[k] == i;
        }
        if i in init {
          var k :| 0 <= k < |init| && init[k] == i;
          assert at[k] in at && at[k] < at[last];
        }
      }
      AllPositions(init, n - 1);
      forall k | 0 <= k < n ensures at[k] == k { if k < last { assert at[k] == init[k]; } }
    }
  }
}
