/** Every executed entry comes after the components it refers to. */
module DependencyOrder {
  import opened Sequences
  import opened WorkflowGraph
  import opened Scheduler

  /** Every kept entry was ready in the path as it stands after the check, whatever was removed around it. */
  lemma {:induction false} KeptAreReady(g: Graph, before: seq<Id>, batch: seq<Id>, k: nat)
    requires Known(g, batch)
    requires k < |Kept(g, before, batch)|
    ensures var kept := Kept(g, before, batch);
            Ready(g, (before + kept)[0], before + kept[..k], kept[k])
    decreases |batch|
  {
    var kept := Kept(g, before, batch);
    if Ready(g, (before + batch)[0], before, batch[0]) {
      if k == 0 {
        assert (before + kept)[0] == (before + batch)[0];
        assert before + kept[..0] == before;
      } else {
        var next := before + [batch[0]];
        var rest := Kept(g, next, batch[1..]);
        KeptAreReady(g, next, batch[1..], k - 1);
        assert next + rest == before + kept;
        assert next + rest[..k - 1] == before + kept[..k];
      }
    } else {
      KeptAreReady(g, before, batch[1..], k);
    }
  }

  /** The check loses nothing: what it does not keep it drops. */
  lemma {:induction false} KeptAndDropped(g: Graph, before: seq<Id>, batch: seq<Id>)
    requires Known(g, batch)
    ensures multiset(batch) == multiset(Kept(g, before, batch)) + multiset(Dropped(g, before, batch))
    decreases |batch|
  {
    if batch != [] {
      assert batch == [batch[0]] + batch[1..];
      if Ready(g, (before + batch)[0], before, batch[0]) {
        KeptAndDropped(g, before + [batch[0]], batch[1..]);
      } else {
        KeptAndDropped(g, before, batch[1..]);
      }
    }
  }

  // ---------- which entries are kept ----------

  /** The component is named before the batch or kept before entry `k` of it. */
  predicate Provided(before: seq<Id>, batch: seq<Id>, at: seq<bool>, k: nat, r: Id)
    requires k <= |at| == |batch|
  {
    r == "" || r in before || exists j :: 0 <= j < k && at[j] && batch[j] == r
  }

  /** Entry `j` heads the path, without entries before the batch, when entry `k` is looked at. */
  predicate IsHead(at: seq<bool>, k: nat, j: nat)
    requires k < |at|
  {
    j <= k && (j == k || at[j]) && forall i :: 0 <= i < j ==> !at[i]
  }

  predicate HeadIsForm(before: seq<Id>, batch: seq<Id>, at: seq<bool>, k: nat)
    requires k < |at| == |batch|
  {
    if before != [] then NamedFillUp(before[0])
    else exists j :: 0 <= j <= k && IsHead(at, k, j) && NamedFillUp(batch[j])
  }

  /** Entry `k` may run when those with `at` are kept. */
  predicate MayRun(g: Graph, before: seq<Id>, batch: seq<Id>, at: seq<bool>, k: nat)
    requires Known(g, batch) && k < |at| == |batch|
  {
    assert batch[k] in batch;
    var c := g.comp[batch[k]];
    || c.kind.Begin? || c.kind.UserFillUp? || HeadIsForm(before, batch, at, k)
    || forall r <- c.inputs :: Provided(before, batch, at, k, r)
  }

  lemma ProvidedLater(before: seq<Id>, batch: seq<Id>, at: seq<bool>, k: nat, r: Id)
    requires 0 < k < |at| == |batch|
    ensures Provided(before, batch, at, k, r)
            <==> Provided(if at[0] then before + [batch[0]] else before, batch[1..], at[1..], k - 1, r)
  {
    if j :| 0 <= j < k && at[j] && batch[j] == r {
      if j > 0 { assert at[1..][j - 1] && batch[1..][j - 1] == r; }
    }
    if j :| 0 <= j < k - 1 && at[1..][j] && batch[1..][j] == r { assert at[j + 1] && batch[j + 1] == r; }
  }

  lemma HeadLater(before: seq<Id>, batch: seq<Id>, at: seq<bool>, k: nat)
    requires 0 < k < |at| == |batch|
    ensures HeadIsForm(before, batch, at, k)
            <==> HeadIsForm(if at[0] then before + [batch[0]] else before, batch[1..], at[1..], k - 1)
  {
    if before == [] && !at[0] {
      if j :| 0 <= j <= k && IsHead(at, k, j) && NamedFillUp(batch[j]) {
        IsHeadLater(at, k, j - 1);
        assert batch[1..][j - 1] == batch[j];
      }
      if j :| 0 <= j <= k - 1 && IsHead(at[1..], k - 1, j) && NamedFillUp(batch[1..][j]) {
        IsHeadLater(at, k, j);
        assert batch[j + 1] == batch[1..][j];
      }
    } else if before == [] {
      assert IsHead(at, k, 0);
    }
  }

  lemma IsHeadLater(at: seq<bool>, k: nat, j: nat)
    requires j < k < |at| && !at[0]
    ensures IsHead(at[1..], k - 1, j) <==> IsHead(at, k, j + 1)
  {
    if IsHead(at, k, j + 1) {
      forall i | 0 <= i < j ensures !at[1..][i] { assert !at[i + 1]; }
    }
    if IsHead(at[1..], k - 1, j) {
      forall i | 0 <= i < j + 1 ensures !at[i] { if i > 0 { assert !at[1..][i - 1]; } }
    }
  }

  lemma MayRunLater(g: Graph, before: seq<Id>, batch: seq<Id>, at: seq<bool>, k: nat)
    requires Known(g, batch) && 0 < k < |at| == |batch|
    ensures Known(g, batch[1..])
    ensures MayRun(g, before, batch, at, k)
            <==> MayRun(g, if at[0] then before + [batch[0]] else before, batch[1..], at[1..], k - 1)
  {
    HeadLater(before, batch, at, k);
    assert batch[k] == batch[1..][k - 1] && batch[k] in batch;
    forall r <- g.comp[batch[k]].inputs
      ensures Provided(before, batch, at, k, r)
              <==> Provided(if at[0] then before + [batch[0]] else before, batch[1..], at[1..], k - 1, r)
    {
      ProvidedLater(before, batch, at, k, r);
    }
  }

  function KeptAt(at: seq<bool>, kept: bool): nat -> bool { (i: nat) => i < |at| && at[i] == kept }

  /** The check keeps exactly the entries that may run when exactly those are kept, and drops the others, in order. */
  lemma {:induction false} KeptMeaning(g: Graph, before: seq<Id>, batch: seq<Id>) returns (at: seq<bool>)
    requires Known(g, batch)
    ensures |at| == |batch| && forall k: nat :: k < |batch| ==> at[k] == MayRun(g, before, batch, at, k)
    ensures IsFilter(Kept(g, before, batch), batch, KeptAt(at, true))
    ensures IsFilter(Dropped(g, before, batch), batch, KeptAt(at, false))
    decreases |batch|
  {
    if batch == [] {
      at := [];
      FilterNothing<Id>(KeptAt(at, true));
      FilterNothing<Id>(KeptAt(at, false));
    } else {
      var first := Ready(g, (before + batch)[0], before, batch[0]);
      var rest := KeptMeaning(g, if first then before + [batch[0]] else before, batch[1..]);
      at := [first] + rest;
      assert at[1..] == rest;
      FirstMayRun(g, before, batch, at);
      forall k: nat | k < |batch| ensures at[k] == MayRun(g, before, batch, at, k) {
        if k > 0 { MayRunLater(g, before, batch, at, k); }
      }
      OneMoreKept(g, before, batch, at);
    }
  }

  lemma FirstMayRun(g: Graph, before: seq<Id>, batch: seq<Id>, at: seq<bool>)
    requires Known(g, batch) && 0 < |at| == |batch|
    ensures MayRun(g, before, batch, at, 0) <==> Ready(g, (before + batch)[0], before, batch[0])
  {
    assert IsHead(at, 0, 0);
  }

  lemma OneMoreKept(g: Graph, before: seq<Id>, batch: seq<Id>, at: seq<bool>)
    requires Known(g, batch) && 0 < |at| == |batch| && at[0] == Ready(g, (before + batch)[0], before, batch[0])
    requires var next := if at[0] then before + [batch[0]] else before;
             && IsFilter(Kept(g, next, batch[1..]), batch[1..], KeptAt(at[1..], true))
             && IsFilter(Dropped(g, next, batch[1..]), batch[1..], KeptAt(at[1..], false))
    ensures IsFilter(Kept(g, before, batch), batch, KeptAt(at, true))
    ensures IsFilter(Dropped(g, before, batch), batch, KeptAt(at, false))
  {
    var next := if at[0] then before + [batch[0]] else before;
    FilterSame(Kept(g, next, batch[1..]), batch[1..], KeptAt(at[1..], true), Later(KeptAt(at, true)));
    FilterCons(Kept(g, next, batch[1..]), batch, KeptAt(at, true));
    FilterSame(Dropped(g, next, batch[1..]), batch[1..], KeptAt(at[1..], false), Later(KeptAt(at, false)));
    FilterCons(Dropped(g, next, batch[1..]), batch, KeptAt(at, false));
  }

  // ---------- every run ----------

  ghost predicate Satisfied(g: Graph, path: seq<Id>, i: nat) {
    i < |path| && path[i] in g.comp && Ready(g, path[0], path[..i], path[i])
  }

  ghost predicate AllSatisfied(g: Graph, path: seq<Id>, ran: set<nat>) { forall i <- ran :: Satisfied(g, path, i) }

  ghost predicate Ordered(g: Graph, s: State) {
    && AllSatisfied(g, s.path, s.ran)
    && (s.status.Running? ==> s.idx < |s.path| && forall i :: i in s.ran ==> i < s.idx)
  }

  lemma SatisfiedInPrefix(g: Graph, path: seq<Id>, path': seq<Id>, i: nat)
    requires Satisfied(g, path, i)
    requires i < |path'| && path[..i + 1] == path'[..i + 1]
    ensures Satisfied(g, path', i)
  {
    assert path[i] == path[..i + 1][i] == path'[..i + 1][i] == path'[i];
    assert path[0] == path[..i + 1][0] == path'[..i + 1][0] == path'[0];
    assert path[..i] == path[..i + 1][..i] == path'[..i + 1][..i] == path'[..i];
  }

  /** An earlier position stays satisfied when the batch behind it is replaced by what was kept of it. */
  lemma OldSatisfied(g: Graph, path: seq<Id>, idx: nat, kept: seq<Id>, i: nat)
    requires Satisfied(g, path, i) && i < idx <= |path|
    ensures Satisfied(g, path[..idx] + kept, i)
  {
    assert path[..i + 1] == (path[..idx] + kept)[..i + 1];
    SatisfiedInPrefix(g, path, path[..idx] + kept, i);
  }

  /** So is every kept entry. */
  lemma KeptSatisfied(g: Graph, before: seq<Id>, batch: seq<Id>, i: nat)
    requires Known(g, batch) && |before| <= i < |before| + |Kept(g, before, batch)|
    ensures Satisfied(g, before + Kept(g, before, batch), i)
  {
    var kept := Kept(g, before, batch);
    KeptAreReady(g, before, batch, i - |before|);
    assert (before + kept)[i] == kept[i - |before|] && (before + kept)[..i] == before + kept[..i - |before|];
  }

  lemma PositionsSatisfied(g: Graph, s: State, before: seq<Id>, batch: seq<Id>, path: seq<Id>, ran: set<nat>)
    requires Ordered(g, s) && s.status.Running? && Known(g, batch)
    requires before == s.path[..s.idx] && batch == s.path[s.idx..] && path == before + Kept(g, before, batch)
    requires ran == s.ran + Span(s.idx, s.idx + |Kept(g, before, batch)|)
    ensures AllSatisfied(g, path, ran)
  {
    forall i <- ran ensures Satisfied(g, path, i) {
      if i < s.idx {
        OldSatisfied(g, s.path, s.idx, Kept(g, before, batch), i);
      } else {
        KeptSatisfied(g, before, batch, i);
      }
    }
  }

  /** After the check, the executed positions are satisfied, old and new. */
  lemma BatchIsOrdered(g: Graph, w: World, s: State) returns (invoked: State)
    requires Ordered(g, s) && s.status.Running?
    requires Known(g, s.path[s.idx..]) && !Canceled(w, s.tick, 0)
    ensures invoked == RunBatch(g, w, s) && AllSatisfied(g, invoked.path, invoked.ran)
    ensures s.idx == invoked.idx <= |invoked.path| && invoked.status.Running? && Known(g, invoked.path[s.idx..])
  {
    var before, kept;
    invoked, before, kept := BatchParts(g, w, s);
    PositionsSatisfied(g, s, before, s.path[s.idx..], invoked.path, invoked.ran);
  }

  lemma BatchParts(g: Graph, w: World, s: State) returns (invoked: State, before: seq<Id>, kept: seq<Id>)
    requires s.idx <= |s.path| && Known(g, s.path[s.idx..]) && s.status.Running? && !Canceled(w, s.tick, 0)
    ensures before == s.path[..s.idx] && kept == Kept(g, before, s.path[s.idx..])
    ensures invoked == RunBatch(g, w, s) && invoked.path == before + kept && invoked.path[s.idx..] == kept
    ensures invoked.ran == s.ran + Span(s.idx, s.idx + |kept|) && invoked.idx == s.idx && invoked.status.Running?
  {
    BatchShape(g, w, s);
    invoked, before := RunBatch(g, w, s), s.path[..s.idx];
    kept := Kept(g, before, s.path[s.idx..]);
  }

  lemma SatisfiedAfterGrowth(g: Graph, path: seq<Id>, path': seq<Id>, ran: set<nat>)
    requires AllSatisfied(g, path, ran) && path <= path'
    ensures AllSatisfied(g, path', ran)
  {
    forall i <- ran ensures Satisfied(g, path', i) {
      assert path[..i + 1] == path'[..i + 1];
      SatisfiedInPrefix(g, path, path', i);
    }
  }

  lemma SatisfiedInCut(g: Graph, path: seq<Id>, ran: set<nat>, n: nat)
    requires AllSatisfied(g, path, ran) && n <= |path|
    ensures AllSatisfied(g, path[..n], set i | i in ran && i < n)
  {
    forall i | i in ran && i < n ensures Satisfied(g, path[..n], i) {
      assert path[..i + 1] == path[..n][..i + 1];
      SatisfiedInPrefix(g, path, path[..n], i);
    }
  }

  lemma SettleKeepsOrder(g: Graph, w: World, s: State, to: nat)
    requires s.idx <= to <= |s.path|
    requires s.status.Running? || s.status.Raised?
    requires AllSatisfied(g, s.path[..to], s.ran)
    ensures Ordered(g, Settle(g, w, s, to))
  {
    SatisfiedAfterGrowth(g, s.path[..to], s.path, s.ran);
    SatisfiedInCut(g, s.path, s.ran, to);
    SatisfiedInCut(g, s.path, s.ran, s.idx);
    var pending := s.path[to..];
    if Known(g, pending) { InvokeAllKeeps(g, w, s.(idx := to), Forms(g, pending, true)); }
  }

  lemma StepKeepsOrder(g: Graph, w: World, s: State)
    requires Ordered(g, s)
    ensures Ordered(g, Step(g, w, s))
  {
    if s.status.Running? && Known(g, s.path[s.idx..]) && !Canceled(w, s.tick, 0) {
      var invoked := BatchIsOrdered(g, w, s);
      PostedIsOrdered(g, w, invoked);
    }
  }

  lemma PostedIsOrdered(g: Graph, w: World, s: State)
    requires s.idx <= |s.path| && s.status.Running? && Known(g, s.path[s.idx..]) && AllSatisfied(g, s.path, s.ran)
    ensures Ordered(g, Settle(g, w, PostAll(g, w, s, s.path[s.idx..]), |s.path|))
  {
    var posted := PostAll(g, w, s, s.path[s.idx..]);
    assert posted.path[..|s.path|] == s.path;
    SettleKeepsOrder(g, w, posted, |s.path|);
  }

  lemma LaunchKeepsOrder(g: Graph, w: World, s: State, globals: map<string, Value>)
    requires Ordered(g, s)
    ensures Ordered(g, StartRun(w, s, globals))
  {
    var s' := StartRun(w, s, globals);
    SatisfiedAfterGrowth(g, s.path, s'.path, s.ran);
  }

  lemma ActKeepsOrder(g: Graph, s: State, a: Action)
    requires Ordered(g, s)
    ensures Ordered(g, Act(g, s, a))
  {
    match a
    case Launch(w, globals) => LaunchKeepsOrder(g, w, s, globals);
    case Turn(w) => StepKeepsOrder(g, w, s);
    case Reset =>
  }

  lemma {:induction false} ExecKeepsOrder(g: Graph, s: State, acts: seq<Action>)
    requires Ordered(g, s)
    ensures Ordered(g, Exec(g, s, acts))
    decreases |acts|
  {
    if acts != [] {
      ActKeepsOrder(g, s, acts[0]);
      ExecKeepsOrder(g, Act(g, s, acts[0]), acts[1..]);
    }
  }

  /** In every state reached by any number of runs, turns and resets, under any behaviour of the
      environment: unless the path starts with a user form, each executed entry other than Begin and
      UserFillUp has all the components it refers to before it in the path. */
  lemma DependenciesPrecedeUse(g: Graph, s: State, acts: seq<Action>, i: nat)
    requires s.status.Idle? && s.ran == {}
    requires var s' := Exec(g, s, acts); i in s'.ran
    ensures var s' := Exec(g, s, acts);
            && i < |s'.path| && s'.path[i] in g.comp
            && (!NamedFillUp(s'.path[0]) && !g.comp[s'.path[i]].kind.Begin? && !g.comp[s'.path[i]].kind.UserFillUp?
                ==> forall r <- g.comp[s'.path[i]].inputs :: r == "" || r in s'.path[..i])
  {
    ExecKeepsOrder(g, s, acts);
    assert Satisfied(g, Exec(g, s, acts).path, i);
  }
}
