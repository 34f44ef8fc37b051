/** No component is announced without being accounted for. */
module EventBalance {
  import opened WorkflowGraph
  import opened Scheduler
  import opened DependencyOrder

  function Count<T(==)>(xs: seq<T>, x: T): nat { multiset(xs)[x] }

  /** node_started events of `c` not matched by a node_finished event, a place in `partials`, or a removal
      by the dependency check. */
  function Debt(s: State, c: Id): int {
    Count(s.events, Started(c)) - Count(s.events, Ended(c)) - Count(s.partials, c) - Count(s.popped, c)
  }

  /** The parents of items are blocks, so that only blocks are reported as finished by their items. */
  ghost predicate ItemsInBlocks(g: Graph) {
    forall c <- g.comp.Keys, p <- g.comp.Keys ::
      IsItem(g.comp[c].kind) && HasParent(g, c, p) ==> IsBlock(g.comp[p].kind)
  }

  lemma CountSplit<T>(xs: seq<T>, ys: seq<T>, x: T)
    ensures Count(xs + ys, x) == Count(xs, x) + Count(ys, x)
  {}

  lemma {:induction false} AnnounceCounts(ids: seq<Id>, c: Id)
    ensures Count(Announce(ids), Started(c)) == Count(ids, c)
    ensures Count(Announce(ids), Ended(c)) == 0
    decreases |ids|
  {
    var es := Announce(ids);
    if ids != [] {
      AnnounceCounts(ids[1..], c);
      assert es == [Started(ids[0])] + Announce(ids[1..]);
      assert ids == [ids[0]] + ids[1..];
    }
  }

  lemma {:induction false} FlushBalanced(s: State, c: Id)
    ensures Debt(FlushPartials(s), c) == Debt(s, c)
    decreases |s.partials|
  {
    if s.partials != [] && !Content(s, s.partials[0]).Stream? {
      var next := Emit(s, Ended(s.partials[0])).(partials := s.partials[1..]);
      assert s.partials == [s.partials[0]] + s.partials[1..];
      assert Debt(next, c) == Debt(s, c);
      FlushBalanced(next, c);
    }
  }

  lemma SpeakBalanced(g: Graph, w: World, s: State, id: Id, c: Id)
    requires id in g.comp
    ensures Debt(Speak(g, w, s, id), c) == Debt(s, c)
  {
    if g.comp[id].kind.Message? {
      if Content(s, id).Stream? {
        var (mem, text) := w.stream(s.tick, id, s.mem);
        FlushBalanced(s.(mem := SetOut(mem, id, "content", Str(text)), tick := s.tick + 1), c);
      } else {
        FlushBalanced(s, c);
      }
    }
  }

  lemma ReportPays(g: Graph, s: State, id: Id, c: Id)
    requires id in g.comp && c in g.comp && !IsBlock(g.comp[c].kind)
    ensures Debt(Report(g, s, id), c) == Debt(s, c) - (if id == c then 1 else 0)
  {}

  lemma SuccessorsBalanced(g: Graph, s: State, id: Id, other: bool, c: Id)
    requires id in g.comp && c in g.comp && !IsBlock(g.comp[c].kind) && ItemsInBlocks(g)
    ensures Debt(Successors(g, s, id, other), c) == Debt(s, c)
  {
    var k := g.comp[id].kind;
    if IsItem(k) {
      var ended := ItemEnd(g, s, id);
      if ended.Ok? && ended.value { LeaveBalanced(g, s.(cursors := s.cursors[id := -1]), id, other, c); }
    }
  }

  lemma LeaveBalanced(g: Graph, s: State, id: Id, other: bool, c: Id)
    requires id in g.comp && c in g.comp && !IsBlock(g.comp[c].kind) && ItemsInBlocks(g)
    requires IsItem(g.comp[id].kind)
    ensures Debt(LeaveBlock(g, s, id, other), c) == Debt(s, c)
  {
    var p := g.comp[id].parent;
    if p.Some? && p.value in g.comp { assert HasParent(g, id, p.value); }
  }

  lemma PostOnePays(g: Graph, w: World, s: State, id: Id, c: Id)
    requires id in g.comp && c in g.comp && !IsBlock(g.comp[c].kind) && ItemsInBlocks(g)
    requires !Speak(g, w, s, id).status.Raised?
    ensures Debt(PostOne(g, w, s, id), c) == Debt(s, c) - (if id == c then 1 else 0)
  {
    var spoken := Speak(g, w, s, id);
    var handled := HandleError(g, spoken, id);
    var reported := Report(g, handled, id);
    SpeakBalanced(g, w, s, id, c);
    assert Debt(handled, c) == Debt(spoken, c);
    ReportPays(g, handled, id, c);
    SuccessorsBalanced(g, reported, id, TakesOtherBranch(g, spoken, id), c);
  }

  lemma {:induction false} PostAllPays(g: Graph, w: World, s: State, ids: seq<Id>, c: Id)
    requires Known(g, ids) && c in g.comp && !IsBlock(g.comp[c].kind) && ItemsInBlocks(g)
    requires !PostAll(g, w, s, ids).status.Raised?
    ensures Debt(PostAll(g, w, s, ids), c) == Debt(s, c) - Count(ids, c)
    decreases |ids|
  {
    if ids != [] {
      assert ids == [ids[0]] + ids[1..];
      PostOnePays(g, w, s, ids[0], c);
      PostAllPays(g, w, PostOne(g, w, s, ids[0]), ids[1..], c);
    }
  }

  lemma BatchCharges(g: Graph, w: World, s: State, c: Id)
    requires s.idx <= |s.path| && Known(g, s.path[s.idx..]) && !Canceled(w, s.tick, 0)
    ensures Debt(RunBatch(g, w, s), c) == Debt(s, c) + Count(Kept(g, s.path[..s.idx], s.path[s.idx..]), c)
  {
    var batch := s.path[s.idx..];
    BatchShape(g, w, s);
    AnnounceCounts(batch, c);
    KeptAndDropped(g, s.path[..s.idx], batch);
    CountSplit(s.events, Announce(batch), Started(c));
    CountSplit(s.events, Announce(batch), Ended(c));
    CountSplit(s.popped, Dropped(g, s.path[..s.idx], batch), c);
  }

  /** Settling announces and finishes no component. */
  lemma SettleEvents(g: Graph, w: World, s: State, to: nat) returns (es: seq<Event>)
    requires s.idx <= to <= |s.path|
    ensures es == [] || es == [UserInputs] || es == [WorkflowFinished]
    ensures var s' := Settle(g, w, s, to);
            s'.events == s.events + es && s'.partials == s.partials && s'.popped == s.popped
  {
    var s', pending := Settle(g, w, s, to), s.path[to..];
    if Known(g, pending) { InvokeAllKeeps(g, w, s.(idx := to), Forms(g, pending, true)); }
    es := if s'.events == s.events then [] else if s'.status.Suspended? then [UserInputs] else [WorkflowFinished];
  }

  lemma SettleBalanced(g: Graph, w: World, s: State, to: nat, c: Id)
    requires s.idx <= to <= |s.path|
    ensures Debt(Settle(g, w, s, to), c) == Debt(s, c)
  {
    var es := SettleEvents(g, w, s, to);
    CountSplit(s.events, es, Started(c));
    CountSplit(s.events, es, Ended(c));
  }

  ghost predicate Balanced(g: Graph, s: State) {
    forall c :: c in g.comp && !IsBlock(g.comp[c].kind) ==> Debt(s, c) == 0
  }

  lemma StepKeepsBalance(g: Graph, w: World, s: State)
    requires ItemsInBlocks(g) && Balanced(g, s)
    requires !Step(g, w, s).status.Raised?
    ensures Balanced(g, Step(g, w, s))
  {
    if s.status.Running? && s.idx < |s.path| && Known(g, s.path[s.idx..]) && !Canceled(w, s.tick, 0) {
      BatchShape(g, w, s);
      var invoked := RunBatch(g, w, s);
      var kept := invoked.path[s.idx..];
      var posted := PostAll(g, w, invoked, kept);
      forall c | c in g.comp && !IsBlock(g.comp[c].kind)
        ensures Debt(Step(g, w, s), c) == 0
      {
        BatchCharges(g, w, s, c);
        PostAllPays(g, w, invoked, kept, c);
        SettleBalanced(g, w, posted, |invoked.path|, c);
      }
    }
  }

  lemma {:induction false} ExecKeepsBalance(g: Graph, s: State, acts: seq<Action>)
    requires ItemsInBlocks(g)
    requires s.status.Raised? || Balanced(g, s)
    ensures Exec(g, s, acts).status.Raised? || Balanced(g, Exec(g, s, acts))
    decreases |acts|
  {
    if acts != [] {
      var next := Act(g, s, acts[0]);
      if acts[0].Turn? && !next.status.Raised? { StepKeepsBalance(g, acts[0].w, s); }
      ExecKeepsBalance(g, next, acts[1..]);
    }
  }

  /** At every batch boundary of every run, for each component other than Iteration and Loop: the times it
      was started are the times it finished, plus its places in `partials`, plus its entries that
      the dependency check removed. */
  lemma StartedIsAccountedFor(g: Graph, s: State, acts: seq<Action>, c: Id)
    requires ItemsInBlocks(g) && c in g.comp && !IsBlock(g.comp[c].kind)
    requires s.status.Idle? && s.events == [] && s.partials == [] && s.popped == []
    requires !Exec(g, s, acts).status.Raised?
    ensures var s' := Exec(g, s, acts);
            multiset(s'.events)[Started(c)]
            == multiset(s'.events)[Ended(c)] + multiset(s'.partials)[c] + multiset(s'.popped)[c]
  {
    ExecKeepsBalance(g, s, acts);
    assert Debt(Exec(g, s, acts), c) == 0;
  }
}
