/** How a turn ends: with an error, at a form, at the end of the workflow, or with another batch. */
module TurnOutcome {
  import opened Wrappers
  import opened Sequences
  import opened WorkflowGraph
  import opened LoopConditions
  import opened Scheduler
  import opened FanOut

  // ---------- errors ----------

  /** The component reports an error that no handler takes over: there is none, or it neither jumps nor has a default
      value. */
  predicate Fails(g: Graph, mem: Memory, id: Id)
    requires id in g.comp
  {
    && id in mem.outputs && ERROR in mem.outputs[id] && Truthy(mem.outputs[id][ERROR])
    && match g.comp[id].handler
       case None => true
       case Some(h) => h.goto == [] && !Truthy(h.default)
  }

  /** Post-processing a component of any kind finds an error exactly when there was one or the component fails. */
  lemma ErrorIffFails(g: Graph, w: World, s: State, id: Id)
    requires id in g.comp && !PostOne(g, w, s, id).status.Raised?
    ensures PostOne(g, w, s, id).error <==> s.error || Fails(g, PostOne(g, w, s, id).mem, id)
  {
    ErrorStays(g, w, s, id);
    var handled := HandleError(g, Speak(g, w, s, id), id);
    assert handled.error <==> s.error || Fails(g, handled.mem, id);
    SuccessorsKeepError(g, Report(g, handled, id), id, TakesOtherBranch(g, Speak(g, w, s, id), id));
  }

  lemma SuccessorsKeepError(g: Graph, s: State, id: Id, other: bool)
    requires id in g.comp
    ensures Successors(g, s, id, other).error == s.error && Successors(g, s, id, other).mem == s.mem
  {}

  /** Entry `k` of a batch fails, as its post-processing finds. */
  ghost predicate EntryFails(g: Graph, w: World, s: State, ids: seq<Id>, k: nat)
    requires Known(g, ids)
  {
    k < |ids| && (assert ids[k] in ids; Fails(g, Posted(g, w, s, ids, k + 1).mem, ids[k]))
  }

  lemma {:induction false} ErrorUpTo(g: Graph, w: World, s: State, ids: seq<Id>, n: nat)
    requires Known(g, ids) && n <= |ids| && !Posted(g, w, s, ids, n).status.Raised?
    ensures Posted(g, w, s, ids, n).error <==> s.error || exists k: nat :: k < n && EntryFails(g, w, s, ids, k)
    decreases n
  {
    if n == 0 {
      assert ids[..0] == [];
    } else {
      ErrorNext(g, w, s, ids, n - 1);
      ErrorUpTo(g, w, s, ids, n - 1);
    }
  }

  lemma ErrorNext(g: Graph, w: World, s: State, ids: seq<Id>, k: nat)
    requires Known(g, ids) && k < |ids| && !Posted(g, w, s, ids, k + 1).status.Raised?
    ensures !Posted(g, w, s, ids, k).status.Raised?
    ensures Posted(g, w, s, ids, k + 1).error <==> Posted(g, w, s, ids, k).error || EntryFails(g, w, s, ids, k)
  {
    PostedNext(g, w, s, ids, k);
    ErrorIffFails(g, w, Posted(g, w, s, ids, k), ids[k]);
  }

  lemma ErrorIffEntryFails(g: Graph, w: World, s: State, ids: seq<Id>)
    requires Known(g, ids) && !PostAll(g, w, s, ids).status.Raised?
    ensures PostAll(g, w, s, ids).error <==> s.error || exists k: nat :: EntryFails(g, w, s, ids, k)
  {
    assert ids[..|ids|] == ids;
    ErrorUpTo(g, w, s, ids, |ids|);
  }

  // ---------- exceptions ----------

  /** The component is the last of a body and its parent is no block. */
  predicate NowhereToGo(g: Graph, id: Id)
    requires id in g.comp
  {
    var c := g.comp[id];
    && c.downstream == [] && c.parent.Some?
    && (c.parent.value in g.comp ==> !IsBlock(g.comp[c.parent.value].kind))
  }

  /** A message without text, or a component with nowhere to go, and no other component of an ordinary kind raises. */
  lemma OrdinaryRaisesIff(g: Graph, w: World, s: State, id: Id)
    requires id in g.comp && IsOrdinary(g.comp[id].kind) && !s.status.Raised?
    ensures var content := GetOut(s.mem, id, "content");
            PostOne(g, w, s, id).status.Raised?
            <==> (g.comp[id].kind.Message? && !content.Str? && !content.Stream?) || NowhereToGo(g, id)
  {}

  /** A block never raises, an early exit only without a parent or with nowhere to go. */
  lemma BlockRaisesIff(g: Graph, w: World, s: State, id: Id)
    requires id in g.comp && !s.status.Raised?
    ensures IsBlock(g.comp[id].kind) ==> !PostOne(g, w, s, id).status.Raised?
    ensures g.comp[id].kind.ExitLoop? ==>
              (PostOne(g, w, s, id).status.Raised?
               <==> g.comp[id].parent.None? || g.comp[id].parent.value !in g.comp || NowhereToGo(g, id))
  {}

  /** A component that chooses raises when its choice is neither a list of ids nor empty, unless a handler jumps; an
      empty choice is followed by nothing. */
  lemma ChoiceRaisesIff(g: Graph, w: World, s: State, id: Id)
    requires id in g.comp && (g.comp[id].kind.Switch? || g.comp[id].kind.Categorize?) && !s.status.Raised?
    requires !HasError(s.mem, id)
    ensures var s', next := PostOne(g, w, s, id), GetOut(s.mem, id, "_next");
            && (s'.status.Raised? <==> next != Str("") && forall targets :: !Chosen(next, targets))
            && (next == Str("") ==> s'.path == s.path)
  {
    assert Speak(g, w, s, id) == s && HandleError(g, s, id) == s;
    var next := GetOut(s.mem, id, "_next");
    assert GetOut(Report(g, s, id).mem, id, "_next") == next;
    var targets := Targets(next);
    if targets.Ok? && next.List? { assert Chosen(next, targets.value); }
    if ids :| Chosen(next, ids) { assert targets.Ok?; }
  }

  /** An item that has ended raises without a parent, the item of an iteration that has not, with nowhere to go. */
  lemma ItemRaisesIff(g: Graph, w: World, s: State, id: Id)
    requires id in g.comp && IsItem(g.comp[id].kind) && !s.status.Raised?
    requires g.comp[id].kind.IterationItem? || Cursor(s, id) == -1
    ensures PostOne(g, w, s, id).status.Raised?
            <==> if Cursor(s, id) == -1 then g.comp[id].parent.None? || g.comp[id].parent.value !in g.comp
                 else NowhereToGo(g, id)
  {}

  /** The item of a loop that has not ended raises when it has no loop, or when its end cannot be told. */
  lemma LoopItemRaisesIff(g: Graph, w: World, s: State, id: Id)
    requires id in g.comp && g.comp[id].kind.LoopItem? && !s.status.Raised? && Cursor(s, id) != -1
    ensures var p := g.comp[id].parent;
            PostOne(g, w, s, id).status.Raised?
            <==> p.None? || p.value !in g.comp || !g.comp[p.value].kind.Loop? || !TestableAfter(g, w, s, id)
  {
    var p := g.comp[id].parent;
    if p.Some? && p.value in g.comp && g.comp[p.value].kind.Loop? {
      ShouldEndMeaning(g, Handled(g, w, s, id).mem, g.comp[p.value].kind);
    }
  }

  /** What the entry's own post-processing leaves before its successors are looked for. */
  function Handled(g: Graph, w: World, s: State, id: Id): State
    requires id in g.comp
  {
    Report(g, HandleError(g, Speak(g, w, s, id), id), id)
  }

  ghost predicate TestableAfter(g: Graph, w: World, s: State, id: Id)
    requires id in g.comp && g.comp[id].parent.Some? && g.comp[id].parent.value in g.comp
    requires g.comp[g.comp[id].parent.value].kind.Loop?
  {
    Testable(g, Handled(g, w, s, id).mem, g.comp[g.comp[id].parent.value].kind)
  }

  // ---------- events ----------

  function Endings(es: seq<Event>): nat { multiset(es)[WorkflowFinished] + multiset(es)[UserInputs] }

  lemma {:induction false} FlushHasNoEnding(s: State)
    ensures Endings(FlushPartials(s).events) == Endings(s.events)
    decreases |s.partials|
  {
    if s.partials != [] && !Content(s, s.partials[0]).Stream? {
      FlushHasNoEnding(Emit(s, Ended(s.partials[0])).(partials := s.partials[1..]));
    }
  }

  lemma PostOneHasNoEnding(g: Graph, w: World, s: State, id: Id)
    requires id in g.comp
    ensures Endings(PostOne(g, w, s, id).events) == Endings(s.events)
  {
    var spoken := Speak(g, w, s, id);
    SpeakHasNoEnding(g, w, s, id);
    var reported := Report(g, HandleError(g, spoken, id), id);
    assert Endings(reported.events) == Endings(spoken.events);
    if !spoken.status.Raised? { SuccessorsHaveNoEnding(g, reported, id, TakesOtherBranch(g, spoken, id)); }
  }

  lemma SpeakHasNoEnding(g: Graph, w: World, s: State, id: Id)
    requires id in g.comp
    ensures Endings(Speak(g, w, s, id).events) == Endings(s.events)
  {
    if g.comp[id].kind.Message? {
      var mem := SetOut(w.stream(s.tick, id, s.mem).0, id, "content", Str(w.stream(s.tick, id, s.mem).1));
      FlushHasNoEnding(s.(mem := mem, tick := s.tick + 1));
      FlushHasNoEnding(s);
    }
  }

  lemma SuccessorsHaveNoEnding(g: Graph, s: State, id: Id, other: bool)
    requires id in g.comp
    ensures Endings(Successors(g, s, id, other).events) == Endings(s.events)
  {}

  lemma {:induction false} PostAllHasNoEnding(g: Graph, w: World, s: State, ids: seq<Id>)
    requires Known(g, ids)
    ensures Endings(PostAll(g, w, s, ids).events) == Endings(s.events)
    decreases |ids|
  {
    if ids != [] && !s.status.Raised? {
      PostOneHasNoEnding(g, w, s, ids[0]);
      PostAllHasNoEnding(g, w, PostOne(g, w, s, ids[0]), ids[1..]);
    }
  }

  lemma AnnounceHasNoEnding(ids: seq<Id>)
    ensures Endings(Announce(ids)) == 0
  {}

  /** How often a block has been reported as finished. */
  function Reports(es: seq<Event>, block: Id): nat { multiset(es)[Ended(block)] }

  lemma {:induction false} FlushReportsNoBlock(s: State, block: Id)
    requires block !in s.partials
    ensures Reports(FlushPartials(s).events, block) == Reports(s.events, block)
    ensures block !in FlushPartials(s).partials
    decreases |s.partials|
  {
    if s.partials != [] && !Content(s, s.partials[0]).Stream? {
      FlushReportsNoBlock(Emit(s, Ended(s.partials[0])).(partials := s.partials[1..]), block);
    }
  }

  lemma SpeakReportsNoBlock(g: Graph, w: World, s: State, id: Id, block: Id)
    requires id in g.comp && block !in s.partials
    ensures Reports(Speak(g, w, s, id).events, block) == Reports(s.events, block)
    ensures block !in Speak(g, w, s, id).partials
  {
    if g.comp[id].kind.Message? {
      var mem := SetOut(w.stream(s.tick, id, s.mem).0, id, "content", Str(w.stream(s.tick, id, s.mem).1));
      FlushReportsNoBlock(s.(mem := mem, tick := s.tick + 1), block);
      FlushReportsNoBlock(s, block);
    }
  }

  /** The entry is an item of the block that ends: it has reached its limit or the end of the array, or a condition. */
  ghost predicate EndsHere(g: Graph, s: State, id: Id, block: Id)
    requires id in g.comp && block in g.comp && IsBlock(g.comp[block].kind)
  {
    && IsItem(g.comp[id].kind) && HasParent(g, id, block)
    && (Cursor(s, id) == -1
        || (g.comp[id].kind.LoopItem? && g.comp[block].kind.Loop? && Met(g, s.mem, g.comp[block].kind)))
  }

  /** A block is reported as finished once when one of its items ends, and at no other time. */
  lemma BlockIsReportedIff(g: Graph, w: World, s: State, id: Id, block: Id)
    requires id in g.comp && block in g.comp && IsBlock(g.comp[block].kind) && block !in s.partials
    requires !PostOne(g, w, s, id).status.Raised?
    ensures var s' := PostOne(g, w, s, id);
            && Reports(s'.events, block)
               == Reports(s.events, block) + (if EndsHere(g, Handled(g, w, s, id), id, block) then 1 else 0)
            && block !in s'.partials
  {
    SpeakReportsNoBlock(g, w, s, id, block);
    var done, other := Handled(g, w, s, id), TakesOtherBranch(g, Speak(g, w, s, id), id);
    assert Reports(done.events, block) == Reports(s.events, block) && block !in done.partials;
    if IsItem(g.comp[id].kind) {
      ItemReports(g, done, id, other, block);
    } else {
      OthersReportNothing(g, done, id, other);
    }
  }

  lemma OthersReportNothing(g: Graph, s: State, id: Id, other: bool)
    requires id in g.comp && !IsItem(g.comp[id].kind)
    ensures Successors(g, s, id, other).events == s.events
  {}

  lemma ItemReports(g: Graph, s: State, id: Id, other: bool, block: Id)
    requires id in g.comp && block in g.comp && IsBlock(g.comp[block].kind) && IsItem(g.comp[id].kind)
    requires !Successors(g, s, id, other).status.Raised?
    ensures Reports(Successors(g, s, id, other).events, block)
            == Reports(s.events, block) + (if EndsHere(g, s, id, block) then 1 else 0)
  {
    ItemEndMeaning(g, s, id);
    var ended := ItemEnd(g, s, id);
    if ended.value {
      assert Successors(g, s, id, other).events == s.events + [Ended(g.comp[id].parent.value)];
    } else {
      assert Successors(g, s, id, other).events == s.events;
    }
  }

  /** When an item ends. */
  lemma ItemEndMeaning(g: Graph, s: State, id: Id)
    requires id in g.comp && IsItem(g.comp[id].kind) && ItemEnd(g, s, id).Ok?
    ensures ItemEnd(g, s, id).value
            <==> || Cursor(s, id) == -1
                 || (&& g.comp[id].kind.LoopItem? && g.comp[id].parent.Some? && g.comp[id].parent.value in g.comp
                     && g.comp[g.comp[id].parent.value].kind.Loop?
                     && Met(g, s.mem, g.comp[g.comp[id].parent.value].kind))
  {
    var p := g.comp[id].parent;
    if p.Some? && p.value in g.comp && g.comp[p.value].kind.Loop? {
      ShouldEndMeaning(g, s.mem, g.comp[p.value].kind);
    }
  }

  /** A batch is announced entry by entry before any of it is invoked, those that the check drops included. */
  lemma BatchIsAnnounced(g: Graph, w: World, s: State, i: nat)
    requires s.idx + i < |s.path| && Known(g, s.path[s.idx..]) && !Canceled(w, s.tick, 0)
    ensures var events := RunBatch(g, w, s).events;
            && s.events <= events && |events| == |s.events| + (|s.path| - s.idx)
            && events[|s.events| + i] == Started(s.path[s.idx + i])
  {
    BatchShape(g, w, s);
  }

  // ---------- the turn ----------

  /** A batch that is known and not canceled: what is invoked, what post-processing leaves, and where it ends. */
  ghost predicate IsBatch(g: Graph, w: World, s: State, invoked: State, posted: State) {
    && s.status.Running? && s.idx < |s.path| && Known(g, s.path[s.idx..]) && !Canceled(w, s.tick, 0)
    && invoked == RunBatch(g, w, s) && s.idx <= |invoked.path| && invoked.path[..s.idx] == s.path[..s.idx]
    && Known(g, invoked.path[s.idx..]) && posted == PostAll(g, w, invoked, invoked.path[s.idx..])
  }

  lemma BatchOf(g: Graph, w: World, s: State) returns (invoked: State, posted: State)
    requires s.status.Running? && s.idx < |s.path| && !Step(g, w, s).status.Raised?
    ensures IsBatch(g, w, s, invoked, posted) && invoked.idx == s.idx && invoked.error == s.error
    ensures posted.idx == s.idx && invoked.path <= posted.path && !posted.status.Raised?
    ensures Step(g, w, s) == Settle(g, w, posted, |invoked.path|)
    ensures Endings(posted.events) == Endings(s.events)
  {
    BatchShape(g, w, s);
    invoked := RunBatch(g, w, s);
    posted := PostAll(g, w, invoked, invoked.path[s.idx..]);
    PostAllHasNoEnding(g, w, invoked, invoked.path[s.idx..]);
    AnnounceHasNoEnding(s.path[s.idx..]);
    assert Grows(invoked, posted);
  }

  /** A turn that does not raise ends the run with an error exactly when an entry of its batch fails; then the path is
      cut where the batch began, and the workflow is not reported as finished. */
  lemma TurnFailsIff(g: Graph, w: World, s: State) returns (invoked: State, posted: State)
    requires s.status.Running? && s.idx < |s.path| && !s.error && !Step(g, w, s).status.Raised?
    ensures IsBatch(g, w, s, invoked, posted)
    ensures var s' := Step(g, w, s);
            && (s'.error <==> exists k: nat :: EntryFails(g, w, invoked, invoked.path[s.idx..], k))
            && (s'.error ==> s'.status.Finished? && s'.path == s.path[..s.idx]
                             && Endings(s'.events) == Endings(s.events))
  {
    invoked, posted := BatchOf(g, w, s);
    ErrorIffEntryFails(g, w, invoked, invoked.path[s.idx..]);
    SettleKeepsError(g, w, posted, |invoked.path|);
    if posted.error {
      assert posted.path[..s.idx] == invoked.path[..s.idx];
    }
  }

  lemma SettleKeepsError(g: Graph, w: World, s: State, to: nat)
    requires s.idx <= to <= |s.path|
    ensures Settle(g, w, s, to).error == s.error
  {
    var pending := s.path[to..];
    if Known(g, pending) { InvokeAllKeeps(g, w, s.(idx := to), Forms(g, pending, true)); }
  }

  /** A turn without errors goes on with exactly the entries that were appended: the workflow is finished, and
      reported as such, when there are none; the user is asked when there is a form among them; otherwise they are the
      next batch. */
  lemma TurnGoesOn(g: Graph, w: World, s: State) returns (invoked: State, posted: State)
    requires s.status.Running? && s.idx < |s.path| && !s.error
    requires !Step(g, w, s).status.Raised? && !Step(g, w, s).error
    ensures IsBatch(g, w, s, invoked, posted) && invoked.path <= posted.path
    ensures GoesOn(g, posted, posted.path[|invoked.path|..], Step(g, w, s))
    ensures Endings(posted.events) == Endings(s.events)
  {
    invoked, posted := BatchOf(g, w, s);
    SettleKeepsError(g, w, posted, |invoked.path|);
    SettleGoesOn(g, w, posted, |invoked.path|);
  }

  /** What becomes of a run that has processed its batch and has `pending` left. */
  ghost predicate GoesOn(g: Graph, posted: State, pending: seq<Id>, s': State) {
    if pending == [] then
      s'.status.Finished? && s'.path == posted.path && s'.events == posted.events + [WorkflowFinished]
    else if exists id <- pending :: IsForm(g, id) then
      s'.status.Suspended? && s'.events == posted.events + [UserInputs] && AskedFirst(g, s'.path, pending)
    else
      |pending| <= |posted.path| && s' == posted.(idx := |posted.path| - |pending|)
  }

  lemma SettleGoesOn(g: Graph, w: World, s: State, to: nat)
    requires s.idx <= to <= |s.path| && !s.error && !s.status.Raised? && !Settle(g, w, s, to).status.Raised?
    ensures GoesOn(g, s, s.path[to..], Settle(g, w, s, to))
  {
    var pending := s.path[to..];
    assert s.path[..|s.path|] == s.path;
    if pending != [] && exists id <- pending :: IsForm(g, id) {
      InvokeAllKeeps(g, w, s.(idx := to), Forms(g, pending, true));
      FormsSplit(g, pending);
    }
  }

  // ---------- suspension ----------

  /** `path` holds what is pending, nothing lost and nothing added: the forms first, then the rest, each in order. */
  ghost predicate AskedFirst(g: Graph, path: seq<Id>, pending: seq<Id>) {
    multiset(path) == multiset(pending) && exists n: nat :: SplitAt(g, path, pending, n)
  }

  ghost predicate SplitAt(g: Graph, path: seq<Id>, pending: seq<Id>, n: nat) {
    n <= |path| && IsFilter(path[..n], pending, FormsAt(g, pending, true))
    && IsFilter(path[n..], pending, FormsAt(g, pending, false))
  }

  /** The positions of the forms, or of the rest. */
  function FormsAt(g: Graph, ids: seq<Id>, forms: bool): nat -> bool {
    (i: nat) => i < |ids| && IsForm(g, ids[i]) == forms
  }

  lemma {:induction false} FormsFilter(g: Graph, ids: seq<Id>, forms: bool)
    ensures IsFilter(Forms(g, ids, forms), ids, FormsAt(g, ids, forms))
    decreases |ids|
  {
    if ids == [] {
      FilterNothing<Id>(FormsAt(g, ids, forms));
    } else {
      var rest := ids[1..];
      FormsFilter(g, rest, forms);
      FilterSame(Forms(g, rest, forms), rest, FormsAt(g, rest, forms), Later(FormsAt(g, ids, forms)));
      FilterCons(Forms(g, rest, forms), ids, FormsAt(g, ids, forms));
    }
  }

  lemma {:induction false} FormsLoseNothing(g: Graph, ids: seq<Id>)
    ensures multiset(Forms(g, ids, true)) + multiset(Forms(g, ids, false)) == multiset(ids)
    decreases |ids|
  {
    if ids != [] {
      FormsLoseNothing(g, ids[1..]);
      assert ids == [ids[0]] + ids[1..];
    }
  }

  lemma FormsSplit(g: Graph, pending: seq<Id>)
    ensures AskedFirst(g, Forms(g, pending, true) + Forms(g, pending, false), pending)
  {
    var asked, others := Forms(g, pending, true), Forms(g, pending, false);
    var path := asked + others;
    FormsFilter(g, pending, true);
    FormsFilter(g, pending, false);
    FormsLoseNothing(g, pending);
    assert path[..|asked|] == asked && path[|asked|..] == others;
    assert SplitAt(g, path, pending, |asked|);
  }

  // ---------- the next run ----------

  /** A run goes on at the last entry of the path exactly when that is named like a user form, without "begin";
      otherwise it begins anew behind the path. Outputs are cleared, cursors are kept. */
  lemma StartMeaning(w: World, s: State, globals: map<string, Value>)
    requires !Canceled(w, s.tick, 0)
    ensures var s' := StartRun(w, s, globals);
            && s'.status.Running? && !s'.error && s'.partials == [] && s'.cursors == s.cursors
            && s'.mem.globals == globals && s'.idx + 1 == |s'.path|
            && (s'.path == s.path <==> s.path != [] && NamedFillUp(s.path[|s.path| - 1]))
            && (s'.path != s.path ==> s'.path == s.path + ["begin"])
            && forall id, key :: if id in s.mem.outputs && key in s.mem.outputs[id]
                                 then GetOut(s'.mem, id, key) == Null else GetOut(s'.mem, id, key) == Str("")
  {
    assert |s.path + ["begin"]| != |s.path|;
  }

  /** A reset forgets the path and every output, and nothing of the cursors. */
  lemma ResetMeaning(s: State)
    ensures var s' := ResetCanvas(s);
            && s'.status.Idle? && s'.path == [] && s'.idx == 0 && s'.partials == [] && s'.events == [] && !s'.error
            && s'.cursors == s.cursors
            && forall id, key :: if id in s.mem.outputs && key in s.mem.outputs[id]
                                 then GetOut(s'.mem, id, key) == Null else GetOut(s'.mem, id, key) == Str("")
  {}

  /** After a suspension the next run goes on without "begin" when nothing but forms is pending and their ids say so;
      with anything else pending it begins anew. */
  lemma ResumesAtForm(g: Graph, w: World, s: State, pending: seq<Id>, globals: map<string, Value>)
    requires AskedFirst(g, s.path, pending) && pending != []
    requires forall id <- pending :: IsForm(g, id) == NamedFillUp(id)
    ensures StartRun(w, s, globals).path == s.path <==> forall id <- pending :: IsForm(g, id)
  {
    var n: nat :| SplitAt(g, s.path, pending, n);
    assert |s.path| == |multiset(s.path)| == |multiset(pending)| == |pending|;
    assert |s.path + ["begin"]| != |s.path|;
    LastPending(g, s.path, pending, n);
  }

  /** The last of what is pending is a form only when everything is. */
  lemma LastPending(g: Graph, path: seq<Id>, pending: seq<Id>, n: nat)
    requires SplitAt(g, path, pending, n) && path != []
    ensures path[|path| - 1] in pending
    ensures IsForm(g, path[|path| - 1]) <==> forall id <- pending :: IsForm(g, id)
  {
    if n < |path| {
      assert path[|path| - 1] == path[n..][|path| - n - 1];
      var i := FilterKept(path[n..], pending, FormsAt(g, pending, false), |path| - n - 1);
    } else {
      var i := FilterKept(path[..n], pending, FormsAt(g, pending, true), n - 1);
      NothingElse(g, path[n..], pending);
    }
  }

  lemma NothingElse(g: Graph, others: seq<Id>, pending: seq<Id>)
    requires others == [] && IsFilter(others, pending, FormsAt(g, pending, false))
    ensures forall id <- pending :: IsForm(g, id)
  {
    FilterAll(others, pending, FormsAt(g, pending, false));
    forall i: nat | i < |pending| ensures IsForm(g, pending[i]) {
      assert !FormsAt(g, pending, false)(i);
    }
  }
}
