/** `Canvas.run` as a state machine. One step is one turn of its outer while loop: announce the batch
    path[idx..], drop the entries whose inputs are not there, invoke the rest, and post-process them. */
module Scheduler {
  import opened Wrappers
  import opened WorkflowGraph
  import opened Components

  datatype Event = Started(id: Id) | Ended(id: Id) | UserInputs | WorkflowFinished

  datatype Status = Idle | Running | Finished | Suspended | Raised

  /** `ran` and `popped` are records for the proofs: the path positions that have been executed, and the
      entries the dependency check removed during this run. */
  datatype State = State(
    path: seq<Id>,
    idx: nat,
    partials: seq<Id>,
    error: bool,
    mem: Memory,
    cursors: map<Id, int>,    // the _idx of every item
    tick: nat,
    events: seq<Event>,
    status: Status,
    ran: set<nat>,
    popped: seq<Id>)

  function Cursor(s: State, id: Id): int {
    if id in s.cursors then s.cursors[id] else 0
  }

  function Emit(s: State, e: Event): State { s.(events := s.events + [e]) }

  function Announce(ids: seq<Id>): (es: seq<Event>)
    ensures |es| == |ids|
  {
    seq(|ids|, i requires 0 <= i < |ids| => Started(ids[i]))
  }

  /** The positions from `lo` up to, but not including, `hi`. */
  function Span(lo: nat, hi: nat): (r: set<nat>)
    ensures forall i: nat :: i in r <==> lo <= i < hi
    decreases hi
  {
    if hi <= lo then {} else Span(lo, hi - 1) + {hi - 1}
  }

  /** What post-processing never takes back. */
  ghost predicate Grows(s: State, s': State) {
    && s.path <= s'.path
    && s'.idx == s.idx
    && s'.ran == s.ran
    && s'.popped == s.popped
    && (s.error ==> s'.error)
    && (s'.status == s.status || s'.status.Raised?)
  }

  lemma GrowsTransitive(s0: State, s1: State, s2: State)
    requires Grows(s0, s1) && Grows(s1, s2)
    ensures Grows(s0, s2)
  {}

  // ---------- the dependency check ----------

  /** Whether an entry may run, given the path before it and the head of the path. */
  predicate Ready(g: Graph, head: Id, before: seq<Id>, id: Id)
    requires id in g.comp
  {
    || g.comp[id].kind.Begin?
    || g.comp[id].kind.UserFillUp?
    || NamedFillUp(head)
    || InputsIn(g, before, id)
  }

  predicate InputsIn(g: Graph, before: seq<Id>, id: Id)
    requires id in g.comp
  {
    forall r <- g.comp[id].inputs :: r == "" || r in before
  }

  predicate Known(g: Graph, ids: seq<Id>) { forall id <- ids :: id in g.comp }

  /** The entries of a batch that a left-to-right pass keeps, each judged against what was kept before it. */
  function Kept(g: Graph, before: seq<Id>, batch: seq<Id>): (kept: seq<Id>)
    requires Known(g, batch)
    ensures |kept| <= |batch|
    ensures Known(g, kept)
    decreases |batch|
  {
    if batch == [] then []
    else if Ready(g, (before + batch)[0], before, batch[0]) then
      [batch[0]] + Kept(g, before + [batch[0]], batch[1..])
    else Kept(g, before, batch[1..])
  }

  function Dropped(g: Graph, before: seq<Id>, batch: seq<Id>): seq<Id>
    requires Known(g, batch)
    decreases |batch|
  {
    if batch == [] then []
    else if Ready(g, (before + batch)[0], before, batch[0]) then
      Dropped(g, before + [batch[0]], batch[1..])
    else [batch[0]] + Dropped(g, before, batch[1..])
  }

  // ---------- invocation ----------

  function Invoke(g: Graph, w: World, s: State, id: Id): State
    requires id in g.comp
  {
    var k := g.comp[id].kind;
    var s1 := s.(tick := s.tick + 1);
    if k.Iteration? then s1.(mem := InvokeIteration(g, w, s.tick, s.mem, id))
    else if k.Loop? then s1.(mem := InvokeLoop(g, w, s.tick, s.mem, id))
    else if k.IterationItem? then
      var r := InvokeIterationItem(g, w, s.tick, s.mem, Cursor(s, id), id);
      s1.(mem := r.mem, cursors := s.cursors[id := r.idx])
    else if k.LoopItem? then
      var r := InvokeLoopItem(g, w, s.tick, s.mem, Cursor(s, id), id);
      s1.(mem := r.mem, cursors := s.cursors[id := r.idx])
    else if k.ExitLoop? then s1
    else s1.(mem := w.invoke(s.tick, id, s.mem))
  }

  function InvokeAll(g: Graph, w: World, s: State, ids: seq<Id>): State
    requires Known(g, ids)
    decreases |ids|
  {
    if ids == [] then s else InvokeAll(g, w, Invoke(g, w, s, ids[0]), ids[1..])
  }

  // ---------- post-processing ----------

  function Content(s: State, id: Id): Value { GetOut(s.mem, id, "content") }

  /** Report the streaming components at the front of `partials` that are through. */
  function FlushPartials(s: State): (s': State)
    ensures s' == s.(partials := s'.partials, events := s'.events)
    decreases |s.partials|
  {
    if s.partials == [] || Content(s, s.partials[0]).Stream? then s
    else FlushPartials(Emit(s, Ended(s.partials[0])).(partials := s.partials[1..]))
  }

  /** Send out the content of a message, draining it when it is a stream. */
  function Speak(g: Graph, w: World, s: State, id: Id): (s': State)
    requires id in g.comp
    ensures Grows(s, s') && s'.error == s.error && s'.path == s.path && s'.cursors == s.cursors
  {
    if !g.comp[id].kind.Message? then s
    else if Content(s, id).Stream? then
      var (mem, text) := w.stream(s.tick, id, s.mem);
      FlushPartials(s.(mem := SetOut(mem, id, "content", Str(text)), tick := s.tick + 1))
    else if Content(s, id).Str? then FlushPartials(s)
    else s.(status := Raised)
  }

  predicate TakesOtherBranch(g: Graph, s: State, id: Id)
    requires id in g.comp
  {
    HasError(s.mem, id) && g.comp[id].handler.Some? && g.comp[id].handler.value.goto != []
  }

  function HandleError(g: Graph, s: State, id: Id): (s': State)
    requires id in g.comp
    ensures Grows(s, s') && s'.status == s.status
  {
    if !HasError(s.mem, id) then s
    else if TakesOtherBranch(g, s, id) then s.(path := s.path + g.comp[id].handler.value.goto)
    else if g.comp[id].handler.Some? && Truthy(g.comp[id].handler.value.default) then s
    else s.(error := true)
  }

  /** Report a component as finished, or keep it in `partials` while its content streams. */
  function Report(g: Graph, s: State, id: Id): (s': State)
    requires id in g.comp
    ensures Grows(s, s') && s'.status == s.status && s'.path == s.path && s'.cursors == s.cursors
  {
    if IsBlock(g.comp[id].kind) then s
    else if !Content(s, id).Stream? then Emit(s, Ended(id))
    else if s.error then Emit(s.(mem := SetOut(s.mem, id, "content", Null)), Ended(id))
    else s.(partials := s.partials + [id])
  }

  function AppendPath(path: seq<Id>, id: Id): (r: seq<Id>)
    ensures path <= r
  {
    if path != [] && path[|path| - 1] == id then path else path + [id]
  }

  function ExtendPath(path: seq<Id>, ids: seq<Id>): (r: seq<Id>)
    ensures path <= r
    decreases |ids|
  {
    if ids == [] then path else ExtendPath(AppendPath(path, ids[0]), ids[1..])
  }

  function Extend(s: State, other: bool, ids: seq<Id>): (s': State)
    ensures s' == s.(path := s'.path) && s.path <= s'.path
  {
    if other then s else s.(path := ExtendPath(s.path, ids))
  }

  /** The ids in a `_next` output; iterating over anything else raises. */
  function Targets(v: Value): Result<seq<Id>> {
    match v
    case List(items) =>
      if forall i :: 0 <= i < |items| ==> items[i].Str? then
        Ok(seq(|items|, i requires 0 <= i < |items| && items[i].Str? => items[i].s))
      else Raise
    case Str(t) => if t == "" then Ok([]) else Raise
    case _ => Raise
  }

  /** `end()` of an item, with the cursor it leaves behind. */
  function ItemEnd(g: Graph, s: State, id: Id): Result<bool>
    requires id in g.comp && IsItem(g.comp[id].kind)
  {
    if g.comp[id].kind.IterationItem? then Ok(Cursor(s, id) == -1) else LoopItemEnd(g, s.mem, Cursor(s, id), id)
  }

  /** The branch for entries that are not special: the back edge of a body leaf, or the downstream. */
  function Proceed(g: Graph, s: State, id: Id, other: bool): (s': State)
    requires id in g.comp
    ensures Grows(s, s') && s'.mem == s.mem && s'.partials == s.partials && s'.tick == s.tick
  {
    var c := g.comp[id];
    if c.downstream == [] && c.parent.Some? then
      if c.parent.value in g.comp && IsBlock(g.comp[c.parent.value].kind) then
        Extend(s, other, [StartOf(g, c.parent.value)])
      else s.(status := Raised)
    else Extend(s, other, c.downstream)
  }

  function LeaveBlock(g: Graph, s: State, id: Id, other: bool): (s': State)
    requires id in g.comp
    ensures Grows(s, s') && s'.mem == s.mem && s'.partials == s.partials && s'.tick == s.tick
  {
    var p := g.comp[id].parent;
    if p.None? || p.value !in g.comp then s.(status := Raised)
    else Extend(Emit(s, Ended(p.value)), other, g.comp[p.value].downstream)
  }

  function Successors(g: Graph, s: State, id: Id, other: bool): (s': State)
    requires id in g.comp
    ensures Grows(s, s') && s'.mem == s.mem && s'.partials == s.partials && s'.tick == s.tick
  {
    var c := g.comp[id];
    if IsItem(c.kind) then
      var ended := ItemEnd(g, s, id);
      if ended.Raise? then s.(status := Raised)
      else if ended.value then LeaveBlock(g, s.(cursors := s.cursors[id := -1]), id, other)
      else Proceed(g, s, id, other)
    else if c.kind.Categorize? || c.kind.Switch? then
      var next := Targets(GetOut(s.mem, id, "_next"));
      if other then s else if next.Raise? then s.(status := Raised) else Extend(s, false, next.value)
    else if IsBlock(c.kind) then Extend(s, other, [StartOf(g, id)])
    else if c.kind.ExitLoop? && (c.parent.None? || c.parent.value !in g.comp) then s.(status := Raised)
    else if c.kind.ExitLoop? && g.comp[c.parent.value].kind.Loop? then
      Extend(s, other, g.comp[c.parent.value].downstream)
    else Proceed(g, s, id, other)
  }

  function PostOne(g: Graph, w: World, s: State, id: Id): (s': State)
    requires id in g.comp
    ensures Grows(s, s')
  {
    var spoken := Speak(g, w, s, id);
    if spoken.status.Raised? then spoken
    else
      var handled := HandleError(g, spoken, id);
      var reported := Report(g, handled, id);
      GrowsTransitive(s, spoken, handled);
      GrowsTransitive(s, handled, reported);
      var next := Successors(g, reported, id, TakesOtherBranch(g, spoken, id));
      GrowsTransitive(s, reported, next);
      next
  }

  /** Post-process the entries of a batch in order, until one of them raises. */
  function PostAll(g: Graph, w: World, s: State, ids: seq<Id>): (s': State)
    requires Known(g, ids)
    ensures Grows(s, s')
    decreases |ids|
  {
    if ids == [] || s.status.Raised? then s
    else
      var next := PostOne(g, w, s, ids[0]);
      var last := PostAll(g, w, next, ids[1..]);
      GrowsTransitive(s, next, last);
      last
  }

  // ---------- one turn of the loop ----------

  predicate IsForm(g: Graph, id: Id) { id in g.comp && g.comp[id].kind.UserFillUp? }

  function Forms(g: Graph, ids: seq<Id>, forms: bool): (r: seq<Id>)
    ensures forall id <- r :: id in ids && IsForm(g, id) == forms
    decreases |ids|
  {
    if ids == [] then []
    else if IsForm(g, ids[0]) == forms then [ids[0]] + Forms(g, ids[1..], forms)
    else Forms(g, ids[1..], forms)
  }

  /** Finish the run: forget what was not executed. */
  function Finish(s: State): State
    requires s.idx <= |s.path|
  {
    var cut := s.(path := s.path[..s.idx], ran := set i | i in s.ran && i < s.idx);
    if s.error then cut.(status := Finished)
    else if cut.path == [] then cut.(status := Raised)
    else Emit(cut.(status := Finished), WorkflowFinished)
  }

  function Suspend(g: Graph, w: World, s: State, pending: seq<Id>): State
    requires Known(g, pending)
  {
    var forms := Forms(g, pending, true);
    assert Known(g, forms);
    var asked := InvokeAll(g, w, s, forms);
    Emit(asked.(path := forms + Forms(g, pending, false), ran := {}, status := Suspended), UserInputs)
  }

  /** What follows the post-processing of a batch that ended at position `to`. */
  function Settle(g: Graph, w: World, s: State, to: nat): State
    requires s.idx <= to <= |s.path|
  {
    if s.status.Raised? then s
    else if s.error then Finish(s)
    else
      var next := s.(idx := to);
      var pending := s.path[to..];
      if pending == [] then Finish(next)
      else if !Known(g, pending) then next.(status := Raised)
      else if exists id <- pending :: IsForm(g, id) then Suspend(g, w, next, pending)
      else next
  }

  /** The batch after the dependency check, announced and invoked. */
  function RunBatch(g: Graph, w: World, s: State): State
    requires s.idx <= |s.path| && Known(g, s.path[s.idx..])
  {
    var batch := s.path[s.idx..];
    var before := s.path[..s.idx];
    var kept := Kept(g, before, batch);
    var started := s.(events := s.events + Announce(batch));
    if Canceled(w, s.tick, 0) then started.(status := Raised)
    else
      InvokeAll(g, w, started.(path := before + kept,
                               popped := s.popped + Dropped(g, before, batch),
                               ran := s.ran + Span(s.idx, s.idx + |kept|)), kept)
  }

  lemma InvokeKeeps(g: Graph, w: World, s: State, id: Id)
    requires id in g.comp
    ensures var s' := Invoke(g, w, s, id);
            s' == s.(mem := s'.mem, cursors := s'.cursors, tick := s'.tick)
  {}

  lemma {:induction false} InvokeAllKeeps(g: Graph, w: World, s: State, ids: seq<Id>)
    requires Known(g, ids)
    ensures var s' := InvokeAll(g, w, s, ids);
            s' == s.(mem := s'.mem, cursors := s'.cursors, tick := s'.tick)
    decreases |ids|
  {
    if ids != [] {
      InvokeKeeps(g, w, s, ids[0]);
      InvokeAllKeeps(g, w, Invoke(g, w, s, ids[0]), ids[1..]);
    }
  }

  /** One turn of the outer while loop. */
  function Step(g: Graph, w: World, s: State): State {
    if !s.status.Running? || s.idx >= |s.path| then s
    else if !Known(g, s.path[s.idx..]) then s.(status := Raised)
    else
      var invoked := RunBatch(g, w, s);
      if invoked.status.Raised? then invoked
      else
        BatchShape(g, w, s);
        Settle(g, w, PostAll(g, w, invoked, invoked.path[s.idx..]), |invoked.path|)
  }

  lemma BatchShape(g: Graph, w: World, s: State)
    requires s.idx <= |s.path| && Known(g, s.path[s.idx..])
    requires !Canceled(w, s.tick, 0)
    ensures var kept := Kept(g, s.path[..s.idx], s.path[s.idx..]);
            var invoked := RunBatch(g, w, s);
            && invoked.path == s.path[..s.idx] + kept && invoked.path[s.idx..] == kept
            && invoked == s.(path := invoked.path, mem := invoked.mem, cursors := invoked.cursors,
                             tick := invoked.tick, events := s.events + Announce(s.path[s.idx..]),
                             popped := s.popped + Dropped(g, s.path[..s.idx], s.path[s.idx..]),
                             ran := s.ran + Span(s.idx, s.idx + |kept|))
  {
    var batch := s.path[s.idx..];
    var before := s.path[..s.idx];
    var kept := Kept(g, before, batch);
    InvokeAllKeeps(g, w, s.(path := before + kept, events := s.events + Announce(batch),
                            popped := s.popped + Dropped(g, before, batch),
                            ran := s.ran + Span(s.idx, s.idx + |kept|)), kept);
  }

  function Steps(g: Graph, w: World, s: State, n: nat): State
    decreases n
  {
    if n == 0 then s else Steps(g, w, Step(g, w, s), n - 1)
  }

  lemma StepsOnce(g: Graph, w: World, s: State, n: nat)
    requires n > 0
    ensures Steps(g, w, s, n) == Steps(g, w, Step(g, w, s), n - 1)
  {}

  lemma StepsCompose(g: Graph, w: World, s: State, m: nat, n: nat)
    ensures Steps(g, w, s, m + n) == Steps(g, w, Steps(g, w, s, m), n)
    decreases m
  {
    if m > 0 { StepsCompose(g, w, Step(g, w, s), m - 1, n); }
  }

  /** A run that is over stays as it is. */
  lemma {:induction false} StepsFixed(g: Graph, w: World, s: State, n: nat)
    requires n == 0 || !s.status.Running? || s.idx >= |s.path|
    ensures Steps(g, w, s, n) == s
    decreases n
  {
    if n > 0 { StepsFixed(g, w, s, n - 1); }
  }

  // ---------- the start of a run ----------

  function ClearOutputs(mem: Memory): Memory {
    mem.(outputs := map id | id in mem.outputs :: map key | key in mem.outputs[id] :: Null)
  }

  /** `run` up to its while loop: clear the outputs, and begin anew unless the last run stopped at a form.
      The cursors of the items are not reset. */
  function StartRun(w: World, s: State, globals: map<string, Value>): State {
    var anew := s.path == [] || !NamedFillUp(s.path[|s.path| - 1]);
    var path := if anew then s.path + ["begin"] else s.path;
    s.(path := path, idx := |path| - 1, partials := [], error := false, events := [], popped := [],
       mem := ClearOutputs(s.mem).(globals := globals), tick := s.tick + 1,
       ran := (set i | i in s.ran && i < |path| - 1),
       status := if Canceled(w, s.tick, 0) then Raised else Running)
  }

  /** `reset`: the path and all values go, the cursors stay. */
  function ResetCanvas(s: State): State {
    s.(path := [], idx := 0, partials := [], events := [], popped := [], error := false,
       mem := ClearOutputs(s.mem), ran := {}, status := Idle)
  }

  // ---------- what can happen to a canvas ----------

  /** The environment may behave differently in every turn. */
  datatype Action = Launch(w: World, globals: map<string, Value>) | Turn(w: World) | Reset

  function Act(g: Graph, s: State, a: Action): State {
    match a
    case Launch(w, globals) => StartRun(w, s, globals)
    case Turn(w) => Step(g, w, s)
    case Reset => ResetCanvas(s)
  }

  function Exec(g: Graph, s: State, acts: seq<Action>): State
    decreases |acts|
  {
    if acts == [] then s else Exec(g, Act(g, s, acts[0]), acts[1..])
  }
}
