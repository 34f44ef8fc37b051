/** What the components of the model leave behind, output by output. */
module ComponentMeaning {
  import opened Wrappers
  import opened WorkflowGraph
  import opened Components
  import opened Scheduler
  import Strings

  // ---------- memory and graph ----------

  /** Setting an output changes that output and nothing else. */
  lemma SetOutMeaning(mem: Memory, id: Id, key: string, v: Value)
    ensures var mem' := SetOut(mem, id, key, v);
            && mem'.globals == mem.globals
            && forall c, k :: GetOut(mem', c, k) == if c == id && k == key then v else GetOut(mem, c, k)
  {}

  /** A reference to an output reads what was set last, whatever else has been set since; the empty text when nothing
      was. It raises exactly for an unknown component, one to a global for an unknown name. */
  lemma LookupMeaning(g: Graph, mem: Memory, id: Id, key: string, v: Value, id': Id, key': string, v': Value)
    requires (id, key) != (id', key')
    ensures var later := SetOut(SetOut(mem, id, key, v), id', key', v');
            Lookup(g, later, Output(id, key)) == if id in g.comp then Ok(v) else Raise
    ensures id in g.comp && (id !in mem.outputs || key !in mem.outputs[id]) ==>
              Lookup(g, mem, Output(id, key)) == Ok(Str(""))
    ensures Lookup(g, mem, Global(key)).Raise? <==> key !in mem.globals
    ensures key in mem.globals ==> Lookup(g, mem, Global(key)) == Ok(mem.globals[key])
  {}

  /** A component reports an error exactly when its error output counts as true. */
  lemma ErrorMeaning(mem: Memory, id: Id)
    ensures HasError(mem, id) <==> Truthy(GetOut(mem, id, "_ERROR"))
  {}

  /** `c` may start the body of block `p`. */
  predicate CanStart(g: Graph, p: Id, c: Id) {
    && p in g.comp && HasParent(g, c, p)
    && if g.comp[p].kind.Iteration? then g.comp[c].kind.IterationItem? else g.comp[c].kind.LoopItem?
  }

  /** A body starts with the first item of its kind in the order of the components, or with nothing. */
  lemma StartMeaning(g: Graph, p: Id)
    requires p in g.comp && "" !in g.comp
    ensures var c := StartOf(g, p);
            if forall x <- g.order :: !CanStart(g, p, x) then c == ""
            else exists i :: 0 <= i < |g.order| && g.order[i] == c && CanStart(g, p, c)
                             && forall j :: 0 <= j < i ==> !CanStart(g, p, g.order[j])
  {
    FirstMeaning(g, p, g.order);
  }

  lemma {:induction false} FirstMeaning(g: Graph, p: Id, ids: seq<Id>)
    requires p in g.comp && "" !in g.comp
    ensures var c := FirstItem(g, p, g.comp[p].kind.Iteration?, ids);
            if forall x <- ids :: !CanStart(g, p, x) then c == ""
            else exists i :: 0 <= i < |ids| && ids[i] == c && CanStart(g, p, c)
                             && forall j :: 0 <= j < i ==> !CanStart(g, p, ids[j])
    decreases |ids|
  {
    if ids != [] && !CanStart(g, p, ids[0]) {
      var rest := ids[1..];
      FirstMeaning(g, p, rest);
      assert ids == [ids[0]] + rest;
      if x :| x in rest && CanStart(g, p, x) {
        var c := FirstItem(g, p, g.comp[p].kind.Iteration?, rest);
        var i :| 0 <= i < |rest| && rest[i] == c && CanStart(g, p, c)
                 && forall j :: 0 <= j < i ==> !CanStart(g, p, rest[j]);
        assert ids[i + 1] == c;
        forall j | 0 <= j < i + 1 ensures !CanStart(g, p, ids[j]) { if j > 0 { assert ids[j] == rest[j - 1]; } }
      }
    } else if ids != [] {
      assert ids[0] == FirstItem(g, p, g.comp[p].kind.Iteration?, ids) && ids[0] in ids;
    }
  }

  /** "userfillup" stands at position `i`, whatever the case of its letters. */
  predicate FillUpAt(id: Id, i: nat) { i + 10 <= |id| && Strings.Lower(id[i..i + 10]) == "userfillup" }

  /** An id reads as a user form exactly when "userfillup" occurs in it. */
  lemma {:induction false} FillUpMeaning(id: Id)
    ensures NamedFillUp(id) <==> exists i: nat :: FillUpAt(id, i)
    decreases |id|
  {
    if |id| >= 10 {
      FillUpMeaning(id[1..]);
      if i: nat :| FillUpAt(id[1..], i) { FillUpLater(id, i); }
      if i: nat :| FillUpAt(id, i) {
        if i > 0 { FillUpLater(id, i - 1); } else { assert id[0..10] == id[..10]; }
      }
      assert NamedFillUp(id) <==> FillUpAt(id, 0) || NamedFillUp(id[1..]);
    }
  }

  lemma FillUpLater(id: Id, i: nat)
    requires id != ""
    ensures FillUpAt(id[1..], i) <==> FillUpAt(id, i + 1)
  {
    if i + 11 <= |id| { assert id[1..][i..i + 10] == id[i + 1..i + 11]; }
  }

  // ---------- exceptions and cancellation ----------

  /** `mem'` is `mem` with an error of component `id`. */
  ghost predicate OnlyFailed(mem: Memory, mem': Memory, id: Id) {
    HasError(mem', id) && forall c, k :: c != id || k != "_ERROR" ==> GetOut(mem', c, k) == GetOut(mem, c, k)
  }

  /** An exception is recorded as an error, or, with the method "comment" and a default value, that value is the result
      instead; other outputs stay. */
  lemma FailMeaning(g: Graph, mem: Memory, id: Id)
    requires id in g.comp
    ensures var mem' := Fail(g, mem, id);
            var h := g.comp[id].handler;
            if h.Some? && h.value.comment && Truthy(h.value.default) then
              && GetOut(mem', id, "result") == h.value.default
              && (HasError(mem', id) <==> HasError(mem, id))
              && forall c, k :: c != id || k != "result" ==> GetOut(mem', c, k) == GetOut(mem, c, k)
            else
              OnlyFailed(mem, mem', id)
  {}

  /** A canceled item or block reports an error and does nothing else. */
  lemma CanceledMeaning(g: Graph, w: World, tick: nat, mem: Memory, idx: int, id: Id)
    requires id in g.comp && Canceled(w, tick, 1)
    ensures InvokeIterationItem(g, w, tick, mem, idx, id) == InvokeLoopItem(g, w, tick, mem, idx, id)
    ensures var r := InvokeIterationItem(g, w, tick, mem, idx, id);
            r.idx == idx && OnlyFailed(mem, r.mem, id)
    ensures g.comp[id].kind.Iteration? ==> OnlyFailed(mem, InvokeIteration(g, w, tick, mem, id), id)
    ensures g.comp[id].kind.Loop? ==> OnlyFailed(mem, InvokeLoop(g, w, tick, mem, id), id)
  {}

  /** An item canceled after its first check reports an error and keeps its cursor, too: before it collects what the
      last pass left, or behind that and before it hands out an element. */
  lemma CanceledLater(g: Graph, w: World, tick: nat, mem: Memory, idx: int, id: Id, p: Id, arr: seq<Value>)
    requires id in g.comp && p in g.comp && g.comp[id].parent == Some(p) && g.comp[p].kind.Iteration?
    requires Lookup(g, mem, g.comp[p].kind.itemsRef) == Ok(List(arr)) && !Canceled(w, tick, 1)
    ensures var r, c := InvokeIterationItem(g, w, tick, mem, idx, id),
                        CollateAll(g, mem, p, g.comp[p].kind.collects, g.order);
            && (idx > 0 && Canceled(w, tick, 2) ==> r.idx == idx && OnlyFailed(mem, r.mem, id))
            && (idx > 0 && !Canceled(w, tick, 2) && Canceled(w, tick, 3) && idx < |arr| && !c.raised ==>
                  r.idx == idx && OnlyFailed(c.mem, r.mem, id))
            && (idx <= 0 && Canceled(w, tick, 3) && idx < |arr| ==> r.idx == idx && OnlyFailed(mem, r.mem, id))
  {}

  /** The item of a loop, before it begins another pass. */
  lemma CanceledLoopItem(g: Graph, w: World, tick: nat, mem: Memory, idx: int, id: Id, p: Id)
    requires id in g.comp && p in g.comp && g.comp[id].parent == Some(p) && g.comp[p].kind.Loop?
    requires 0 < idx < g.comp[p].kind.maximum && Canceled(w, tick, 2)
    ensures var r := InvokeLoopItem(g, w, tick, mem, idx, id); r.idx == idx && OnlyFailed(mem, r.mem, id)
  {}

  /** An item fails without a block of its kind and, in an iteration, without an array: where something else is in its
      place, the item ends as well. */
  lemma ItemFailsWithout(g: Graph, w: World, tick: nat, mem: Memory, idx: int, id: Id)
    requires id in g.comp && !Canceled(w, tick, 1)
    ensures var r, l, p := InvokeIterationItem(g, w, tick, mem, idx, id), InvokeLoopItem(g, w, tick, mem, idx, id),
                           g.comp[id].parent;
            var orphan := p.None? || p.value !in g.comp;
            && (orphan || !g.comp[p.value].kind.Iteration? ==> r == ItemStep(Fail(g, mem, id), idx))
            && (orphan || !g.comp[p.value].kind.Loop? ==> l == ItemStep(Fail(g, mem, id), idx))
            && (!orphan && g.comp[p.value].kind.Iteration? ==>
                  var arr := Lookup(g, mem, g.comp[p.value].kind.itemsRef);
                  && (arr.Raise? ==> r == ItemStep(Fail(g, mem, id), idx))
                  && (arr.Ok? && !arr.value.List? ==> r == ItemStep(Fail(g, mem, id), -1)))
  {}

  /** A task that has been seen as canceled is so ever after, and without a cancellation it never is. */
  lemma CanceledStays(w: World, tick: nat, stage: nat, tick': nat, stage': nat)
    requires stage < 4 && stage' < 4 && (tick < tick' || (tick == tick' && stage <= stage'))
    ensures Canceled(w, tick, stage) ==> Canceled(w, tick', stage')
    ensures w.cancelAt.None? ==> !Canceled(w, tick, stage)
  {}

  /** An iteration reports an error exactly when it has one before or its array is not there or no array; its handler
      answers only for an array that is not there. */
  lemma IterationChecksArray(g: Graph, w: World, tick: nat, mem: Memory, id: Id)
    requires id in g.comp && g.comp[id].kind.Iteration? && !Canceled(w, tick, 1)
    ensures var mem', arr := InvokeIteration(g, w, tick, mem, id), Lookup(g, mem, g.comp[id].kind.itemsRef);
            && (arr.Ok? && arr.value.List? ==> mem' == mem)
            && (arr.Ok? && !arr.value.List? ==> OnlyFailed(mem, mem', id))
            && (arr.Raise? ==> mem' == Fail(g, mem, id))
  {}

  // ---------- a batch ----------

  /** A component whose own code the model does not look into runs that code once, on the memory as it is then; an
      early exit does nothing. */
  lemma InvokeMeaning(g: Graph, w: World, s: State, id: Id)
    requires id in g.comp && !IsBlock(g.comp[id].kind) && !IsItem(g.comp[id].kind)
    ensures var s' := Invoke(g, w, s, id);
            && s'.mem == (if g.comp[id].kind.ExitLoop? then s.mem else w.invoke(s.tick, id, s.mem))
            && s'.cursors == s.cursors && s'.tick == s.tick + 1
  {}

  /** `states` leads from `s` to `s'`, with one invocation in each step. */
  ghost predicate Invokes(g: Graph, w: World, s: State, ids: seq<Id>, states: seq<State>, s': State)
    requires Known(g, ids)
  {
    && |states| == |ids| + 1 && states[0] == s && states[|ids|] == s'
    && forall k :: 0 <= k < |ids| ==> (assert ids[k] in ids; states[k + 1] == Invoke(g, w, states[k], ids[k]))
  }

  /** A batch invokes all of its entries, each once and on what the ones before it left. */
  lemma {:induction false} InvokesAll(g: Graph, w: World, s: State, ids: seq<Id>) returns (states: seq<State>)
    requires Known(g, ids)
    ensures Invokes(g, w, s, ids, states, InvokeAll(g, w, s, ids))
    ensures InvokeAll(g, w, s, ids).tick == s.tick + |ids|
    decreases |ids|
  {
    states := [s];
    if ids != [] {
      var rest := InvokesAll(g, w, Invoke(g, w, s, ids[0]), ids[1..]);
      states := [s] + rest;
    }
  }

  // ---------- loop variables ----------

  /** The value that loop variable `v` takes. */
  function ValueOf(g: Graph, mem: Memory, v: LoopVar): Result<Value> {
    match v
    case FromConstant(_, c) => Ok(c)
    case FromVariable(_, ref) => Lookup(g, mem, ref)
  }

  /** One memory for each variable that has been set: each sets its variable to the value as it is then, and nothing
      else. When a value is not there, the loop fails in that memory. */
  ghost predicate SetInTurn(g: Graph, id: Id, vars: seq<LoopVar>, mems: seq<Memory>, end: Memory)
    requires id in g.comp
  {
    && 0 < |mems| <= |vars| + 1
    && (forall k :: 0 <= k < |mems| - 1 ==> IsSetNext(g, id, vars[k], mems[k], mems[k + 1]))
    && var last := |mems| - 1;
       if last == |vars| then end == mems[last]
       else ValueOf(g, mems[last], vars[last]).Raise? && end == Fail(g, mems[last], id)
  }

  ghost predicate IsSetNext(g: Graph, id: Id, v: LoopVar, mem: Memory, mem': Memory) {
    ValueOf(g, mem, v).Ok? && mem' == SetOut(mem, id, v.name, ValueOf(g, mem, v).value)
  }

  /** Entering a loop sets its variables one after the other, to their constants or to what the variables they refer
      to are at that time, up to the first that refers to nothing, at which the loop fails. */
  lemma {:induction false} LoopVarsMeaning(g: Graph, mem: Memory, id: Id, vars: seq<LoopVar>)
    returns (mems: seq<Memory>)
    requires id in g.comp
    ensures SetInTurn(g, id, vars, mems, SetLoopVars(g, mem, id, vars)) && mems[0] == mem
    decreases |vars|
  {
    mems := [mem];
    if vars != [] && ValueOf(g, mem, vars[0]).Ok? {
      var next := SetOut(mem, id, vars[0].name, ValueOf(g, mem, vars[0]).value);
      var rest := LoopVarsMeaning(g, next, id, vars[1..]);
      assert SetLoopVars(g, mem, id, vars) == SetLoopVars(g, next, id, vars[1..]);
      mems := [mem] + rest;
      forall k | 0 <= k < |mems| - 1 ensures IsSetNext(g, id, vars[k], mems[k], mems[k + 1]) {
        if k > 0 { assert IsSetNext(g, id, vars[1..][k - 1], rest[k - 1], rest[k]); }
      }
    }
  }

  // ---------- waiting components ----------

  /** A message reports the waiting components from the front on, up to the first that still streams. */
  lemma {:induction false} FlushMeaning(s: State) returns (n: nat)
    ensures Reported(s, FlushPartials(s), n)
    decreases |s.partials|
  {
    if s.partials == [] || Content(s, s.partials[0]).Stream? {
      n := 0;
    } else {
      var next := Emit(s, Ended(s.partials[0])).(partials := s.partials[1..]);
      var k := FlushMeaning(next);
      n := k + 1;
      assert s.partials[1..][k..] == s.partials[n..];
    }
  }

  /** The components at the front of `partials` that do not stream any more have been reported, as many as there are. */
  ghost predicate Reported(s: State, s': State, n: nat) {
    && n <= |s.partials| && s'.partials == s.partials[n..]
    && |s'.events| == |s.events| + n && s.events <= s'.events
    && (forall k :: 0 <= k < n ==> s'.events[|s.events| + k] == Ended(s.partials[k]))
    && (forall k :: 0 <= k < n ==> !GetOut(s'.mem, s.partials[k], "content").Stream?)
    && (n < |s.partials| ==> GetOut(s'.mem, s.partials[n], "content").Stream?)
  }

  /** A message reports the waiting components, whether its own content streams or not. */
  lemma SpeakReports(g: Graph, w: World, s: State, id: Id) returns (n: nat)
    requires id in g.comp && g.comp[id].kind.Message? && !Speak(g, w, s, id).status.Raised? && !s.status.Raised?
    ensures Reported(s, Speak(g, w, s, id), n)
  {
    var drained := s;
    if GetOut(s.mem, id, "content").Stream? {
      var sent := w.stream(s.tick, id, s.mem);
      drained := s.(mem := SetOut(sent.0, id, "content", Str(sent.1)), tick := s.tick + 1);
    }
    assert Speak(g, w, s, id) == FlushPartials(drained);
    n := FlushMeaning(drained);
  }

  /** What a message sends: its stream in full, whose text becomes its content. */
  lemma SpeakMeaning(g: Graph, w: World, s: State, id: Id)
    requires id in g.comp
    ensures var s' := Speak(g, w, s, id);
            && (!g.comp[id].kind.Message? ==> s' == s)
            && (g.comp[id].kind.Message? && GetOut(s.mem, id, "content").Stream? ==>
                  && GetOut(s'.mem, id, "content") == Str(w.stream(s.tick, id, s.mem).1) && s'.tick == s.tick + 1
                  && forall c, k :: c != id || k != "content" ==>
                       GetOut(s'.mem, c, k) == GetOut(w.stream(s.tick, id, s.mem).0, c, k))
            && (g.comp[id].kind.Message? && GetOut(s.mem, id, "content").Str? ==> s'.mem == s.mem && s'.tick == s.tick)
            && (s'.status == s.status <==>
                  s.status.Raised? || !g.comp[id].kind.Message? || GetOut(s.mem, id, "content").Stream?
                  || GetOut(s.mem, id, "content").Str?)
  {}

  /** A component is reported as finished unless it still streams, in which case it waits, or, after an error, loses its
      content; blocks are reported by their items. */
  lemma ReportMeaning(g: Graph, s: State, id: Id)
    requires id in g.comp
    ensures var s', streams := Report(g, s, id), GetOut(s.mem, id, "content").Stream?;
            if IsBlock(g.comp[id].kind) then s' == s
            else if streams && !s.error then
              s'.partials == s.partials + [id] && s'.events == s.events && s'.mem == s.mem
            else && s'.partials == s.partials && s'.events == s.events + [Ended(id)]
                 && !GetOut(s'.mem, id, "content").Stream?
                 && forall c, k :: c != id || k != "content" ==> GetOut(s'.mem, c, k) == GetOut(s.mem, c, k)
  {}
}
