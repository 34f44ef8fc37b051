/** The canvas object itself: the scheduler of `Canvas.run` over mutable fields, proved against the
    step function. */
module CanvasObject {
  import opened Wrappers
  import opened WorkflowGraph
  import opened Components
  import opened Scheduler

  /** `mem` and `cursors` hold the fields of the component objects; `events` is what `run` has yielded. */
  class Canvas {
    const graph: Graph
    const world: World
    var path: seq<Id>
    var error: bool
    var mem: Memory
    var cursors: map<Id, int>
    var tick: nat
    var events: seq<Event>
    ghost var ran: set<nat>
    ghost var popped: seq<Id>

    constructor (graph: Graph, world: World, path: seq<Id>, mem: Memory)
      ensures this.graph == graph && this.world == world
      ensures Snapshot(0, [], Idle) == State(path, 0, [], false, mem, map[], 0, [], Idle, {}, [])
    {
      this.graph, this.world, this.path, this.mem := graph, world, path, mem;
      error, cursors, tick, events := false, map[], 0, [];
      ran, popped := {}, [];
    }

    /** The state of the run, given the local variables of `run`. */
    ghost function Snapshot(idx: nat, partials: seq<Id>, status: Status): State
      reads this
    {
      State(path, idx, partials, error, mem, cursors, tick, events, status, ran, popped)
    }

    function CursorOf(id: Id): int
      reads this
    {
      if id in cursors then cursors[id] else 0
    }

    // ---------- components ----------

    /** Append the end-of-pass outputs of the body to the outputs of the iteration. */
    method OutputCollation(p: Id) returns (raised: bool)
      requires p in graph.comp && graph.comp[p].kind.Iteration?
      modifies this`mem
      ensures Collation(mem, raised) == CollateAll(graph, old(mem), p, graph.comp[p].kind.collects, graph.order)
    {
      var collects := graph.comp[p].kind.collects;
      ghost var all := CollateAll(graph, mem, p, collects, graph.order);
      var i := 0;
      while i < |graph.order|
        invariant 0 <= i <= |graph.order|
        invariant CollateAll(graph, mem, p, collects, graph.order[i..]) == all
      {
        var cid := graph.order[i];
        assert graph.order[i..][1..] == graph.order[i + 1..];
        if HasParent(graph, cid, p) {
          ghost var whole := CollateFrom(mem, p, collects, cid);
          var j := 0;
          while j < |collects|
            invariant 0 <= j <= |collects|
            invariant CollateFrom(mem, p, collects[j..], cid) == whole
          {
            assert collects[j..][1..] == collects[j + 1..];
            if collects[j].source == cid {
              var res := GetOut(mem, p, collects[j].key);
              var v := GetOut(mem, cid, collects[j].variable);
              if !Truthy(res) {
                mem := SetOut(mem, p, collects[j].key, List([v]));
              } else if res.List? {
                mem := SetOut(mem, p, collects[j].key, List(res.items + [v]));
              } else {
                return true;
              }
            }
            j := j + 1;
          }
        }
        i := i + 1;
      }
      return false;
    }

    method InvokeIterationItem(id: Id)
      requires id in graph.comp
      modifies this`mem, this`cursors
      ensures var r := Components.InvokeIterationItem(graph, world, tick, old(mem), old(CursorOf(id)), id);
              mem == r.mem && cursors == old(cursors)[id := r.idx]
    {
      var idx := CursorOf(id);
      cursors := cursors[id := idx];
      if Canceled(world, tick, 1) {
        mem := MarkCanceled(mem, id);
        return;
      }
      var p := graph.comp[id].parent;
      if p.None? || p.value !in graph.comp || !graph.comp[p.value].kind.Iteration? {
        mem := Fail(graph, mem, id);
        return;
      }
      var arr := Lookup(graph, mem, graph.comp[p.value].kind.itemsRef);
      if arr.Raise? {
        mem := Fail(graph, mem, id);
        return;
      }
      if !arr.value.List? {
        cursors := cursors[id := -1];
        mem := Fail(graph, mem, id);
        return;
      }
      if idx > 0 {
        if Canceled(world, tick, 2) {
          mem := MarkCanceled(mem, id);
          return;
        }
        var raised := OutputCollation(p.value);
        if raised {
          mem := Fail(graph, mem, id);
          return;
        }
      }
      if idx >= |arr.value.items| {
        cursors := cursors[id := -1];
        return;
      }
      if Canceled(world, tick, 3) {
        mem := MarkCanceled(mem, id);
        return;
      }
      var v := PyIndex(arr.value.items, idx);
      if v.Raise? {
        mem := Fail(graph, mem, id);
        return;
      }
      mem := SetOut(mem, id, "item", v.value);
      mem := SetOut(mem, id, "index", Num(idx as real));
      cursors := cursors[id := idx + 1];
    }

    method InvokeLoopItem(id: Id)
      requires id in graph.comp
      modifies this`mem, this`cursors
      ensures var r := Components.InvokeLoopItem(graph, world, tick, old(mem), old(CursorOf(id)), id);
              mem == r.mem && cursors == old(cursors)[id := r.idx]
    {
      var idx := CursorOf(id);
      cursors := cursors[id := idx];
      if Canceled(world, tick, 1) {
        mem := MarkCanceled(mem, id);
        return;
      }
      var p := graph.comp[id].parent;
      if p.None? || p.value !in graph.comp || !graph.comp[p.value].kind.Loop? {
        mem := Fail(graph, mem, id);
        return;
      }
      if idx >= graph.comp[p.value].kind.maximum {
        cursors := cursors[id := -1];
        return;
      }
      if idx > 0 && Canceled(world, tick, 2) {
        mem := MarkCanceled(mem, id);
        return;
      }
      cursors := cursors[id := idx + 1];
    }

    method InvokeLoop(id: Id)
      requires id in graph.comp && graph.comp[id].kind.Loop?
      modifies this`mem
      ensures mem == Components.InvokeLoop(graph, world, tick, old(mem), id)
    {
      if Canceled(world, tick, 1) {
        mem := MarkCanceled(mem, id);
        return;
      }
      var vars := graph.comp[id].kind.loopVars;
      ghost var all := SetLoopVars(graph, mem, id, vars);
      var i := 0;
      while i < |vars|
        invariant 0 <= i <= |vars|
        invariant SetLoopVars(graph, mem, id, vars[i..]) == all
      {
        assert vars[i..][1..] == vars[i + 1..];
        match vars[i] {
          case FromConstant(name, v) =>
            mem := SetOut(mem, id, name, v);
          case FromVariable(name, ref) =>
            var v := Lookup(graph, mem, ref);
            if v.Raise? {
              mem := Fail(graph, mem, id);
              return;
            }
            mem := SetOut(mem, id, name, v.value);
        }
        i := i + 1;
      }
    }

    /** Invoke one component, whatever its kind. */
    method InvokeOne(id: Id, ghost idx: nat, ghost partials: seq<Id>, ghost status: Status)
      requires id in graph.comp
      modifies this`mem, this`cursors, this`tick
      ensures Snapshot(idx, partials, status)
           == Invoke(graph, world, old(Snapshot(idx, partials, status)), id)
    {
      var k := graph.comp[id].kind;
      if k.Iteration? {
        mem := InvokeIteration(graph, world, tick, mem, id);
      } else if k.Loop? {
        InvokeLoop(id);
      } else if k.IterationItem? {
        InvokeIterationItem(id);
      } else if k.LoopItem? {
        InvokeLoopItem(id);
      } else if !k.ExitLoop? {
        mem := world.invoke(tick, id, mem);
      }
      tick := tick + 1;
    }

    method InvokeEach(ids: seq<Id>, ghost idx: nat, ghost partials: seq<Id>, ghost status: Status)
      requires Known(graph, ids)
      modifies this`mem, this`cursors, this`tick
      ensures Snapshot(idx, partials, status)
           == InvokeAll(graph, world, old(Snapshot(idx, partials, status)), ids)
    {
      ghost var all := InvokeAll(graph, world, Snapshot(idx, partials, status), ids);
      var i := 0;
      while i < |ids|
        invariant 0 <= i <= |ids|
        invariant InvokeAll(graph, world, Snapshot(idx, partials, status), ids[i..]) == all
      {
        assert ids[i] in ids && ids[i..][1..] == ids[i + 1..];
        InvokeOne(ids[i], idx, partials, status);
        i := i + 1;
      }
    }

    // ---------- one batch ----------

    /** Whether some input of the entry at position `i` is missing from the path before it. */
    method MissesInput(i: nat) returns (missing: bool)
      requires i < |path| && path[i] in graph.comp
      ensures missing <==> !NamedFillUp(path[0]) && !InputsIn(graph, path[..i], path[i])
    {
      var inputs := graph.comp[path[i]].inputs;
      var j := 0;
      while j < |inputs|
        invariant 0 <= j <= |inputs|
        invariant NamedFillUp(path[0]) || forall r <- inputs[..j] :: r == "" || r in path[..i]
      {
        if inputs[j] != "" && inputs[j] !in path[..i] && !NamedFillUp(path[0]) {
          assert inputs[j] in inputs;
          return true;
        }
        assert inputs[..j + 1] == inputs[..j] + [inputs[j]];
        j := j + 1;
      }
      assert inputs[..j] == inputs;
      return false;
    }

    /** The loop of `_run_batch`: drop in place the entries whose inputs are missing and schedule every other
        entry exactly once. What it leaves is what a left-to-right pass over the batch keeps. */
    method CheckBatch(f: nat) returns (tasks: seq<Id>)
      requires f <= |path| && Known(graph, path[f..])
      modifies this`path, this`popped
      ensures tasks == Kept(graph, old(path[..f]), old(path[f..]))
      ensures path == old(path[..f]) + tasks
      ensures popped == old(popped) + Dropped(graph, old(path[..f]), old(path[f..]))
    {
      ghost var before, batch, done := path[..f], path[f..], 0;
      assert path == before + [] + batch[0..];
      tasks := [];
      var i, t := f, |path|;
      while i < t
        invariant i == f + |tasks| && t == |path|
        invariant Checked(graph, before, batch, done, path, tasks, old(popped), popped)
        decreases t - i
      {
        CheckOne(graph, before, batch, done, path, tasks, old(popped), popped);
        var missing := IsBlocked(i);
        var id := path[i];
        if missing {
          popped, path := popped + [id], path[..i] + path[i + 1..];
          t := t - 1;
        } else {
          tasks := tasks + [id];
          i := i + 1;
        }
        done := done + 1;
      }
    }

    method IsBlocked(i: nat) returns (blocked: bool)
      requires i < |path| && path[i] in graph.comp
      ensures blocked <==> !Ready(graph, path[0], path[..i], path[i])
    {
      var k := graph.comp[path[i]].kind;
      if k.Begin? || k.UserFillUp? {
        return false;
      }
      blocked := MissesInput(i);
    }

    /** `_run_batch(f, len(path))`. */
    method RunBatch(f: nat, ghost partials: seq<Id>) returns (raised: bool)
      requires f <= |path| && Known(graph, path[f..])
      modifies this`path, this`mem, this`cursors, this`tick, this`ran, this`popped
      ensures raised == Canceled(world, old(tick), 0)
      ensures raised ==> Snapshot(f, partials, Running) == old(Snapshot(f, partials, Running))
      ensures !raised ==>
                var s := old(Snapshot(f, partials, Running));
                var kept := Kept(graph, s.path[..f], s.path[f..]);
                Snapshot(f, partials, Running)
                == InvokeAll(graph, world, s.(path := s.path[..f] + kept,
                                              popped := s.popped + Dropped(graph, s.path[..f], s.path[f..]),
                                              ran := s.ran + Span(f, f + |kept|)), kept)
    {
      if Canceled(world, tick, 0) {
        return true;
      }
      var tasks := CheckBatch(f);
      ran := ran + Span(f, f + |tasks|);
      InvokeEach(tasks, f, partials, Running);
      return false;
    }

    // ---------- post-processing ----------

    method Flush(partials0: seq<Id>, ghost idx: nat) returns (partials: seq<Id>)
      modifies this`events
      ensures Snapshot(idx, partials, Running) == FlushPartials(old(Snapshot(idx, partials0, Running)))
    {
      partials := partials0;
      while partials != []
        invariant FlushPartials(Snapshot(idx, partials, Running))
               == FlushPartials(old(Snapshot(idx, partials0, Running)))
        decreases |partials|
      {
        if GetOut(mem, partials[0], "content").Stream? {
          break;
        }
        events := events + [Ended(partials[0])];
        partials := partials[1..];
      }
    }

    method SpeakEntry(id: Id, partials0: seq<Id>, ghost idx: nat) returns (partials: seq<Id>, raised: bool)
      requires id in graph.comp
      modifies this`mem, this`tick, this`events
      ensures Snapshot(idx, partials, if raised then Raised else Running)
           == Speak(graph, world, old(Snapshot(idx, partials0, Running)), id)
    {
      partials, raised := partials0, false;
      if graph.comp[id].kind.Message? {
        var content := GetOut(mem, id, "content");
        if content.Stream? {
          var (drained, text) := world.stream(tick, id, mem);
          mem := SetOut(drained, id, "content", Str(text));
          tick := tick + 1;
        } else if !content.Str? {
          raised := true;
          return;
        }
        partials := Flush(partials0, idx);
      }
    }

    method AppendToPath(id: Id)
      modifies this`path
      ensures path == AppendPath(old(path), id)
    {
      if path != [] && path[|path| - 1] == id {
        return;
      }
      path := path + [id];
    }

    method ExtendThePath(other: bool, ids: seq<Id>)
      modifies this`path
      ensures path == if other then old(path) else ExtendPath(old(path), ids)
    {
      if other {
        return;
      }
      var i := 0;
      while i < |ids|
        invariant 0 <= i <= |ids|
        invariant ExtendPath(path, ids[i..]) == ExtendPath(old(path), ids)
      {
        assert ids[i..][1..] == ids[i + 1..];
        AppendToPath(ids[i]);
        i := i + 1;
      }
    }

    /** Append what comes after an entry, by the kind of its component. */
    method AppendSuccessors(id: Id, other: bool, ghost idx: nat, ghost partials: seq<Id>) returns (raised: bool)
      requires id in graph.comp
      modifies this`path, this`cursors, this`events
      ensures var s := old(Snapshot(idx, partials, Running));
              Snapshot(idx, partials, if raised then Raised else Running) == Successors(graph, s, id, other)
    {
      raised := false;
      var c := graph.comp[id];
      if IsItem(c.kind) {
        var ended := if c.kind.IterationItem? then Ok(CursorOf(id) == -1)
                     else LoopItemEnd(graph, mem, CursorOf(id), id);
        if ended.Raise? {
          return true;
        }
        if ended.value {
          cursors := cursors[id := -1];
          if c.parent.None? || c.parent.value !in graph.comp {
            return true;
          }
          events := events + [Ended(c.parent.value)];
          ExtendThePath(other, graph.comp[c.parent.value].downstream);
          return;
        }
      } else if c.kind.Categorize? || c.kind.Switch? {
        var next := Targets(GetOut(mem, id, "_next"));
        if !other {
          if next.Raise? {
            return true;
          }
          ExtendThePath(false, next.value);
        }
        return;
      } else if IsBlock(c.kind) {
        ExtendThePath(other, [StartOf(graph, id)]);
        return;
      } else if c.kind.ExitLoop? {
        if c.parent.None? || c.parent.value !in graph.comp {
          return true;
        }
        if graph.comp[c.parent.value].kind.Loop? {
          ExtendThePath(other, graph.comp[c.parent.value].downstream);
          return;
        }
      }
      if c.downstream == [] && c.parent.Some? {
        if c.parent.value !in graph.comp || !IsBlock(graph.comp[c.parent.value].kind) {
          return true;
        }
        ExtendThePath(other, [StartOf(graph, c.parent.value)]);
      } else {
        ExtendThePath(other, c.downstream);
      }
    }

    /** The body of the post-processing loop for one entry. */
    method PostEntry(id: Id, partials0: seq<Id>, ghost idx: nat) returns (partials: seq<Id>, raised: bool)
      requires id in graph.comp
      modifies this`path, this`error, this`mem, this`cursors, this`tick, this`events
      ensures Snapshot(idx, partials, if raised then Raised else Running)
           == PostOne(graph, world, old(Snapshot(idx, partials0, Running)), id)
    {
      partials, raised := SpeakEntry(id, partials0, idx);
      if raised {
        return;
      }
      var c := graph.comp[id];
      var other := false;
      if HasError(mem, id) {
        if c.handler.Some? && c.handler.value.goto != [] {
          path := path + c.handler.value.goto;
          other := true;
        } else if c.handler.None? || !Truthy(c.handler.value.default) {
          error := true;
        }
      }
      if !IsBlock(c.kind) {
        if GetOut(mem, id, "content").Stream? {
          if error {
            mem := SetOut(mem, id, "content", Null);
            events := events + [Ended(id)];
          } else {
            partials := partials + [id];
          }
        } else {
          events := events + [Ended(id)];
        }
      }
      raised := AppendSuccessors(id, other, idx, partials);
    }

    method PostBatch(ids: seq<Id>, partials0: seq<Id>, ghost idx: nat) returns (partials: seq<Id>, raised: bool)
      requires Known(graph, ids)
      modifies this`path, this`error, this`mem, this`cursors, this`tick, this`events
      ensures Snapshot(idx, partials, if raised then Raised else Running)
           == PostAll(graph, world, old(Snapshot(idx, partials0, Running)), ids)
    {
      partials, raised := partials0, false;
      ghost var all := PostAll(graph, world, Snapshot(idx, partials, Running), ids);
      var i := 0;
      while i < |ids| && !raised
        invariant 0 <= i <= |ids|
        invariant all == PostAll(graph, world, Snapshot(idx, partials, if raised then Raised else Running), ids[i..])
      {
        assert ids[i] in ids && ids[i..][1..] == ids[i + 1..];
        partials, raised := PostEntry(ids[i], partials, idx);
        i := i + 1;
      }
    }

    // ---------- the run ----------

    method AnnounceBatch(f: nat)
      requires f <= |path|
      modifies this`events
      ensures events == old(events) + Announce(path[f..])
    {
      var i := f;
      while i < |path|
        invariant f <= i <= |path|
        invariant events == old(events) + Announce(path[f..i])
      {
        assert Announce(path[f..i + 1]) == Announce(path[f..i]) + [Started(path[i])];
        events := events + [Started(path[i])];
        i := i + 1;
      }
      assert path[f..i] == path[f..];
    }

    /** What `run` does between two turns of its loop, and how it ends. */
    method SettleBatch(idx0: nat, partials: seq<Id>, to: nat) returns (idx: nat, status: Status)
      requires idx0 <= to <= |path|
      modifies this`path, this`mem, this`cursors, this`tick, this`events, this`ran
      ensures Snapshot(idx, partials, status) == Settle(graph, world, old(Snapshot(idx0, partials, Running)), to)
    {
      idx, status := idx0, Running;
      if error {
        ran := set i | i in ran && i < idx;
        path := path[..idx];
        status := Finished;
        return;
      }
      idx := to;
      var pending := path[to..];
      if pending == [] {
        ran := set i | i in ran && i < idx;
        path := path[..idx];
        if path == [] {
          status := Raised;
        } else {
          events := events + [WorkflowFinished];
          status := Finished;
        }
      } else if !Known(graph, pending) {
        status := Raised;
      } else if exists id <- pending :: IsForm(graph, id) {
        var forms := Forms(graph, pending, true);
        InvokeEach(forms, idx, partials, Running);
        path := forms + Forms(graph, pending, false);
        ran := {};
        events := events + [UserInputs];
        status := Suspended;
      }
    }

    /** One turn of the outer while loop. */
    method Turn(idx0: nat, partials0: seq<Id>) returns (idx: nat, partials: seq<Id>, status: Status)
      requires idx0 < |path|
      modifies this
      ensures Snapshot(idx, partials, status) == Step(graph, world, old(Snapshot(idx0, partials0, Running)))
    {
      idx, partials, status := idx0, partials0, Running;
      if !Known(graph, path[idx..]) {
        status := Raised;
        return;
      }
      ghost var s := Snapshot(idx, partials, Running);
      AnnounceBatch(idx);
      var raised := RunBatch(idx, partials);
      if raised {
        status := Raised;
        return;
      }
      assert Snapshot(idx, partials, Running) == Scheduler.RunBatch(graph, world, s);
      BatchShape(graph, world, s);
      var to := |path|;
      ghost var invoked := Snapshot(idx, partials, Running);
      partials, raised := PostBatch(path[idx..], partials, idx);
      if raised {
        status := Raised;
        return;
      }
      idx, status := SettleBatch(idx, partials, to);
    }

    /** `run` up to its while loop. */
    method Prepare(globals: map<string, Value>) returns (idx: nat, status: Status)
      modifies this
      ensures Snapshot(idx, [], status) == StartRun(world, old(Snapshot(0, [], Idle)), globals)
    {
      if path == [] || !NamedFillUp(path[|path| - 1]) {
        path := path + ["begin"];
      }
      idx, status := |path| - 1, Running;
      ran, popped := (set i | i in ran && i < |path| - 1), [];
      mem := ClearOutputs(mem).(globals := globals);
      error, events := false, [];
      if Canceled(world, tick, 0) {
        status := Raised;
      }
      tick := tick + 1;
    }

    /** `run`, cut after `limit` turns of its loop. */
    method Run(globals: map<string, Value>, limit: nat) returns (idx: nat, partials: seq<Id>, status: Status)
      modifies this
      ensures Snapshot(idx, partials, status)
           == Steps(graph, world, StartRun(world, old(Snapshot(0, [], Idle)), globals), limit)
    {
      idx, status := Prepare(globals);
      idx, partials, status := Loop(idx, [], status, limit);
    }

    /** The while loop of `run`. */
    method Loop(idx0: nat, partials0: seq<Id>, status0: Status, limit: nat)
      returns (idx: nat, partials: seq<Id>, status: Status)
      modifies this
      ensures Snapshot(idx, partials, status) == Steps(graph, world, old(Snapshot(idx0, partials0, status0)), limit)
    {
      idx, partials, status := idx0, partials0, status0;
      var n := limit;
      ghost var s := Snapshot(idx, partials, status);
      ghost var all := Steps(graph, world, s, limit);
      while n > 0 && status == Running && idx < |path|
        invariant s == Snapshot(idx, partials, status)
        invariant all == Steps(graph, world, s, n)
      {
        StepsOnce(graph, world, s, n);
        idx, partials, status := Turn(idx, partials);
        s := Snapshot(idx, partials, status);
        n := n - 1;
      }
      StepsFixed(graph, world, s, n);
    }
  }

  /** The check after `done` entries of a batch: what was kept is behind `before`, the rest of the batch follows, and
      going on from here gives what the whole check gives. */
  ghost predicate Checked(g: Graph, before: seq<Id>, batch: seq<Id>, done: nat, path: seq<Id>, tasks: seq<Id>,
                          popped0: seq<Id>, popped: seq<Id>)
  {
    && done <= |batch| && Known(g, batch) && Known(g, batch[done..])
    && path == before + tasks + batch[done..]
    && Kept(g, before, batch) == tasks + Kept(g, before + tasks, batch[done..])
    && popped0 + Dropped(g, before, batch) == popped + Dropped(g, before + tasks, batch[done..])
  }

  lemma Splice(before: seq<Id>, tasks: seq<Id>, batch: seq<Id>, done: nat, path: seq<Id>)
    requires done <= |batch| && path == before + tasks + batch[done..] && |path| > |before| + |tasks|
    ensures var i := |before| + |tasks|;
            && done < |batch| && path[i] == batch[done] == batch[done..][0] && path[..i] == before + tasks
            && batch[done..][1..] == batch[done + 1..]
            && path[..i] + path[i + 1..] == before + tasks + batch[done + 1..]
            && path == before + (tasks + [path[i]]) + batch[done + 1..]
            && (before + tasks) + [path[i]] == before + (tasks + [path[i]])
  {
    assert batch[done..][1..] == batch[done + 1..] == path[|before| + |tasks| + 1..];
  }

  /** The first of the entries `rest` is kept or dropped. */
  lemma CheckFirst(g: Graph, p: seq<Id>, rest: seq<Id>, tasks: seq<Id>, popped: seq<Id>)
    requires rest != [] && Known(g, rest)
    ensures Known(g, rest[1..]) && rest[0] in g.comp
    ensures if Ready(g, (p + rest)[0], p, rest[0]) then
              && tasks + Kept(g, p, rest) == (tasks + [rest[0]]) + Kept(g, p + [rest[0]], rest[1..])
              && Dropped(g, p, rest) == Dropped(g, p + [rest[0]], rest[1..])
            else
              && Kept(g, p, rest) == Kept(g, p, rest[1..])
              && popped + Dropped(g, p, rest) == (popped + [rest[0]]) + Dropped(g, p, rest[1..])
  {}

  /** One entry of the check. */
  lemma CheckOne(g: Graph, before: seq<Id>, batch: seq<Id>, done: nat, path: seq<Id>, tasks: seq<Id>,
                 popped0: seq<Id>, popped: seq<Id>)
    requires Checked(g, before, batch, done, path, tasks, popped0, popped) && |path| > |before| + |tasks|
    ensures var i := |before| + |tasks|;
            && path[i] in g.comp
            && if Ready(g, path[0], path[..i], path[i]) then
                 Checked(g, before, batch, done + 1, path, tasks + [path[i]], popped0, popped)
               else
                 Checked(g, before, batch, done + 1, path[..i] + path[i + 1..], tasks, popped0, popped + [path[i]])
  {
    Splice(before, tasks, batch, done, path);
    CheckFirst(g, before + tasks, batch[done..], tasks, popped);
  }
}
