/** What follows a component in the path: all of its downstream, all chosen branches. */
module FanOut {
  import opened Wrappers
  import opened Sequences
  import opened WorkflowGraph
  import opened Scheduler

  // ---------- extending the path ----------

  /** The ids that differ from the entry they would follow. */
  function Fresh(path: seq<Id>, ids: seq<Id>): nat -> bool {
    (i: nat) => i < |ids| && (|path| + i == 0 || (path + ids)[|path| + i - 1] != ids[i])
  }

  /** Extending a path appends, in order, exactly the ids that differ from the entry they would follow. */
  lemma {:induction false} ExtendMeaning(path: seq<Id>, ids: seq<Id>)
    ensures path <= ExtendPath(path, ids)
    ensures IsFilter(ExtendPath(path, ids)[|path|..], ids, Fresh(path, ids))
    decreases |ids|
  {
    if ids == [] {
      FilterNothing<Id>(Fresh(path, ids));
      assert ExtendPath(path, ids)[|path|..] == [];
    } else {
      var longer, rest := AppendPath(path, ids[0]), ids[1..];
      ExtendMeaning(longer, rest);
      forall i: nat | i < |rest| ensures Fresh(longer, rest)(i) == Later(Fresh(path, ids))(i) {
        assert (path + ids)[|path| + i] == ids[i];
        assert i > 0 ==> (longer + rest)[|longer| + i - 1] == rest[i - 1];
      }
      var more := ExtendPath(longer, rest)[|longer|..];
      FilterSame(more, rest, Fresh(longer, rest), Later(Fresh(path, ids)));
      FilterCons(more, ids, Fresh(path, ids));
      FirstAppended(path, ids, more);
    }
  }

  lemma FirstAppended(path: seq<Id>, ids: seq<Id>, more: seq<Id>)
    requires ids != []
    requires var longer := AppendPath(path, ids[0]); more == ExtendPath(longer, ids[1..])[|longer|..]
    ensures ExtendPath(path, ids)[|path|..] == if Fresh(path, ids)(0) then [ids[0]] + more else more
  {
    FirstFresh(path, ids);
    if Fresh(path, ids)(0) { CutOne(ExtendPath(path, ids), path, ids[0]); }
  }

  lemma FirstFresh(path: seq<Id>, ids: seq<Id>)
    requires ids != []
    ensures AppendPath(path, ids[0]) == if Fresh(path, ids)(0) then path + [ids[0]] else path
  {
    assert |path| > 0 ==> (path + ids)[|path| - 1] == path[|path| - 1];
  }

  lemma CutOne(r: seq<Id>, path: seq<Id>, id: Id)
    requires path + [id] <= r
    ensures r[|path|..] == [id] + r[|path + [id]|..]
  {}

  /** So every id is there afterwards, and when no id repeats the one before it, all of them are appended. */
  lemma ExtendHasAll(path: seq<Id>, ids: seq<Id>)
    requires path != []
    ensures var r := ExtendPath(path, ids);
            && path <= r
            && (forall id <- ids :: OccursFrom(r, |path| - 1, id))
            && ((forall i: nat :: i < |ids| ==> Fresh(path, ids)(i)) ==> r == path + ids)
  {
    ExtendMeaning(path, ids);
    FilterAll(ExtendPath(path, ids)[|path|..], ids, Fresh(path, ids));
    HasAll(path, ids);
  }

  /** `id` stands in `path` at position `n` or later. */
  predicate OccursFrom(path: seq<Id>, n: nat, id: Id) { exists j :: n <= j < |path| && path[j] == id }

  lemma {:induction false} HasAll(path: seq<Id>, ids: seq<Id>)
    requires path != []
    ensures path <= ExtendPath(path, ids) && forall id <- ids :: OccursFrom(ExtendPath(path, ids), |path| - 1, id)
    decreases |ids|
  {
    if ids != [] {
      var longer, r := AppendPath(path, ids[0]), ExtendPath(path, ids);
      HasAll(longer, ids[1..]);
      assert longer <= r && longer[|longer| - 1] == ids[0];
      forall id <- ids ensures OccursFrom(r, |path| - 1, id) {
        if id == ids[0] { assert r[|longer| - 1] == id; } else { assert id in ids[1..]; }
      }
    }
  }

  // ---------- what follows one entry ----------

  /** A component that is neither a block nor one of its items, nor leaves a loop, nor chooses. */
  predicate IsOrdinary(k: Kind) { k.Begin? || k.UserFillUp? || k.Message? || k.Other? }

  /** All of `ids` have been entered after the path `before`. */
  ghost predicate EntersAll(before: seq<Id>, after: seq<Id>, ids: seq<Id>)
    requires before != []
  {
    && before <= after
    && IsFilter(after[|before|..], ids, Fresh(before, ids))
    && (forall id <- ids :: OccursFrom(after, |before| - 1, id))
    && ((forall i: nat :: i < |ids| ==> Fresh(before, ids)(i)) ==> after == before + ids)
  }

  lemma Entered(path: seq<Id>, ids: seq<Id>)
    requires path != []
    ensures EntersAll(path, ExtendPath(path, ids), ids)
  {
    ExtendMeaning(path, ids);
    ExtendHasAll(path, ids);
  }

  /** An ordinary component that does not fail is followed by the whole of its downstream. */
  lemma OrdinaryFansOut(g: Graph, w: World, s: State, id: Id)
    requires id in g.comp && IsOrdinary(g.comp[id].kind) && g.comp[id].downstream != [] && s.path != []
    requires var s' := PostOne(g, w, s, id); !s'.status.Raised? && !HasError(s'.mem, id)
    ensures EntersAll(s.path, PostOne(g, w, s, id).path, g.comp[id].downstream)
  {
    Entered(s.path, g.comp[id].downstream);
    OrdinaryPath(g, w, s, id);
  }

  lemma OrdinaryPath(g: Graph, w: World, s: State, id: Id)
    requires id in g.comp && IsOrdinary(g.comp[id].kind) && g.comp[id].downstream != []
    requires var s' := PostOne(g, w, s, id); !s'.status.Raised? && !HasError(s'.mem, id)
    ensures PostOne(g, w, s, id).path == ExtendPath(s.path, g.comp[id].downstream)
  {
    ErrorStays(g, w, s, id);
  }

  /** What reports an error after post-processing did so when its message had been sent, and nothing else does. */
  lemma ErrorStays(g: Graph, w: World, s: State, id: Id)
    requires id in g.comp && !PostOne(g, w, s, id).status.Raised?
    ensures HasError(Speak(g, w, s, id).mem, id) <==> HasError(PostOne(g, w, s, id).mem, id)
  {
    var handled := HandleError(g, Speak(g, w, s, id), id);
    assert Report(g, handled, id).mem == handled.mem
        || Report(g, handled, id).mem == SetOut(handled.mem, id, "content", Null);
  }

  /** A component that chooses is followed by all the targets it has chosen. */
  lemma ChoiceFansOut(g: Graph, w: World, s: State, id: Id, targets: seq<Id>)
    requires id in g.comp && (g.comp[id].kind.Switch? || g.comp[id].kind.Categorize?)
    requires s.path != [] && !s.status.Raised?
    requires var s' := PostOne(g, w, s, id); !HasError(s'.mem, id) && Chosen(GetOut(s'.mem, id, "_next"), targets)
    ensures var s' := PostOne(g, w, s, id); !s'.status.Raised? && EntersAll(s.path, s'.path, targets)
  {
    Entered(s.path, targets);
    ChoicePath(g, w, s, id, targets);
  }

  /** The output lists these targets. */
  predicate Chosen(v: Value, targets: seq<Id>) {
    v.List? && |v.items| == |targets| && forall i :: 0 <= i < |targets| ==> v.items[i] == Str(targets[i])
  }

  lemma ChoicePath(g: Graph, w: World, s: State, id: Id, targets: seq<Id>)
    requires id in g.comp && (g.comp[id].kind.Switch? || g.comp[id].kind.Categorize?) && !s.status.Raised?
    requires var s' := PostOne(g, w, s, id); !HasError(s'.mem, id) && Chosen(GetOut(s'.mem, id, "_next"), targets)
    ensures var s' := PostOne(g, w, s, id);
            s'.status == s.status && s'.path == ExtendPath(s.path, targets)
  {
    assert Speak(g, w, s, id) == s;
    var reported := Report(g, HandleError(g, s, id), id);
    assert HasError(reported.mem, id) <==> HasError(s.mem, id);
    var next := Targets(GetOut(reported.mem, id, "_next"));
    assert next.Ok? && next.value == targets;
    assert PostOne(g, w, s, id) == Extend(reported, false, targets);
  }

  /** When the handler of a component that fails jumps, the targets of the jump follow, and nothing else. */
  lemma JumpFansOut(g: Graph, w: World, s: State, id: Id)
    requires id in g.comp && g.comp[id].handler.Some? && g.comp[id].handler.value.goto != []
    requires var s' := PostOne(g, w, s, id); !s'.status.Raised? && HasError(s'.mem, id)
    ensures PostOne(g, w, s, id).path == s.path + g.comp[id].handler.value.goto
  {
    ErrorStays(g, w, s, id);
    var spoken := Speak(g, w, s, id);
    var reported := Report(g, HandleError(g, spoken, id), id);
    assert reported.path == s.path + g.comp[id].handler.value.goto;
  }

  /** A block is followed by its item, a leaf of a body by the item of its block. */
  lemma ItemFollows(g: Graph, w: World, s: State, id: Id, block: Id)
    requires id in g.comp && block in g.comp && IsBlock(g.comp[block].kind) && s.path != []
    requires id == block || (IsOrdinary(g.comp[id].kind) && g.comp[id].downstream == [] && HasParent(g, id, block))
    requires var s' := PostOne(g, w, s, id); !s'.status.Raised? && !HasError(s'.mem, id)
    ensures EntersAll(s.path, PostOne(g, w, s, id).path, [StartOf(g, block)])
  {
    Entered(s.path, [StartOf(g, block)]);
    ErrorStays(g, w, s, id);
  }

  /** An item that has ended, or an early exit of a loop, is followed by the whole downstream of the block. */
  lemma LeavingFansOut(g: Graph, w: World, s: State, id: Id, block: Id)
    requires id in g.comp && block in g.comp && HasParent(g, id, block) && s.path != []
    requires || (IsItem(g.comp[id].kind) && Cursor(s, id) == -1)
             || (g.comp[id].kind.ExitLoop? && g.comp[block].kind.Loop?)
    requires var s' := PostOne(g, w, s, id); !s'.status.Raised? && !HasError(s'.mem, id)
    ensures EntersAll(s.path, PostOne(g, w, s, id).path, g.comp[block].downstream)
  {
    Entered(s.path, g.comp[block].downstream);
    ErrorStays(g, w, s, id);
  }

  // ---------- what follows a batch ----------

  lemma {:induction false} PostAllCompose(g: Graph, w: World, s: State, a: seq<Id>, b: seq<Id>)
    requires Known(g, a + b)
    ensures Known(g, a) && Known(g, b)
    ensures PostAll(g, w, s, a + b) == PostAll(g, w, PostAll(g, w, s, a), b)
    decreases |a|
  {
    assert forall id <- a :: id in a + b;
    assert forall id <- b :: id in a + b;
    if a == [] {
      assert a + b == b;
    } else {
      assert (a + b)[0] == a[0] && (a + b)[1..] == a[1..] + b;
      if !s.status.Raised? {
        PostAllCompose(g, w, PostOne(g, w, s, a[0]), a[1..], b);
      } else {
        assert b == [] || PostAll(g, w, s, b) == s;
      }
    }
  }

  /** The state when the entries up to number `k` of a batch have been post-processed. */
  function Posted(g: Graph, w: World, s: State, ids: seq<Id>, k: nat): State
    requires Known(g, ids) && k <= |ids|
  {
    assert forall id <- ids[..k] :: id in ids;
    PostAll(g, w, s, ids[..k])
  }

  lemma PostedNext(g: Graph, w: World, s: State, ids: seq<Id>, k: nat)
    requires Known(g, ids) && k < |ids|
    ensures ids[k] in g.comp
    ensures Posted(g, w, s, ids, k + 1)
            == if Posted(g, w, s, ids, k).status.Raised? then Posted(g, w, s, ids, k)
               else PostOne(g, w, Posted(g, w, s, ids, k), ids[k])
  {
    assert ids[..k + 1] == ids[..k] + [ids[k]] && ids[k] in ids;
    assert forall id <- ids[..k] + [ids[k]] :: id in ids;
    PostAllCompose(g, w, s, ids[..k], [ids[k]]);
    PostSingle(g, w, Posted(g, w, s, ids, k), ids[k]);
  }

  lemma PostSingle(g: Graph, w: World, s: State, id: Id)
    requires id in g.comp
    ensures PostAll(g, w, s, [id]) == if s.status.Raised? then s else PostOne(g, w, s, id)
  {
    assert [id][1..] == [];
  }

  /** What has been entered stays, and a run that has raised stays so. */
  lemma PostedGrows(g: Graph, w: World, s: State, ids: seq<Id>, k: nat)
    requires Known(g, ids) && k <= |ids|
    ensures Posted(g, w, s, ids, k).path <= PostAll(g, w, s, ids).path && s.path <= Posted(g, w, s, ids, k).path
    ensures Posted(g, w, s, ids, k).status.Raised? ==> PostAll(g, w, s, ids).status.Raised?
  {
    assert ids == ids[..k] + ids[k..];
    PostAllCompose(g, w, s, ids[..k], ids[k..]);
    assert Grows(Posted(g, w, s, ids, k), PostAll(g, w, s, ids));
    assert Grows(s, Posted(g, w, s, ids, k));
  }

  /** After a batch that does not raise, the downstream of every ordinary entry that did not fail has been entered. */
  lemma BatchFansOut(g: Graph, w: World, s: State, ids: seq<Id>, k: nat)
    requires Known(g, ids) && k < |ids| && s.path != [] && !PostAll(g, w, s, ids).status.Raised?
    requires ids[k] in g.comp && IsOrdinary(g.comp[ids[k]].kind)
    requires !HasError(Posted(g, w, s, ids, k + 1).mem, ids[k])
    ensures forall d <- g.comp[ids[k]].downstream :: OccursFrom(PostAll(g, w, s, ids).path, |s.path| - 1, d)
  {
    var before, after := Posted(g, w, s, ids, k), Posted(g, w, s, ids, k + 1);
    PostedNext(g, w, s, ids, k);
    PostedGrows(g, w, s, ids, k);
    PostedGrows(g, w, s, ids, k + 1);
    if g.comp[ids[k]].downstream != [] {
      OrdinaryFansOut(g, w, before, ids[k]);
      forall d <- g.comp[ids[k]].downstream
        ensures OccursFrom(PostAll(g, w, s, ids).path, |s.path| - 1, d)
      {
        StillThere(s.path, before.path, after.path, PostAll(g, w, s, ids).path, d);
      }
    }
  }

  lemma StillThere(start: seq<Id>, before: seq<Id>, after: seq<Id>, last: seq<Id>, d: Id)
    requires start != [] && start <= before && after <= last && OccursFrom(after, |before| - 1, d)
    ensures OccursFrom(last, |start| - 1, d)
  {
    var j :| |before| - 1 <= j < |after| && after[j] == d;
    assert last[j] == d;
  }
}
