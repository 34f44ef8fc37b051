/** A run of one token over acyclic edges halts. */
module Termination {
  import opened WorkflowGraph
  import opened Components
  import opened CollationEffect
  import opened Scheduler
  import opened SingleToken

  // ---------- numbers written with digits ----------

  function Pow(base: nat, n: nat): nat { if n == 0 then 1 else base * Pow(base, n - 1) }

  /** The first `n` digits of `ds`, padded with zeros, as a number. */
  function Value(ds: seq<nat>, n: nat, base: nat): nat {
    if n == 0 then 0
    else if ds == [] then 0
    else ds[0] * Pow(base, n - 1) + Value(ds[1..], n - 1, base)
  }

  ghost predicate Digits(ds: seq<nat>, base: nat) { forall i :: 0 <= i < |ds| ==> ds[i] < base }

  lemma {:induction false} ValueBound(ds: seq<nat>, n: nat, base: nat)
    requires Digits(ds, base) && base > 0
    ensures Value(ds, n, base) < Pow(base, n)
    decreases n
  {
    if n > 0 {
      var p := Pow(base, n - 1);
      if ds != [] {
        ValueBound(ds[1..], n - 1, base);
        assert (ds[0] + 1) * p <= base * p by { MulMonotone(ds[0] + 1, base, p); }
        assert (ds[0] + 1) * p == ds[0] * p + p;
      } else {
        ValueBound([], n - 1, base);
        MulMonotone(1, base, p);
      }
    }
  }

  lemma MulMonotone(a: nat, b: nat, p: nat)
    requires a <= b
    ensures a * p <= b * p
  {}

  /** Digit sequences are compared at the first place where they differ. */
  lemma {:induction false} ValueDecreases(ds: seq<nat>, es: seq<nat>, k: nat, n: nat, base: nat)
    requires Digits(ds, base) && Digits(es, base)
    requires k < |ds| && k < |es| && k < n && ds[..k] == es[..k] && es[k] < ds[k]
    ensures Value(es, n, base) < Value(ds, n, base)
    decreases n
  {
    var p := Pow(base, n - 1);
    if k == 0 {
      ValueBound(es[1..], n - 1, base);
      Leads(es[0], ds[0], p, Value(es[1..], n - 1, base));
    } else {
      Heads(ds, es, k);
      ValueDecreases(ds[1..], es[1..], k - 1, n - 1, base);
    }
  }

  lemma Leads(x: nat, y: nat, p: nat, r: nat)
    requires x < y && r < p
    ensures x * p + r < y * p
  {
    MulMonotone(x + 1, y, p);
  }

  lemma Heads(ds: seq<nat>, es: seq<nat>, k: nat)
    requires 0 < k < |ds| && k < |es| && ds[..k] == es[..k]
    ensures ds[0] == es[0] && ds[1..][..k - 1] == es[1..][..k - 1]
  {
    assert ds[0] == ds[..k][0] == es[..k][0] == es[0];
    assert ds[1..][..k - 1] == ds[..k][1..] == es[..k][1..] == es[1..][..k - 1];
  }

  // ---------- acyclic graphs ----------

  /** A numbering of the components: `level` counts enclosing blocks and `pos` is a topological number within
      a block, 0 for items. `limit` bounds the loop counts. */
  datatype Topology = Topology(level: map<Id, nat>, pos: map<Id, nat>, height: nat, width: nat, limit: nat)

  ghost predicate Edge(g: Graph, t: Topology, c: Id, d: Id)
    requires c in g.comp && c in t.pos
  {
    d in g.comp && d in t.pos && g.comp[d].parent == g.comp[c].parent
    && (IsItem(g.comp[c].kind) || t.pos[d] < t.pos[c])
  }

  ghost predicate LevelOk(g: Graph, t: Topology, c: Id)
    requires c in g.comp
  {
    && c in t.level && c in t.pos
    && t.level[c] <= t.height && t.pos[c] <= t.width
    && (g.comp[c].parent.Some? ==>
          && g.comp[c].parent.value in g.comp && g.comp[c].parent.value in t.level
          && IsBlock(g.comp[g.comp[c].parent.value].kind)
          && t.level[c] == t.level[g.comp[c].parent.value] + 1)
  }

  /** A handler may jump along an edge, or out of its block along an edge of that; a handler of an item only the
      latter. */
  ghost predicate Jump(g: Graph, t: Topology, c: Id, d: Id)
    requires c in g.comp && c in t.pos
  {
    || (!IsItem(g.comp[c].kind) && Edge(g, t, c, d))
    || (g.comp[c].parent.Some? && g.comp[c].parent.value in g.comp && g.comp[c].parent.value in t.pos
        && Edge(g, t, g.comp[c].parent.value, d))
  }

  /** Edges and jumps go down, at most one of each out of each component, and stay inside their block or leave it;
      a block has one item. */
  ghost predicate Acyclic(g: Graph, t: Topology) {
    && "" !in g.comp
    && (forall c <- g.comp :: LevelOk(g, t, c))
    && (forall c <- g.comp :: |g.comp[c].downstream| <= 1)
    && (forall c <- g.comp, d <- g.comp[c].downstream :: Edge(g, t, c, d))
    && (forall c <- g.comp :: IsItem(g.comp[c].kind) ==>
          t.pos[c] == 0 && (forall p :: HasParent(g, c, p) ==> StartOf(g, p) == c))
    && (forall c <- g.comp :: g.comp[c].handler.Some? ==> |g.comp[c].handler.value.goto| <= 1)
    && (forall c <- g.comp :: g.comp[c].handler.Some? ==> forall d <- g.comp[c].handler.value.goto :: Jump(g, t, c, d))
    && (forall c <- g.comp :: !IsItem(g.comp[c].kind) ==> t.pos[c] > 0)
    && (forall c <- g.comp :: g.comp[c].kind.Loop? ==> g.comp[c].kind.maximum <= t.limit)
  }

  lemma {:induction false} FirstItemFound(g: Graph, p: Id, iteration: bool, ids: seq<Id>)
    ensures var r := FirstItem(g, p, iteration, ids);
            r == "" || (HasParent(g, r, p) && IsItem(g.comp[r].kind))
    decreases |ids|
  {
    if ids != [] { FirstItemFound(g, p, iteration, ids[1..]); }
  }

  lemma StartIsItem(g: Graph, p: Id)
    requires p in g.comp
    ensures var r := StartOf(g, p); r in g.comp && r != "" ==> HasParent(g, r, p) && IsItem(g.comp[r].kind)
  {
    FirstItemFound(g, p, g.comp[p].kind.Iteration?, g.order);
  }

  datatype NumberedGraph = NumberedGraph(g: Graph, t: Topology)

  /** An acyclic workflow with its numbering. */
  type Flow = f: NumberedGraph | Acyclic(f.g, f.t)
    witness NumberedGraph(Graph([], map[]), Topology(map[], map[], 0, 0, 0))

  /** What the components leave behind: arrays within the limit, and at most one branch taken, downwards. */
  ghost predicate Tame(f: Flow, mem: Memory)
  {
    && (forall p <- f.g.comp :: f.g.comp[p].kind.Iteration? ==> ShortArray(f.g, mem, p, f.t.limit))
    && (forall c <- f.g.comp :: f.g.comp[c].kind.Categorize? || f.g.comp[c].kind.Switch? ==> BranchOk(f, mem, c))
  }

  ghost predicate ShortArray(g: Graph, mem: Memory, p: Id, limit: nat)
    requires p in g.comp && g.comp[p].kind.Iteration?
  {
    var arr := Lookup(g, mem, g.comp[p].kind.itemsRef);
    arr.Ok? && arr.value.List? ==> |arr.value.items| <= limit
  }

  ghost predicate BranchOk(f: Flow, mem: Memory, c: Id)
    requires c in f.g.comp && c in f.t.pos
  {
    var next := Targets(GetOut(mem, c, "_next"));
    next.Ok? ==> |next.value| <= 1 && forall d <- next.value :: Edge(f.g, f.t, c, d)
  }

  /** At this visit the item neither ends nor begins a pass: its array cannot be looked up, or its outputs cannot be
      collected. */
  predicate Stalls(g: Graph, mem: Memory, idx: int, id: Id)
    requires id in g.comp
  {
    && idx != -1
    && match g.comp[id].parent
       case None => true
       case Some(p) =>
         p in g.comp && g.comp[p].kind.Iteration? &&
         (var arr := Lookup(g, mem, g.comp[p].kind.itemsRef);
          || arr.Raise?
          || (arr.value.List? && idx > 0 && CollateAll(g, mem, p, g.comp[p].kind.collects, g.order).raised))
  }

  /** An item of an iteration stalls exactly when its visit leaves the cursor where it was, without the item having
      ended before; and that is when its array cannot be looked up, or when, after a pass, an output that collects
      from a component of the block is neither empty nor a list. */
  lemma StallsExactly(g: Graph, w: World, tick: nat, mem: Memory, idx: int, id: Id, p: Id)
    requires HasParent(g, id, p) && p in g.comp && g.comp[p].kind.Iteration?
    requires !Canceled(w, tick, 3) && idx >= -1
    ensures Stalls(g, mem, idx, id) <==> idx != -1 && InvokeIterationItem(g, w, tick, mem, idx, id).idx == idx
    ensures var arr := Lookup(g, mem, g.comp[p].kind.itemsRef);
            Stalls(g, mem, idx, id) <==>
              && idx != -1
              && (|| arr.Raise?
                  || (arr.value.List? && idx > 0
                      && exists i: nat :: IsBad(mem, p, g.comp[p].kind.collects, Members(g, p, g.order), i)))
  {
    CollateAllRaisesIff(g, mem, p, g.comp[p].kind.collects, g.order);
  }

  /** When the token is at an item whose errors a handler takes over, the item does not stall. */
  ghost predicate Progresses(f: Flow, s: State) {
    OneToken(s) && Token(s) in f.g.comp && IsItem(f.g.comp[Token(s)].kind) && !GivesUp(f.g, Token(s))
    ==> !Stalls(f.g, s.mem, Cursor(s, Token(s)), Token(s))
  }

  // ---------- the ranking ----------

  /** How many more passes the item of a block can begin. */
  function Passes(f: Flow, s: State, p: Id): nat
    requires p in f.g.comp
  {
    var i := Cursor(s, StartOf(f.g, p));
    if i <= f.t.limit then f.t.limit + 1 - (if i < -1 then -1 else i) else 0
  }

  /** Position and remaining passes of every block around `c`, outermost first. */
  function Around(f: Flow, s: State, c: Id): seq<nat>
    requires c in f.g.comp
    decreases f.t.level[c]
  {
    match f.g.comp[c].parent
    case None => []
    case Some(p) => Around(f, s, p) + [2 * f.t.pos[p], Passes(f, s, p)]
  }

  function Rank(f: Flow, s: State, c: Id): seq<nat>
    requires c in f.g.comp
  {
    Around(f, s, c) + [2 * f.t.pos[c] + 1]
  }

  function Base(t: Topology): nat { 2 * t.width + t.limit + 4 }

  lemma {:induction false} AroundShape(f: Flow, s: State, c: Id)
    requires c in f.g.comp
    ensures |Around(f, s, c)| <= 2 * f.t.level[c] <= 2 * f.t.height
    ensures Digits(Around(f, s, c), Base(f.t))
    decreases f.t.level[c]
  {
    match f.g.comp[c].parent
    case None =>
    case Some(p) => AroundShape(f, s, p);
  }

  /** The blocks around `c` do not see the cursor of an item that lies at the level of `c` or deeper. */
  lemma {:induction false} AroundFrame(f: Flow, s: State, s': State, c: Id, item: Id)
    requires c in f.g.comp && item in f.g.comp
    requires f.t.level[c] <= f.t.level[item]
    requires f.g.comp[item].parent.Some? ==> f.t.level[c] <= f.t.level[f.g.comp[item].parent.value]
    requires forall id :: id != item ==> Cursor(s, id) == Cursor(s', id)
    ensures Around(f, s, c) == Around(f, s', c)
    decreases f.t.level[c]
  {
    match f.g.comp[c].parent
    case None =>
    case Some(p) =>
      AroundFrame(f, s, s', p, item);
      StartIsItem(f.g, p);
  }

  /** `s'` holds the token at `d`, further down than `s` held it at `c`. */
  ghost predicate Lower(f: Flow, s: State, c: Id, s': State, d: Id)
    requires c in f.g.comp && d in f.g.comp
  {
    Value(Rank(f, s', d), 2 * f.t.height + 1, Base(f.t)) < Value(Rank(f, s, c), 2 * f.t.height + 1, Base(f.t))
  }

  lemma LowerAt(f: Flow, s: State, c: Id, s': State, d: Id, k: nat)
    requires c in f.g.comp && d in f.g.comp
    requires var ds, es := Rank(f, s, c), Rank(f, s', d);
             k < |ds| && k < |es| && ds[..k] == es[..k] && es[k] < ds[k]
    ensures Lower(f, s, c, s', d)
  {
    AroundShape(f, s, c);
    AroundShape(f, s', d);
    ValueDecreases(Rank(f, s, c), Rank(f, s', d), k, 2 * f.t.height + 1, Base(f.t));
  }

  lemma AlongEdge(f: Flow, s: State, c: Id, s': State, d: Id)
    requires c in f.g.comp && d in f.g.comp
    requires f.g.comp[d].parent == f.g.comp[c].parent && f.t.pos[d] < f.t.pos[c] && s'.cursors == s.cursors
    ensures Lower(f, s, c, s', d)
  {
    SameCursors(f, s, s', c);
    assert Around(f, s', d) == Around(f, s', c);
    LowerAt(f, s, c, s', d, |Around(f, s, c)|);
  }

  lemma {:induction false} SameCursors(f: Flow, s: State, s': State, c: Id)
    requires c in f.g.comp && s'.cursors == s.cursors
    ensures Around(f, s', c) == Around(f, s, c)
    decreases f.t.level[c]
  {
    match f.g.comp[c].parent
    case None =>
    case Some(p) => SameCursors(f, s, s', p);
  }

  lemma IntoBlock(f: Flow, s: State, c: Id, s': State, d: Id)
    requires c in f.g.comp && HasParent(f.g, d, c) && s'.cursors == s.cursors
    ensures Lower(f, s, c, s', d)
  {
    SameCursors(f, s, s', c);
    LowerAt(f, s, c, s', d, |Around(f, s, c)|);
  }

  lemma OutOfBlock(f: Flow, s: State, c: Id, p: Id, s': State, d: Id)
    requires HasParent(f.g, c, p) && p in f.g.comp && d in f.g.comp
    requires f.g.comp[d].parent == f.g.comp[p].parent && f.t.pos[d] < f.t.pos[p]
    requires forall id :: id != c ==> Cursor(s, id) == Cursor(s', id)
    ensures Lower(f, s, c, s', d)
  {
    AroundFrame(f, s, s', p, c);
    assert Around(f, s', d) == Around(f, s', p);
    var around := Around(f, s, p);
    assert Rank(f, s, c) == around + [2 * f.t.pos[p], Passes(f, s, p), 2 * f.t.pos[c] + 1];
    LowerAt(f, s, c, s', d, |around|);
  }

  lemma NextPass(f: Flow, s: State, c: Id, p: Id, s': State, d: Id)
    requires HasParent(f.g, c, p) && p in f.g.comp && d in f.g.comp && HasParent(f.g, d, p)
    requires IsItem(f.g.comp[c].kind)
    requires forall id :: id != c ==> Cursor(s, id) == Cursor(s', id)
    requires -1 <= Cursor(s, c) < f.t.limit && Cursor(s', c) == Cursor(s, c) + 1
    ensures Lower(f, s, c, s', d)
  {
    AroundFrame(f, s, s', p, c);
    var around := Around(f, s, p);
    assert StartOf(f.g, p) == c;
    assert Rank(f, s, c) == around + [2 * f.t.pos[p], Passes(f, s, p), 2 * f.t.pos[c] + 1];
    assert Rank(f, s', d) == around + [2 * f.t.pos[p], Passes(f, s', p), 2 * f.t.pos[d] + 1];
    LowerAt(f, s, c, s', d, |around| + 1);
  }

  lemma DownIsEdge(f: Flow, c: Id)
    requires c in f.g.comp && |f.g.comp[c].downstream| == 1
    ensures Edge(f.g, f.t, c, f.g.comp[c].downstream[0])
  {
    assert f.g.comp[c].downstream[0] in f.g.comp[c].downstream;
  }

  // ---------- one turn ----------

  ghost predicate CursorsOk(s: State) { forall id :: Cursor(s, id) >= -1 }

  lemma SuccessorsKeepCursors(g: Graph, s: State, id: Id, other: bool)
    requires id in g.comp && CursorsOk(s)
    ensures CursorsOk(Successors(g, s, id, other))
  {
    forall i ensures Cursor(Successors(g, s, id, other), i) >= -1 { assert Cursor(s, i) >= -1; }
  }

  /** What an item does when it does not stall: begin a pass, or end; or it fails for good. */
  lemma ItemAdvances(f: Flow, w: World, s: State)
    requires Tame(f, s.mem) && Progresses(f, s) && !Canceled(w, s.tick, 3) && CursorsOk(s)
    requires OneToken(s) && Token(s) in f.g.comp && IsItem(f.g.comp[Token(s)].kind)
    ensures var c := Token(s); var s1 := Invoke(f.g, w, Entered(s), c);
            && (forall id :: id != c ==> Cursor(s1, id) == Cursor(s, id))
            && (|| (HasError(s1.mem, c) && GivesUp(f.g, c))
                || Cursor(s1, c) == -1
                || (Cursor(s, c) < f.t.limit && Cursor(s1, c) == Cursor(s, c) + 1
                    && f.g.comp[c].parent.Some? && f.g.comp[c].parent.value in f.g.comp))
  {
    var c := Token(s);
    if f.g.comp[c].parent.Some? { ItemFitsBlock(f, c, f.g.comp[c].parent.value); }
    if f.g.comp[c].kind.IterationItem? {
      IterationItemAdvances(f, w, s.tick, s.mem, Cursor(s, c), c);
    } else {
      LoopItemAdvances(f, w, s.tick, s.mem, Cursor(s, c), c);
    }
  }

  /** The item of an iteration is an iteration item, that of a loop a loop item. */
  lemma ItemFitsBlock(f: Flow, c: Id, p: Id)
    requires c in f.g.comp && IsItem(f.g.comp[c].kind) && HasParent(f.g, c, p)
    ensures p in f.g.comp && (f.g.comp[c].kind.IterationItem? <==> f.g.comp[p].kind.Iteration?)
    ensures f.g.comp[p].kind.Iteration? || f.g.comp[p].kind.Loop?
  {
    assert StartOf(f.g, p) == c && LevelOk(f.g, f.t, c);
    FirstItemFits(f.g, p, f.g.comp[p].kind.Iteration?, f.g.order);
  }

  lemma {:induction false} FirstItemFits(g: Graph, p: Id, iteration: bool, ids: seq<Id>)
    ensures var r := FirstItem(g, p, iteration, ids);
            r == "" || (r in g.comp && if iteration then g.comp[r].kind.IterationItem? else g.comp[r].kind.LoopItem?)
    decreases |ids|
  {
    if ids != [] { FirstItemFits(g, p, iteration, ids[1..]); }
  }

  lemma IterationItemAdvances(f: Flow, w: World, tick: nat, mem: Memory, idx: int, c: Id)
    requires Tame(f, mem) && c in f.g.comp && !Canceled(w, tick, 3) && idx >= -1
    requires forall p :: HasParent(f.g, c, p) ==> p in f.g.comp && f.g.comp[p].kind.Iteration?
    requires GivesUp(f.g, c) || !Stalls(f.g, mem, idx, c)
    ensures var r := InvokeIterationItem(f.g, w, tick, mem, idx, c);
            || (HasError(r.mem, c) && GivesUp(f.g, c))
            || r.idx == -1
            || (idx < f.t.limit && r.idx == idx + 1 && f.g.comp[c].parent.Some?
                && f.g.comp[c].parent.value in f.g.comp)
  {
    if f.g.comp[c].parent.Some? { assert HasParent(f.g, c, f.g.comp[c].parent.value); }
  }

  lemma LoopItemAdvances(f: Flow, w: World, tick: nat, mem: Memory, idx: int, c: Id)
    requires Tame(f, mem) && c in f.g.comp && !Canceled(w, tick, 3)
    requires forall p :: HasParent(f.g, c, p) ==> p in f.g.comp && f.g.comp[p].kind.Loop?
    requires GivesUp(f.g, c) || !Stalls(f.g, mem, idx, c)
    ensures var r := InvokeLoopItem(f.g, w, tick, mem, idx, c);
            || (HasError(r.mem, c) && GivesUp(f.g, c))
            || r.idx == -1
            || (idx < f.t.limit && r.idx == idx + 1 && f.g.comp[c].parent.Some?
                && f.g.comp[c].parent.value in f.g.comp)
  {
    if f.g.comp[c].parent.Some? { assert HasParent(f.g, c, f.g.comp[c].parent.value); }
  }

  /** The successor of a token, at most one, lies lower. */
  lemma SuccessorIsLower(f: Flow, s: State, r: State, c: Id, other: bool)
    requires c in f.g.comp && !IsItem(f.g.comp[c].kind) && r.path != []
    requires r.cursors == s.cursors && !other
    requires f.g.comp[c].kind.Categorize? || f.g.comp[c].kind.Switch? ==> BranchOk(f, r.mem, c)
    ensures var s' := Successors(f.g, r, c, other);
            && s'.cursors == s.cursors
            && (s'.status.Raised? || s'.path == r.path
                || (|s'.path| == |r.path| + 1
                    && var d := s'.path[|r.path|]; d in f.g.comp ==> Lower(f, s, c, s', d)))
  {
    var s' := Successors(f.g, r, c, other);
    var k := f.g.comp[c].kind;
    if !s'.status.Raised? && s'.path != r.path {
      if k.Categorize? || k.Switch? {
        var next := Targets(GetOut(r.mem, c, "_next"));
        ExtendOne(r.path, next.value);
        assert next.value[0] in next.value;
        AlongEdge(f, s, c, s', next.value[0]);
      } else if IsBlock(k) {
        ExtendOne(r.path, [StartOf(f.g, c)]);
        StartIsItem(f.g, c);
        if StartOf(f.g, c) in f.g.comp { IntoBlock(f, s, c, s', StartOf(f.g, c)); }
      } else if k.ExitLoop? && f.g.comp[f.g.comp[c].parent.value].kind.Loop? {
        var p := f.g.comp[c].parent.value;
        ExtendOne(r.path, f.g.comp[p].downstream);
        DownIsEdge(f, p);
        OutOfBlock(f, s, c, p, s', f.g.comp[p].downstream[0]);
      } else {
        ProceedIsLower(f, s, r, c);
      }
    }
  }

  lemma ExtendOne(path: seq<Id>, ids: seq<Id>)
    requires |ids| <= 1 && ExtendPath(path, ids) != path
    ensures |ids| == 1 && ExtendPath(path, ids) == path + [ids[0]]
  {
    if ids != [] { assert ids[1..] == []; }
  }

  lemma ExtendByLast(path: seq<Id>)
    requires path != []
    ensures ExtendPath(path, [path[|path| - 1]]) == path
  {
    var last := path[|path| - 1];
    assert [last][1..] == [];
  }

  lemma ProceedIsLower(f: Flow, s: State, r: State, c: Id)
    requires c in f.g.comp && !IsItem(f.g.comp[c].kind) && r.cursors == s.cursors
    requires var s' := Proceed(f.g, r, c, false); !s'.status.Raised? && s'.path != r.path
    ensures var s' := Proceed(f.g, r, c, false);
            && |s'.path| == |r.path| + 1
            && var d := s'.path[|r.path|]; d in f.g.comp ==> Lower(f, s, c, s', d)
  {
    var s' := Proceed(f.g, r, c, false);
    var down := f.g.comp[c].downstream;
    if down == [] && f.g.comp[c].parent.Some? {
      var p := f.g.comp[c].parent.value;
      var start := StartOf(f.g, p);
      ExtendOne(r.path, [start]);
      StartIsItem(f.g, p);
      if start in f.g.comp { AlongEdge(f, s, c, s', start); }
    } else {
      ExtendOne(r.path, down);
      DownIsEdge(f, c);
      AlongEdge(f, s, c, s', down[0]);
    }
  }

  /** The same for an item that did not fail. */
  lemma ItemSuccessorIsLower(f: Flow, s: State, r: State, c: Id)
    requires c in f.g.comp && IsItem(f.g.comp[c].kind) && r.path != [] && r.path[|r.path| - 1] == c
    requires CursorsOk(s) && CursorsOk(r)
    requires forall id :: id != c ==> Cursor(r, id) == Cursor(s, id)
    requires Cursor(r, c) == -1
             || (Cursor(s, c) < f.t.limit && Cursor(r, c) == Cursor(s, c) + 1
                 && f.g.comp[c].parent.Some? && f.g.comp[c].parent.value in f.g.comp)
    ensures var s' := Successors(f.g, r, c, false);
            && CursorsOk(s')
            && (s'.status.Raised? || s'.path == r.path
                || (|s'.path| == |r.path| + 1
                    && var d := s'.path[|r.path|]; d in f.g.comp ==> Lower(f, s, c, s', d)))
  {
    var s' := Successors(f.g, r, c, false);
    var ended := ItemEnd(f.g, r, c);
    SuccessorsKeepCursors(f.g, r, c, false);
    if f.g.comp[c].parent.Some? { assert HasParent(f.g, c, f.g.comp[c].parent.value); }
    ExtendByLast(r.path);
    if !s'.status.Raised? && s'.path != r.path {
      var p := f.g.comp[c].parent.value;
      if ended.value {
        ExtendOne(r.path, f.g.comp[p].downstream);
        var d := f.g.comp[p].downstream[0];
        DownIsEdge(f, p);
        OutOfBlock(f, s, c, p, s', d);
      } else if f.g.comp[c].downstream == [] {
        assert false;
      } else {
        ExtendOne(r.path, f.g.comp[c].downstream);
        DownIsEdge(f, c);
        NextPass(f, s, c, p, s', f.g.comp[c].downstream[0]);
      }
    }
  }

  lemma LowerForSameCursors(f: Flow, s: State, c: Id, r: State, s': State, d: Id)
    requires c in f.g.comp && d in f.g.comp
    requires Lower(f, s, c, r, d) && r.cursors == s'.cursors
    ensures Lower(f, s, c, s', d)
  {
    SameCursors(f, r, s', d);
  }

  /** Settling a batch of one token that added at most one entry leaves one token, or ends the run. */
  lemma SettleOne(g: Graph, w: World, r: State, to: nat)
    requires r.idx <= to <= |r.path| <= to + 1 && r.status.Running?
    ensures var s' := Settle(g, w, r, to);
            s'.status.Running? ==>
              && |r.path| == to + 1 && r.path[to] in g.comp && !r.error
              && s' == r.(idx := to)
  {
    if |r.path| == to + 1 { assert r.path[to..] == [r.path[to]]; }
  }

  /** What processing a token of an acyclic workflow leads to. */
  ghost predicate MovesDown(f: Flow, s: State, s': State)
    requires OneToken(s) && Token(s) in f.g.comp
  {
    && CursorsOk(s')
    && (|| s'.status.Raised?
        || s'.error
        || s'.path == s.path
        || (|s'.path| == |s.path| + 1
            && var d := s'.path[|s.path|]; d in f.g.comp ==> Lower(f, s, Token(s), s', d)))
  }

  /** A jump, by a component that has changed no cursor but its own. */
  lemma JumpIsLower(f: Flow, s: State, s': State, c: Id, d: Id)
    requires c in f.g.comp && Jump(f.g, f.t, c, d)
    requires forall id :: id != c ==> Cursor(s', id) == Cursor(s, id)
    requires !IsItem(f.g.comp[c].kind) ==> s'.cursors == s.cursors
    ensures d in f.g.comp && Lower(f, s, c, s', d)
  {
    if !IsItem(f.g.comp[c].kind) && Edge(f.g, f.t, c, d) {
      AlongEdge(f, s, c, s', d);
    } else {
      OutOfBlock(f, s, c, f.g.comp[c].parent.value, s', d);
    }
  }

  /** A component whose handler jumps adds the target of the jump and nothing else. */
  lemma JumpMovesDown(f: Flow, s: State, spoken: State, c: Id)
    requires OneToken(s) && c == Token(s) && c in f.g.comp && CursorsOk(s)
    requires TakesOtherBranch(f.g, spoken, c) && spoken.path == s.path && CursorsOk(spoken)
    requires forall id :: id != c ==> Cursor(spoken, id) == Cursor(s, id)
    requires !IsItem(f.g.comp[c].kind) ==> spoken.cursors == s.cursors
    ensures MovesDown(f, s, Successors(f.g, Report(f.g, HandleError(f.g, spoken, c), c), c, true))
  {
    var s' := JumpTaken(f.g, spoken, c);
    var goto := f.g.comp[c].handler.value.goto;
    assert goto == [goto[0]] && goto[0] in goto;
    forall id ensures Cursor(s', id) >= -1 && (id != c ==> Cursor(s', id) == Cursor(s, id)) {
      assert Cursor(spoken, id) >= -1;
    }
    JumpIsLower(f, s, s', c, goto[0]);
  }

  lemma JumpTaken(g: Graph, spoken: State, c: Id) returns (s': State)
    requires c in g.comp && TakesOtherBranch(g, spoken, c)
    ensures s' == Successors(g, Report(g, HandleError(g, spoken, c), c), c, true)
    ensures s'.path == spoken.path + g.comp[c].handler.value.goto
    ensures s'.cursors == spoken.cursors || (IsItem(g.comp[c].kind) && s'.cursors == spoken.cursors[c := -1])
  {
    s' := Successors(g, Report(g, HandleError(g, spoken, c), c), c, true);
  }

  lemma PlainMovesDown(f: Flow, w: World, s: State)
    requires OneToken(s) && CursorsOk(s) && Token(s) in f.g.comp
    requires !IsItem(f.g.comp[Token(s)].kind)
    requires Tame(f, Processed(f.g, w, s).mem)
    ensures MovesDown(f, s, Processed(f.g, w, s))
  {
    var c := Token(s);
    var invoked := Invoke(f.g, w, Entered(s), c);
    assert invoked.cursors == s.cursors && invoked.path == s.path;
    var spoken := Speak(f.g, w, invoked, c);
    if !spoken.status.Raised? {
      forall id ensures Cursor(spoken, id) >= -1 { assert Cursor(s, id) >= -1; }
      if TakesOtherBranch(f.g, spoken, c) {
        JumpMovesDown(f, s, spoken, c);
      } else {
        var reported := Report(f.g, HandleError(f.g, spoken, c), c);
        assert reported.path == s.path && reported.cursors == s.cursors;
        SuccessorIsLower(f, s, reported, c, false);
      }
    }
    forall id ensures Cursor(Processed(f.g, w, s), id) >= -1 { assert Cursor(s, id) >= -1; }
  }

  /** An item whose handler does not jump, after its invocation. */
  lemma ReportedMovesDown(f: Flow, s: State, invoked: State, c: Id)
    requires OneToken(s) && c == Token(s) && c in f.g.comp && IsItem(f.g.comp[c].kind) && CursorsOk(s)
    requires CursorsOk(invoked) && invoked.path == s.path && !TakesOtherBranch(f.g, invoked, c)
    requires forall id :: id != c ==> Cursor(invoked, id) == Cursor(s, id)
    requires || (HasError(invoked.mem, c) && GivesUp(f.g, c))
             || Cursor(invoked, c) == -1
             || (Cursor(s, c) < f.t.limit && Cursor(invoked, c) == Cursor(s, c) + 1
                 && f.g.comp[c].parent.Some? && f.g.comp[c].parent.value in f.g.comp)
    ensures MovesDown(f, s, Successors(f.g, Report(f.g, HandleError(f.g, invoked, c), c), c, false))
  {
    var reported := Report(f.g, HandleError(f.g, invoked, c), c);
    assert reported.path == s.path && reported.cursors == invoked.cursors;
    forall id ensures Cursor(reported, id) == Cursor(invoked, id) && Cursor(invoked, id) >= -1 {}
    if HasError(invoked.mem, c) && GivesUp(f.g, c) {
      SuccessorsKeepCursors(f.g, reported, c, false);
    } else {
      ItemSuccessorIsLower(f, s, reported, c);
    }
  }

  lemma ItemMovesDown(f: Flow, w: World, s: State)
    requires OneToken(s) && CursorsOk(s) && Token(s) in f.g.comp
    requires IsItem(f.g.comp[Token(s)].kind)
    requires Tame(f, s.mem) && Progresses(f, s) && !Canceled(w, s.tick, 3)
    ensures MovesDown(f, s, Processed(f.g, w, s))
  {
    var c := Token(s);
    var invoked := Invoke(f.g, w, Entered(s), c);
    ItemAdvances(f, w, s);
    forall id ensures Cursor(invoked, id) >= -1 { assert Cursor(s, id) >= -1; }
    if TakesOtherBranch(f.g, invoked, c) {
      JumpMovesDown(f, s, invoked, c);
    } else {
      ReportedMovesDown(f, s, invoked, c);
    }
  }

  /** A token that is not canceled on its way moves down. */
  lemma TokenMovesDown(f: Flow, w: World, s: State)
    requires OneToken(s) && CursorsOk(s) && Token(s) in f.g.comp && Tame(f, s.mem) && Progresses(f, s)
    requires TokenReady(f.g, s) && !Canceled(w, s.tick, 3)
    requires Step(f.g, w, s).status.Running? && Tame(f, Step(f.g, w, s).mem)
    ensures MovesDown(f, s, Processed(f.g, w, s))
  {
    SingleStep(f.g, w, s);
    if IsItem(f.g.comp[Token(s)].kind) {
      ItemMovesDown(f, w, s);
    } else {
      NextIsTame(f, w, s, Processed(f.g, w, s));
      PlainMovesDown(f, w, s);
    }
  }

  /** One turn ends the run, or moves the token further down, or the next one finds the task canceled. */
  lemma StepIsLower(f: Flow, w: World, s: State, s': State)
    requires OneToken(s) && CursorsOk(s) && Progresses(f, s)
    requires s' == Step(f.g, w, s) && Tame(f, s.mem) && Tame(f, s'.mem)
    ensures s'.status.Running? ==>
              || (Canceled(w, s'.tick, 0) && s'.idx < |s'.path|)
              || (OneToken(s') && CursorsOk(s') && Token(s) in f.g.comp && Token(s') in f.g.comp
                  && Lower(f, s, Token(s), s', Token(s')))
  {
    if Token(s) !in f.g.comp || !TokenReady(f.g, s) || Canceled(w, s.tick, 0) {
      BlockedStep(f.g, w, s);
    } else if s'.status.Running? {
      if Canceled(w, s.tick, 3) {
        ClockRuns(f.g, w, s);
      } else {
        ReadyStepIsLower(f, w, s, s');
      }
    }
  }

  lemma ClockRuns(g: Graph, w: World, s: State)
    requires OneToken(s) && Token(s) in g.comp && TokenReady(g, s) && !Canceled(w, s.tick, 0)
    requires Step(g, w, s).status.Running?
    ensures var s' := Step(g, w, s); s'.tick > s.tick && s'.idx < |s'.path|
  {
    SingleStep(g, w, s);
    ProcessingTakesTime(g, w, s);
    SettleMemory(g, w, Processed(g, w, s), |s.path|);
  }

  lemma ProcessingTakesTime(g: Graph, w: World, s: State)
    requires OneToken(s) && Token(s) in g.comp
    ensures Processed(g, w, s).tick > s.tick
  {
    var invoked := Invoke(g, w, Entered(s), Token(s));
    assert invoked.tick == s.tick + 1 && Speak(g, w, invoked, Token(s)).tick >= invoked.tick;
  }

  lemma ReadyStepIsLower(f: Flow, w: World, s: State, s': State)
    requires OneToken(s) && CursorsOk(s) && Token(s) in f.g.comp && TokenReady(f.g, s) && !Canceled(w, s.tick, 3)
    requires s' == Step(f.g, w, s) && s'.status.Running? && Tame(f, s.mem) && Progresses(f, s) && Tame(f, s'.mem)
    ensures OneToken(s') && CursorsOk(s') && Token(s') in f.g.comp && Lower(f, s, Token(s), s', Token(s'))
  {
    SingleStep(f.g, w, s);
    TokenMovesDown(f, w, s);
    TurnMovesDown(f, w, s, Processed(f.g, w, s));
  }

  lemma TurnMovesDown(f: Flow, w: World, s: State, posted: State)
    requires OneToken(s) && Token(s) in f.g.comp && MovesDown(f, s, posted)
    requires s.path <= posted.path && posted.idx == s.idx
    requires posted.status.Running? || posted.status.Raised?
    ensures var s' := Settle(f.g, w, posted, |s.path|);
            s'.status.Running? ==>
              && OneToken(s') && CursorsOk(s') && Token(s') in f.g.comp && Lower(f, s, Token(s), s', Token(s'))
  {
    var s' := Settle(f.g, w, posted, |s.path|);
    if s'.status.Running? && !posted.error {
      SettleOne(f.g, w, posted, |s.path|);
      forall id ensures Cursor(s', id) >= -1 { assert Cursor(posted, id) >= -1; }
      LowerForSameCursors(f, s, Token(s), posted, s', Token(s'));
    }
  }

  /** The memory a switch leaves is the one seen at the next batch boundary. */
  lemma NextIsTame(f: Flow, w: World, s: State, posted: State)
    requires s.idx <= |s.path| && posted.idx <= |s.path| <= |posted.path|
    requires Step(f.g, w, s) == Settle(f.g, w, posted, |s.path|)
    requires Step(f.g, w, s).status.Running? && Tame(f, Step(f.g, w, s).mem)
    ensures Tame(f, posted.mem)
  {
    SettleMemory(f.g, w, posted, |s.path|);
  }

  lemma SettleMemory(g: Graph, w: World, r: State, to: nat)
    requires r.idx <= to <= |r.path| && Settle(g, w, r, to).status.Running?
    ensures var s' := Settle(g, w, r, to); s'.mem == r.mem && s'.tick == r.tick && s'.idx < |s'.path|
  {}

  /** No run of a tame, acyclic workflow turns more often than this. */
  function Horizon(t: Topology): nat { Pow(Base(t), 2 * t.height + 1) }

  ghost predicate TameAt(f: Flow, w: World, s: State, k: nat) {
    Tame(f, Steps(f.g, w, s, k).mem) && Progresses(f, Steps(f.g, w, s, k))
  }

  /** Tame at every batch boundary of the run from `s`. */
  ghost predicate AlwaysTame(f: Flow, w: World, s: State) { forall k: nat :: TameAt(f, w, s, k) }

  lemma TameNext(f: Flow, w: World, s: State)
    requires AlwaysTame(f, w, s)
    ensures Tame(f, s.mem) && Progresses(f, s) && AlwaysTame(f, w, Step(f.g, w, s))
  {
    assert TameAt(f, w, s, 0);
    forall k: nat ensures TameAt(f, w, Step(f.g, w, s), k) { assert TameAt(f, w, s, k + 1); }
  }

  /** The run from `s` may go on for a while. */
  ghost predicate Live(f: Flow, w: World, s: State) {
    OneToken(s) && CursorsOk(s) && AlwaysTame(f, w, s) && Token(s) in f.g.comp && !Canceled(w, s.tick, 0)
  }

  /** A live state is followed by as many more as its rank allows, and by one that finds the task canceled. */
  ghost function Measure(f: Flow, w: World, s: State): nat {
    if Live(f, w, s) then 1 + Value(Rank(f, s, Token(s)), 2 * f.t.height + 1, Base(f.t)) else 0
  }

  /** After a live state comes another one, or the last of the run. */
  ghost predicate LiveOrLast(f: Flow, w: World, s: State) { Live(f, w, s) || !Step(f.g, w, s).status.Running? }

  lemma LiveStep(f: Flow, w: World, s: State)
    requires LiveOrLast(f, w, s) && Step(f.g, w, s).status.Running?
    ensures LiveOrLast(f, w, Step(f.g, w, s)) && Measure(f, w, Step(f.g, w, s)) < Measure(f, w, s)
  {
    var s' := Step(f.g, w, s);
    TameNext(f, w, s);
    TameNext(f, w, s');
    StepIsLower(f, w, s, s');
    if Canceled(w, s'.tick, 0) && s'.idx < |s'.path| { CanceledIsLast(f.g, w, s'); }
  }

  lemma CanceledIsLast(g: Graph, w: World, s: State)
    requires Canceled(w, s.tick, 0) && s.status.Running? && s.idx < |s.path|
    ensures !Step(g, w, s).status.Running?
  {}

  function Iterate<T>(next: T -> T, s: T, n: nat): T
    decreases n
  {
    if n == 0 then s else Iterate(next, next(s), n - 1)
  }

  /** A measure that falls with every turn bounds the turns. */
  lemma {:induction false} Descent<T(!new)>(next: T -> T, on: T -> bool, live: T -> bool, measure: T -> nat, s: T,
                                     n: nat)
    requires forall x :: live(x) && on(next(x)) ==> live(next(x)) && measure(next(x)) < measure(x)
    requires forall x :: !on(x) ==> next(x) == x
    requires live(s) && on(Iterate(next, s, n))
    ensures n <= measure(s)
    decreases n
  {
    if n > 0 {
      if !on(next(s)) { Stays(next, on, next(s), n - 1); }
      Descent(next, on, live, measure, next(s), n - 1);
    }
  }

  lemma {:induction false} Stays<T(!new)>(next: T -> T, on: T -> bool, s: T, n: nat)
    requires forall x :: !on(x) ==> next(x) == x
    requires !on(s)
    ensures Iterate(next, s, n) == s
    decreases n
  {
    if n > 0 { Stays(next, on, next(s), n - 1); }
  }

  lemma {:induction false} StepsIterate(g: Graph, w: World, next: State -> State, s: State, n: nat)
    requires forall x :: next(x) == Step(g, w, x)
    ensures Steps(g, w, s, n) == Iterate(next, s, n)
    decreases n
  {
    if n > 0 { StepsIterate(g, w, next, next(s), n - 1); }
  }

  /** A run that is still going after `n` turns has come down by at least `n`. */
  lemma ComesDown(f: Flow, w: World, s: State, n: nat)
    requires LiveOrLast(f, w, s) && Steps(f.g, w, s, n).status.Running?
    ensures n <= Measure(f, w, s)
  {
    ghost var next := (x: State) => Step(f.g, w, x);
    ghost var live := (x: State) => LiveOrLast(f, w, x);
    ghost var on := (x: State) => x.status.Running?;
    ghost var measure := (x: State) => Measure(f, w, x);
    forall x | live(x) && on(next(x)) ensures live(next(x)) && measure(next(x)) < measure(x) {
      LiveStep(f, w, x);
    }
    StepsIterate(f.g, w, next, s, n);
    Descent(next, on, live, measure, s, n);
  }

  /** Every run halts, whatever its components do and wherever the cursors of the items stand, re-entered
      blocks, early exits from loops, errors, handlers, cancellation and suspension included. */
  lemma EveryRunHalts(f: Flow, w: World, s: State, globals: map<string, Value>)
    requires CursorsOk(s)
    requires AlwaysTame(f, w, StartRun(w, s, globals))
    ensures !Steps(f.g, w, StartRun(w, s, globals), Horizon(f.t) + 1).status.Running?
  {
    var start := StartRun(w, s, globals);
    if !start.status.Running? {
      StepsFixed(f.g, w, start, Horizon(f.t) + 1);
    } else if Token(start) !in f.g.comp {
      BlockedStep(f.g, w, start);
      StepsFixed(f.g, w, Step(f.g, w, start), Horizon(f.t));
    } else if Steps(f.g, w, start, Horizon(f.t) + 1).status.Running? {
      StartIsLive(f, w, s, globals);
      ComesDown(f, w, start, Horizon(f.t) + 1);
    }
  }

  /** So does a run of a canvas that has been through any runs, turns and resets before. */
  lemma EveryLaterRunHalts(f: Flow, s: State, acts: seq<Action>, w: World, globals: map<string, Value>)
    requires s.status.Idle? && s.cursors == map[]
    requires AlwaysTame(f, w, StartRun(w, Exec(f.g, s, acts), globals))
    ensures !Steps(f.g, w, StartRun(w, Exec(f.g, s, acts), globals), Horizon(f.t) + 1).status.Running?
  {
    ExecKeepsCursors(f.g, s, acts);
    EveryRunHalts(f, w, Exec(f.g, s, acts), globals);
  }

  lemma StartIsLive(f: Flow, w: World, s: State, globals: map<string, Value>)
    requires CursorsOk(s) && StartRun(w, s, globals).status.Running?
    requires AlwaysTame(f, w, StartRun(w, s, globals))
    requires Token(StartRun(w, s, globals)) in f.g.comp
    ensures LiveOrLast(f, w, StartRun(w, s, globals))
    ensures Measure(f, w, StartRun(w, s, globals)) <= Horizon(f.t)
  {
    var start := StartRun(w, s, globals);
    var c := Token(start);
    forall id ensures Cursor(start, id) >= -1 { assert Cursor(s, id) >= -1; }
    AroundShape(f, start, c);
    ValueBound(Rank(f, start, c), 2 * f.t.height + 1, Base(f.t));
    if Canceled(w, start.tick, 0) { CanceledIsLast(f.g, w, start); }
  }

  // ---------- the cursors of a canvas ----------

  lemma SameCursorsOk(s: State, s': State)
    requires CursorsOk(s) && s'.cursors == s.cursors
    ensures CursorsOk(s')
  {
    forall i ensures Cursor(s', i) >= -1 {
      assert Cursor(s, i) >= -1;
      assert Cursor(s', i) == Cursor(s, i);
    }
  }

  lemma {:induction false} InvokeAllKeepsCursors(g: Graph, w: World, s: State, ids: seq<Id>)
    requires Known(g, ids) && CursorsOk(s)
    ensures CursorsOk(InvokeAll(g, w, s, ids))
    decreases |ids|
  {
    if ids != [] {
      var next := Invoke(g, w, s, ids[0]);
      forall id ensures Cursor(next, id) >= -1 { assert Cursor(s, id) >= -1; }
      InvokeAllKeepsCursors(g, w, next, ids[1..]);
    }
  }

  lemma {:induction false} PostAllKeepsCursors(g: Graph, w: World, s: State, ids: seq<Id>)
    requires Known(g, ids) && CursorsOk(s)
    ensures CursorsOk(PostAll(g, w, s, ids))
    decreases |ids|
  {
    if ids != [] && !s.status.Raised? {
      PostOneKeepsCursors(g, w, s, ids[0]);
      PostAllKeepsCursors(g, w, PostOne(g, w, s, ids[0]), ids[1..]);
    }
  }

  lemma PostOneKeepsCursors(g: Graph, w: World, s: State, id: Id)
    requires id in g.comp && CursorsOk(s)
    ensures CursorsOk(PostOne(g, w, s, id))
  {
    var spoken := Speak(g, w, s, id);
    forall i ensures Cursor(spoken, i) >= -1 { assert Cursor(s, i) >= -1; }
    if !spoken.status.Raised? {
      var reported := Report(g, HandleError(g, spoken, id), id);
      assert reported.cursors == s.cursors;
      forall i ensures Cursor(reported, i) >= -1 { assert Cursor(s, i) >= -1; }
      SuccessorsKeepCursors(g, reported, id, TakesOtherBranch(g, spoken, id));
    }
  }

  lemma SettleKeepsCursors(g: Graph, w: World, s: State, to: nat)
    requires s.idx <= to <= |s.path| && CursorsOk(s)
    ensures CursorsOk(Settle(g, w, s, to))
  {
    var pending, next := s.path[to..], s.(idx := to);
    SameCursorsOk(s, next);
    if Settle(g, w, s, to).cursors == s.cursors {
      SameCursorsOk(s, Settle(g, w, s, to));
    } else {
      InvokeAllKeepsCursors(g, w, next, Forms(g, pending, true));
      SameCursorsOk(InvokeAll(g, w, next, Forms(g, pending, true)), Settle(g, w, s, to));
    }
  }

  lemma RunBatchKeepsCursors(g: Graph, w: World, s: State)
    requires s.idx <= |s.path| && Known(g, s.path[s.idx..]) && CursorsOk(s)
    ensures CursorsOk(RunBatch(g, w, s))
  {
    var batch, before := s.path[s.idx..], s.path[..s.idx];
    var kept := Kept(g, before, batch);
    var started := s.(events := s.events + Announce(batch), path := before + kept,
                      popped := s.popped + Dropped(g, before, batch), ran := s.ran + Span(s.idx, s.idx + |kept|));
    SameCursorsOk(s, started);
    InvokeAllKeepsCursors(g, w, started, kept);
    if Canceled(w, s.tick, 0) { SameCursorsOk(s, RunBatch(g, w, s)); }
  }

  lemma StepKeepsCursors(g: Graph, w: World, s: State)
    requires CursorsOk(s)
    ensures CursorsOk(Step(g, w, s))
  {
    if s.status.Running? && s.idx < |s.path| && Known(g, s.path[s.idx..]) {
      RunBatchKeepsCursors(g, w, s);
      if !Canceled(w, s.tick, 0) { PostedKeepsCursors(g, w, s); }
    } else {
      SameCursorsOk(s, Step(g, w, s));
    }
  }

  lemma PostedKeepsCursors(g: Graph, w: World, s: State)
    requires s.status.Running? && s.idx < |s.path| && Known(g, s.path[s.idx..]) && !Canceled(w, s.tick, 0)
    requires CursorsOk(RunBatch(g, w, s))
    ensures CursorsOk(Step(g, w, s))
  {
    BatchShape(g, w, s);
    var invoked := RunBatch(g, w, s);
    PostAllKeepsCursors(g, w, invoked, invoked.path[s.idx..]);
    SettleKeepsCursors(g, w, PostAll(g, w, invoked, invoked.path[s.idx..]), |invoked.path|);
  }

  /** Whatever happens to a canvas, no cursor falls below -1. */
  lemma {:induction false} ExecKeepsCursors(g: Graph, s: State, acts: seq<Action>)
    requires CursorsOk(s)
    ensures CursorsOk(Exec(g, s, acts))
    decreases |acts|
  {
    if acts != [] {
      var next := Act(g, s, acts[0]);
      if acts[0].Turn? { StepKeepsCursors(g, acts[0].w, s); } else { SameCursorsOk(s, next); }
      ExecKeepsCursors(g, next, acts[1..]);
    }
  }
}
