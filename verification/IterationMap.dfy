/** An iteration maps its body over an array. */
module IterationMap {
  import opened Wrappers
  import opened WorkflowGraph
  import opened Components
  import opened CollationEffect
  import opened Scheduler
  import opened SingleToken
  import opened BodyChain

  // ---------- the reference semantics: a loop over the array ----------

  function Collects(g: Graph, site: Site): seq<Collect> {
    if site.block in g.comp && g.comp[site.block].kind.Iteration? then g.comp[site.block].kind.collects else []
  }

  /** The outputs collected so far, when the item is visited with cursor `k`. */
  function Gathered(g: Graph, site: Site, mem: Memory, k: int): Collation {
    if k > 0 then CollateAll(g, mem, site.block, Collects(g, site), g.order) else Collation(mem, false)
  }

  function Element(arr: seq<Value>, k: int): Value {
    var v := PyIndex(arr, k);
    if v.Ok? then v.value else Null
  }

  /** Element `k` has been handed out. */
  function Hand(g: Graph, site: Site, arr: seq<Value>, m: Moment, k: int): Moment {
    Moment(Present(Gathered(g, site, m.mem, k).mem, site.item, Element(arr, k), k), m.tick + 1)
  }

  /** The moment of the item's visit number `j`, when its cursor stood at `k0` for visit number 0: `j`
      passes are over, on the elements k0, k0 + 1, ... in this order. */
  function Visit(g: Graph, w: World, site: Site, arr: seq<Value>, m: Moment, k0: int, j: nat): Moment
    requires Known(g, site.body)
  {
    if j == 0 then m
    else RunChain(g, w, Hand(g, site, arr, Visit(g, w, site, arr, m, k0, j - 1), k0 + j - 1), site.body)
  }

  /** At visit `j` the array is still `arr`, and the item has not failed. */
  ghost predicate VisitCalm(g: Graph, w: World, site: Site, arr: seq<Value>, m: Moment, k0: int, j: nat)
    requires Known(g, site.body) && site.block in g.comp && g.comp[site.block].kind.Iteration?
  {
    var v := Visit(g, w, site, arr, m, k0, j);
    Lookup(g, v.mem, g.comp[site.block].kind.itemsRef) == Ok(List(arr)) && !HasError(v.mem, site.item)
  }

  /** ... and what is to be collected can be. */
  ghost predicate VisitOk(g: Graph, w: World, site: Site, arr: seq<Value>, m: Moment, k0: int, j: nat)
    requires Known(g, site.body) && site.block in g.comp && g.comp[site.block].kind.Iteration?
  {
    && VisitCalm(g, w, site, arr, m, k0, j)
    && AllCollectable(Visit(g, w, site, arr, m, k0, j).mem, site.block, Collects(g, site))
  }

  /** Pass `j` over the body runs without errors. */
  ghost predicate PassOk(g: Graph, w: World, site: Site, arr: seq<Value>, m: Moment, k0: int, j: nat)
    requires Known(g, site.body)
  {
    CleanChain(g, w, Hand(g, site, arr, Visit(g, w, site, arr, m, k0, j), k0 + j), site.body)
  }

  /** The first `n` visits and passes. */
  ghost predicate Undisturbed(g: Graph, w: World, site: Site, arr: seq<Value>, m: Moment, k0: int, n: nat)
    requires Known(g, site.body) && site.block in g.comp && g.comp[site.block].kind.Iteration?
  {
    forall j :: 0 <= j < n ==> VisitOk(g, w, site, arr, m, k0, j) && PassOk(g, w, site, arr, m, k0, j)
  }

  /** All visits and passes from the cursor `k0` on. */
  ghost predicate AllOk(g: Graph, w: World, site: Site, arr: seq<Value>, m: Moment, k0: int)
    requires -1 <= k0 && Known(g, site.body) && site.block in g.comp && g.comp[site.block].kind.Iteration?
  {
    Undisturbed(g, w, site, arr, m, k0, PassesFrom(arr, k0)) && VisitOk(g, w, site, arr, m, k0, PassesFrom(arr, k0))
  }

  /** An iteration over a chain, entered along a path that holds what it refers to. */
  ghost predicate IsIteration(g: Graph, w: World, site: Site, entry: seq<Id>) {
    && WellFormed(g) && IsChain(g, site) && g.comp[site.block].kind.Iteration?
    && entry != [] && Resolved(g, site, entry) && Known(g, site.body) && w.cancelAt.None?
    && !HasParent(g, site.block, site.block)
  }

  /** An item that has ended takes the last element of its array first; there is none in an empty one. */
  predicate Fails(arr: seq<Value>, k0: int) { arr == [] && k0 == -1 }

  /** How many passes an item begins when its cursor is `k0`. */
  function PassesFrom(arr: seq<Value>, k0: int): nat
    requires -1 <= k0
  {
    if Fails(arr, k0) || k0 >= |arr| then 0 else |arr| - k0
  }

  /** What is left of the array then; before the first element the last one is repeated. */
  function Remaining(arr: seq<Value>, k0: int): seq<Value>
    requires -1 <= k0
  {
    if k0 >= |arr| then [] else if k0 >= 0 then arr[k0..] else if arr == [] then [] else [arr[|arr| - 1]] + arr
  }

  /** The elements handed out by `n` visits. */
  function Elements(arr: seq<Value>, k0: int, n: nat): (vs: seq<Value>)
    ensures |vs| == n
  {
    seq(n, j requires 0 <= j < n => Element(arr, k0 + j))
  }

  lemma ElementsRemain(arr: seq<Value>, k0: int)
    requires -1 <= k0
    ensures Elements(arr, k0, PassesFrom(arr, k0)) == Remaining(arr, k0)
  {
    var es, n := Elements(arr, k0, PassesFrom(arr, k0)), |arr|;
    if k0 == -1 && n > 0 {
      forall j | 0 <= j < n + 1 ensures es[j] == ([arr[n - 1]] + arr)[j] { assert es[j] == Element(arr, j - 1); }
    } else if 0 <= k0 < n {
      forall j | 0 <= j < n - k0 ensures es[j] == arr[k0..][j] { assert es[j] == Element(arr, k0 + j); }
    }
  }

  // ---------- the scheduler agrees ----------

  lemma GatheredIsFine(g: Graph, w: World, site: Site, entry: seq<Id>, mem: Memory, k: int)
    requires IsIteration(g, w, site, entry) && AllCollectable(mem, site.block, Collects(g, site))
    ensures var c := Gathered(g, site, mem, k);
            && !c.raised && OnlyOutputsOf(mem, c.mem, site.block) && KeepsErrors(mem, c.mem, site.block)
  {
    if k > 0 { CollateAllEffect(g, mem, site.block, Collects(g, site), g.order); }
  }

  /** The invocation of the item, when there is an element left. */
  lemma ItemHands(g: Graph, w: World, site: Site, entry: seq<Id>, arr: seq<Value>, m: Moment, k: int)
    requires IsIteration(g, w, site, entry) && AllCollectable(m.mem, site.block, Collects(g, site))
    requires Lookup(g, m.mem, g.comp[site.block].kind.itemsRef) == Ok(List(arr)) && !HasError(m.mem, site.item)
    requires -1 <= k < |arr| && arr != []
    ensures InvokeIterationItem(g, w, m.tick, m.mem, k, site.item)
            == ItemStep(Hand(g, site, arr, m, k).mem, k + 1)
    ensures !HasError(Hand(g, site, arr, m, k).mem, site.item)
  {
    GatheredIsFine(g, w, site, entry, m.mem, k);
  }

  /** The invocation of the item, when the array is exhausted. */
  lemma ItemStops(g: Graph, w: World, site: Site, entry: seq<Id>, arr: seq<Value>, m: Moment, k: int)
    requires IsIteration(g, w, site, entry) && AllCollectable(m.mem, site.block, Collects(g, site))
    requires Lookup(g, m.mem, g.comp[site.block].kind.itemsRef) == Ok(List(arr)) && !HasError(m.mem, site.item)
    requires k >= |arr|
    ensures InvokeIterationItem(g, w, m.tick, m.mem, k, site.item) == ItemStep(Gathered(g, site, m.mem, k).mem, -1)
    ensures !HasError(Gathered(g, site, m.mem, k).mem, site.item)
  {
    GatheredIsFine(g, w, site, entry, m.mem, k);
  }

  /** A visit that hands out an element sends the token into the body. */
  lemma VisitBegins(g: Graph, w: World, site: Site, entry: seq<Id>, arr: seq<Value>, s: State, m: Moment, k: int)
    requires IsIteration(g, w, site, entry) && AllCollectable(m.mem, site.block, Collects(g, site))
    requires Lookup(g, m.mem, g.comp[site.block].kind.itemsRef) == Ok(List(arr)) && !HasError(m.mem, site.item)
    requires -1 <= k < |arr| && arr != []
    requires AtItem(s, site, m, k) && entry <= s.path[..s.idx]
    ensures var s' := Step(g, w, s);
            && At(s', Hand(g, site, arr, m, k)) && s'.path == s.path + [site.body[0]]
            && s'.cursors == s.cursors[site.item := k + 1]
  {
    ItemReady(g, site, entry, s);
    SingleStep(g, w, s);
    ItemHands(g, w, site, entry, arr, m, k);
    assert IsLink(g, site, 0);
    ItemPosts(g, w, site, s, Hand(g, site, arr, m, k), k + 1);
    SettleOnOne(g, w, Processed(g, w, s), |s.path|);
  }

  /** Post-processing an item that goes on. */
  lemma ItemPosts(g: Graph, w: World, site: Site, s: State, m: Moment, k: int)
    requires IsChain(g, site) && OneToken(s) && !s.error && Token(s) == site.item && k != -1
    requires g.comp[site.item].kind.IterationItem?
    requires InvokeIterationItem(g, w, s.tick, s.mem, Cursor(s, site.item), site.item) == ItemStep(m.mem, k)
    requires !HasError(m.mem, site.item) && m.tick == s.tick + 1
    ensures var s' := Processed(g, w, s);
            && s' == s.(mem := m.mem, tick := m.tick, cursors := s.cursors[site.item := k], events := s'.events,
                        partials := s'.partials, ran := s'.ran, path := s.path + [site.body[0]])
  {
    assert s.path[|s.path| - 1] == site.item && site.body[0] in site.body;
    ExtendByOne(s.path, site.body[0]);
  }

  /** Post-processing an item that has ended: on to what follows the block. */
  lemma ItemLeaves(g: Graph, w: World, site: Site, s: State, m: Moment)
    requires IsChain(g, site) && OneToken(s) && !s.error && Token(s) == site.item
    requires g.comp[site.item].kind.IterationItem?
    requires InvokeIterationItem(g, w, s.tick, s.mem, Cursor(s, site.item), site.item) == ItemStep(m.mem, -1)
    requires !HasError(m.mem, site.item) && m.tick == s.tick + 1
    ensures var s' := Processed(g, w, s);
            && s' == s.(mem := m.mem, tick := m.tick, cursors := s.cursors[site.item := -1], events := s'.events,
                        partials := s'.partials, ran := s'.ran,
                        path := ExtendPath(s.path, g.comp[site.block].downstream))
  {
    assert s.cursors[site.item := -1][site.item := -1] == s.cursors[site.item := -1];
  }

  /** From one visit of the item to the next: one pass over the body. */
  lemma OnePass(g: Graph, w: World, site: Site, entry: seq<Id>, arr: seq<Value>, s: State, m: Moment, k: int)
    requires IsIteration(g, w, site, entry) && AllCollectable(m.mem, site.block, Collects(g, site))
    requires Lookup(g, m.mem, g.comp[site.block].kind.itemsRef) == Ok(List(arr)) && !HasError(m.mem, site.item)
    requires -1 <= k < |arr| && arr != []
    requires AtItem(s, site, m, k) && entry <= s.path[..s.idx]
    requires CleanChain(g, w, Hand(g, site, arr, m, k), site.body)
    ensures var s' := Steps(g, w, s, 1 + |site.body|);
            && AtItem(s', site, RunChain(g, w, Hand(g, site, arr, m, k), site.body), k + 1)
            && s'.path == s.path + site.body + [site.item]
            && s'.cursors == s.cursors[site.item := k + 1]
  {
    var m1 := Hand(g, site, arr, m, k);
    VisitBegins(g, w, site, entry, arr, s, m, k);
    StepsOnce(g, w, s, 1 + |site.body|);
    IntoBody(site, entry, s, Step(g, w, s), m1);
    BodyPass(g, w, site, entry, s.path[..s.idx], Step(g, w, s), m1);
    LeaveBody(site, s);
  }

  /** One more undisturbed pass, after `n` of them. */
  lemma NextVisit(g: Graph, w: World, site: Site, entry: seq<Id>, arr: seq<Value>, base: seq<Id>, s: State, m: Moment,
                  k0: int, n: nat)
    requires IsIteration(g, w, site, entry) && -1 <= k0 && k0 + n < |arr| && arr != []
    requires AtItem(s, site, Visit(g, w, site, arr, m, k0, n), k0 + n)
    requires s.path == base + Rounds(site, n) && base != [] && entry <= base[..|base| - 1]
    requires VisitOk(g, w, site, arr, m, k0, n) && PassOk(g, w, site, arr, m, k0, n)
    ensures var s' := Steps(g, w, s, 1 + |site.body|);
            && AtItem(s', site, Visit(g, w, site, arr, m, k0, n + 1), k0 + n + 1)
            && s'.path == base + Rounds(site, n + 1)
  {
    LongerPath(base, Rounds(site, n), entry);
    OnePass(g, w, site, entry, arr, s, Visit(g, w, site, arr, m, k0, n), k0 + n);
    MoreRounds(site, base, n);
  }

  /** The token has come back to the item after `j` passes. */
  ghost predicate Back(g: Graph, w: World, site: Site, arr: seq<Value>, base: seq<Id>, m: Moment, k0: int, j: nat,
                       s: State)
    requires Known(g, site.body)
  {
    AtItem(s, site, Visit(g, w, site, arr, m, k0, j), k0 + j) && s.path == base + Rounds(site, j)
  }

  lemma BackOnce(g: Graph, w: World, site: Site, entry: seq<Id>, arr: seq<Value>, base: seq<Id>, m: Moment, k0: int,
                 n: nat, j: nat, s: State)
    returns (s': State)
    requires IsIteration(g, w, site, entry) && -1 <= k0 && k0 + n <= |arr| && arr != [] && j < n
    requires base != [] && entry <= base[..|base| - 1] && Undisturbed(g, w, site, arr, m, k0, n)
    requires Back(g, w, site, arr, base, m, k0, j, s)
    ensures s' == Steps(g, w, s, 1 + |site.body|)
    ensures Back(g, w, site, arr, base, m, k0, j + 1, s')
  {
    NextVisit(g, w, site, entry, arr, base, s, m, k0, j);
    s' := Steps(g, w, s, 1 + |site.body|);
  }

  /** `n` undisturbed passes: the body has run on the elements k0 .. k0 + n in order, once each. */
  lemma Passes(g: Graph, w: World, site: Site, entry: seq<Id>, arr: seq<Value>, s: State, m: Moment, k0: int, n: nat,
               count: nat)
    returns (s': State)
    requires IsIteration(g, w, site, entry) && -1 <= k0 && k0 + n <= |arr| && arr != [] && count <= n
    requires Back(g, w, site, arr, s.path, m, k0, 0, s) && entry <= s.path[..|s.path| - 1]
    requires Undisturbed(g, w, site, arr, m, k0, n)
    ensures s' == Steps(g, w, s, Turns(site, count))
    ensures Back(g, w, site, arr, s.path, m, k0, count, s')
  {
    s' := s;
    for j := 0 to count
      invariant s' == Steps(g, w, s, Turns(site, j))
      invariant Back(g, w, site, arr, s.path, m, k0, j, s')
    {
      var before := s';
      s' := BackOnce(g, w, site, entry, arr, s.path, m, k0, n, j, before);
      TurnsGoOn(g, w, site, s, j, before, s');
    }
  }

  // ---------- the whole iteration ----------

  /** Entering the block: on to its item, with nothing changed. */
  lemma EntersBlock(g: Graph, w: World, site: Site, s: State, arr: seq<Value>)
    requires OneToken(s) && !s.error && Token(s) == site.block && IsIteration(g, w, site, s.path)
    requires TokenReady(g, s) && !HasError(s.mem, site.block)
    requires Lookup(g, s.mem, g.comp[site.block].kind.itemsRef) == Ok(List(arr))
    ensures var s' := Step(g, w, s);
            && At(s', Moment(s.mem, s.tick + 1)) && s'.path == s.path + [site.item] && s'.cursors == s.cursors
  {
    SingleStep(g, w, s);
    BlockPosts(g, w, site, s, arr);
    SettleOnOne(g, w, Processed(g, w, s), |s.path|);
  }

  /** Post-processing the block. */
  lemma BlockPosts(g: Graph, w: World, site: Site, s: State, arr: seq<Value>)
    requires OneToken(s) && !s.error && Token(s) == site.block && IsChain(g, site) && g.comp[site.block].kind.Iteration?
    requires w.cancelAt.None? && !HasError(s.mem, site.block)
    requires Lookup(g, s.mem, g.comp[site.block].kind.itemsRef) == Ok(List(arr))
    ensures var s' := Processed(g, w, s);
            s' == s.(tick := s.tick + 1, events := s'.events, partials := s'.partials, ran := s'.ran,
                     path := s.path + [site.item])
  {
    assert s.path[|s.path| - 1] == site.block;
    ExtendByOne(s.path, site.item);
  }

  /** The visit that finds the array exhausted leaves the block. */
  lemma LastVisit(g: Graph, w: World, site: Site, entry: seq<Id>, arr: seq<Value>, s: State, m: Moment, k: int)
    requires IsIteration(g, w, site, entry) && AllCollectable(m.mem, site.block, Collects(g, site))
    requires Lookup(g, m.mem, g.comp[site.block].kind.itemsRef) == Ok(List(arr)) && !HasError(m.mem, site.item)
    requires k >= |arr| && AtItem(s, site, m, k) && entry <= s.path[..s.idx]
    ensures Left(g, w, site, s, Gathered(g, site, m.mem, k).mem)
  {
    ItemReady(g, site, entry, s);
    SingleStep(g, w, s);
    ItemStops(g, w, site, entry, arr, m, k);
    ItemLeaves(g, w, site, s, Moment(Gathered(g, site, m.mem, k).mem, m.tick + 1));
  }

  /** `last` is the state in which the item ends, `n` passes after the first visit of it in `first`. */
  ghost predicate Iterated(g: Graph, w: World, site: Site, arr: seq<Value>, first: State, last: State, m: Moment,
                           k0: int, n: nat)
    requires Known(g, site.body)
  {
    last.path == first.path + Rounds(site, n) && Left(g, w, site, last, LastMemory(g, w, site, arr, m, k0, n))
  }

  /** The memory after visit number `n`, when it is the last. */
  function LastMemory(g: Graph, w: World, site: Site, arr: seq<Value>, m: Moment, k0: int, n: nat): Memory
    requires Known(g, site.body)
  {
    Gathered(g, site, Visit(g, w, site, arr, m, k0, n).mem, k0 + n).mem
  }

  lemma IteratesFromItem(g: Graph, w: World, site: Site, entry: seq<Id>, arr: seq<Value>, s: State, m: Moment, k0: int)
    returns (last: State)
    requires IsIteration(g, w, site, entry) && -1 <= k0 && !Fails(arr, k0)
    requires AtItem(s, site, m, k0) && s.path == entry + [site.item]
    requires AllOk(g, w, site, arr, m, k0)
    ensures last == Steps(g, w, s, Turns(site, PassesFrom(arr, k0)))
    ensures Iterated(g, w, site, arr, s, last, m, k0, PassesFrom(arr, k0))
  {
    var n := PassesFrom(arr, k0);
    assert s.path[..|s.path| - 1] == entry;
    last := VisitReached(g, w, site, entry, arr, s, m, k0, n, n);
    LongerPath(s.path, Rounds(site, n), entry);
    IteratesAtLast(g, w, site, entry, arr, s.path, last, m, k0, n);
  }

  /** The state of visit number `j`. */
  lemma VisitReached(g: Graph, w: World, site: Site, entry: seq<Id>, arr: seq<Value>, s: State, m: Moment, k0: int,
                     n: nat, j: nat)
    returns (s': State)
    requires IsIteration(g, w, site, entry) && -1 <= k0 && !Fails(arr, k0) && j <= n <= PassesFrom(arr, k0)
    requires AtItem(s, site, m, k0) && s.path == entry + [site.item] && Undisturbed(g, w, site, arr, m, k0, n)
    ensures s' == Steps(g, w, s, Turns(site, j)) && Back(g, w, site, arr, s.path, m, k0, j, s')
  {
    s' := s;
    assert s.path + Rounds(site, 0) == s.path && s.path[..|s.path| - 1] == entry;
    if j > 0 { s' := Passes(g, w, site, entry, arr, s, m, k0, n, j); }
  }

  lemma IteratesAtLast(g: Graph, w: World, site: Site, entry: seq<Id>, arr: seq<Value>, base: seq<Id>, s: State,
                       m: Moment, k0: int, n: nat)
    requires IsIteration(g, w, site, entry) && k0 + n >= |arr| && VisitOk(g, w, site, arr, m, k0, n)
    requires Back(g, w, site, arr, base, m, k0, n, s) && entry <= s.path[..|s.path| - 1]
    ensures s.path == base + Rounds(site, n)
    ensures Left(g, w, site, s, Gathered(g, site, Visit(g, w, site, arr, m, k0, n).mem, k0 + n).mem)
  {
    LastVisit(g, w, site, entry, arr, s, Visit(g, w, site, arr, m, k0, n), k0 + n);
  }

  /** The token stands at a block that iterates over `arr`, the cursor of its item being `k0`. */
  ghost predicate AtIteration(g: Graph, w: World, site: Site, s: State, arr: seq<Value>, k0: int) {
    && OneToken(s) && !s.error && Token(s) == site.block && IsIteration(g, w, site, s.path)
    && TokenReady(g, s) && !HasError(s.mem, site.block)
    && Lookup(g, s.mem, g.comp[site.block].kind.itemsRef) == Ok(List(arr))
    && Cursor(s, site.item) == k0
  }

  /** `visits` are the states of a run in which the item is visited, from `first` on; `next` are those after each
      of these visits but the last. */
  ghost predicate Traces(g: Graph, w: World, site: Site, first: State, visits: seq<State>, next: seq<State>)
    decreases |next|
  {
    var n := |next|;
    && |visits| == n + 1 && visits[n] == Steps(g, w, first, Turns(site, n))
    && (n > 0 ==> next[n - 1] == Step(g, w, visits[n - 1])
                  && Traces(g, w, site, first, visits[..n], next[..n - 1]))
  }

  /** The elements handed out. */
  function HandedOut(site: Site, next: seq<State>): seq<Value> {
    if next == [] then []
    else HandedOut(site, next[..|next| - 1]) + [GetOut(next[|next| - 1].mem, site.item, "item")]
  }

  /** How many of the visits collect outputs. */
  function Collations(site: Site, visits: seq<State>): nat {
    if visits == [] then 0
    else Collations(site, visits[..|visits| - 1]) + (if Cursor(visits[|visits| - 1], site.item) > 0 then 1 else 0)
  }

  /** How many of `n` visits find their cursor above zero. */
  function Above(k0: int, n: nat): nat {
    if n == 0 then 0 else Above(k0, n - 1) + (if k0 + n - 1 > 0 then 1 else 0)
  }

  lemma {:induction false} AboveFormula(k0: int, n: nat)
    requires -1 <= k0
    ensures Above(k0, n) == if k0 > 0 then n else if n + k0 > 0 then n + k0 - 1 else 0
    decreases n
  {
    if n > 0 { AboveFormula(k0, n - 1); }
  }

  lemma TraceSnoc(g: Graph, w: World, site: Site, first: State, visits: seq<State>, next: seq<State>, after: State,
                  visit: State)
    requires Traces(g, w, site, first, visits, next) && visit == Steps(g, w, first, Turns(site, |visits|))
    requires after == Step(g, w, visits[|next|])
    ensures Traces(g, w, site, first, visits + [visit], next + [after])
  {
    assert (visits + [visit])[..|visits|] == visits && (next + [after])[..|next|] == next;
  }

  lemma RecordsSnoc(site: Site, visits: seq<State>, next: seq<State>, after: State, visit: State)
    ensures HandedOut(site, next + [after]) == HandedOut(site, next) + [GetOut(after.mem, site.item, "item")]
    ensures Collations(site, visits + [visit])
            == Collations(site, visits) + (if Cursor(visit, site.item) > 0 then 1 else 0)
  {
    assert (next + [after])[..|next|] == next && (visits + [visit])[..|visits|] == visits;
  }

  /** The trace up to visit number `n`, and what it hands out and collects. */
  ghost predicate Traced(g: Graph, w: World, site: Site, s: State, arr: seq<Value>, k0: int, n: nat,
                         visits: seq<State>, next: seq<State>)
  {
    && Traces(g, w, site, s, visits, next) && |next| == n && visits[0] == s
    && HandedOut(site, next) == Elements(arr, k0, n) && Collations(site, visits) == Above(k0, n + 1)
  }

  lemma TracedOnce(g: Graph, w: World, site: Site, s: State, arr: seq<Value>, k0: int, n: nat, visits: seq<State>,
                   next: seq<State>, after: State, visit: State)
    requires Traced(g, w, site, s, arr, k0, n, visits, next)
    requires after == Step(g, w, visits[n]) && GetOut(after.mem, site.item, "item") == Element(arr, k0 + n)
    requires visit == Steps(g, w, s, Turns(site, n + 1)) && Cursor(visit, site.item) == k0 + n + 1
    ensures Traced(g, w, site, s, arr, k0, n + 1, visits + [visit], next + [after])
  {
    TraceSnoc(g, w, site, s, visits, next, after, visit);
    RecordsSnoc(site, visits, next, after, visit);
    ElementsSnoc(arr, k0, n);
  }

  lemma RunTraced(g: Graph, w: World, site: Site, entry: seq<Id>, arr: seq<Value>, s: State, m: Moment, k0: int, n: nat)
    returns (visits: seq<State>, next: seq<State>)
    requires IsIteration(g, w, site, entry) && -1 <= k0 && !Fails(arr, k0) && n <= PassesFrom(arr, k0)
    requires AtItem(s, site, m, k0) && s.path == entry + [site.item] && Undisturbed(g, w, site, arr, m, k0, n)
    ensures Traced(g, w, site, s, arr, k0, n, visits, next)
  {
    visits, next := [s], [];
    FirstTraced(site, s, arr, k0);
    for j := 0 to n
      invariant Traced(g, w, site, s, arr, k0, j, visits, next)
    {
      var after := HandedAt(g, w, site, entry, arr, s, m, k0, n, j, visits[j]);
      var visit := CursorAt(g, w, site, entry, arr, s, m, k0, n, j + 1);
      TracedOnce(g, w, site, s, arr, k0, j, visits, next, after, visit);
      visits, next := visits + [visit], next + [after];
    }
  }

  lemma FirstTraced(site: Site, s: State, arr: seq<Value>, k0: int)
    ensures HandedOut(site, []) == Elements(arr, k0, 0)
    ensures Collations(site, [s]) == if Cursor(s, site.item) > 0 then 1 else 0
  {
    assert [s][..0] == [];
  }

  lemma ElementsSnoc(arr: seq<Value>, k0: int, n: nat)
    ensures Elements(arr, k0, n + 1) == Elements(arr, k0, n) + [Element(arr, k0 + n)]
  {}

  /** Visit `j` hands out its element. */
  lemma HandedAt(g: Graph, w: World, site: Site, entry: seq<Id>, arr: seq<Value>, s: State, m: Moment, k0: int, n: nat,
                 j: nat, now: State)
    returns (after: State)
    requires IsIteration(g, w, site, entry) && -1 <= k0 && !Fails(arr, k0) && j < n <= PassesFrom(arr, k0)
    requires AtItem(s, site, m, k0) && s.path == entry + [site.item] && Undisturbed(g, w, site, arr, m, k0, n)
    requires now == Steps(g, w, s, Turns(site, j))
    ensures after == Step(g, w, now)
    ensures GetOut(after.mem, site.item, "item") == Element(arr, k0 + j)
  {
    var here := VisitReached(g, w, site, entry, arr, s, m, k0, n, j);
    assert VisitOk(g, w, site, arr, m, k0, j);
    after := VisitHands(g, w, site, entry, arr, s.path, here, m, k0, j);
  }

  /** Visit `j` finds the cursor there. */
  lemma CursorAt(g: Graph, w: World, site: Site, entry: seq<Id>, arr: seq<Value>, s: State, m: Moment, k0: int, n: nat,
                 j: nat)
    returns (visit: State)
    requires IsIteration(g, w, site, entry) && -1 <= k0 && !Fails(arr, k0) && j <= n <= PassesFrom(arr, k0)
    requires AtItem(s, site, m, k0) && s.path == entry + [site.item] && Undisturbed(g, w, site, arr, m, k0, n)
    ensures visit == Steps(g, w, s, Turns(site, j)) && Cursor(visit, site.item) == k0 + j
  {
    visit := VisitReached(g, w, site, entry, arr, s, m, k0, n, j);
  }

  lemma VisitHands(g: Graph, w: World, site: Site, entry: seq<Id>, arr: seq<Value>, base: seq<Id>, s: State, m: Moment,
                   k0: int, j: nat)
    returns (after: State)
    requires IsIteration(g, w, site, entry) && -1 <= k0 && k0 + j < |arr| && !Fails(arr, k0)
    requires VisitOk(g, w, site, arr, m, k0, j)
    requires base == entry + [site.item] && Back(g, w, site, arr, base, m, k0, j, s)
    ensures after == Step(g, w, s) && GetOut(after.mem, site.item, "item") == Element(arr, k0 + j)
  {
    BackFromEntry(g, w, site, entry, arr, base, s, m, k0, j);
    var v := VisitParts(g, w, site, arr, m, k0, j);
    after := VisitGives(g, w, site, entry, arr, s, v, k0 + j);
  }

  lemma BackFromEntry(g: Graph, w: World, site: Site, entry: seq<Id>, arr: seq<Value>, base: seq<Id>, s: State,
                      m: Moment, k0: int, j: nat)
    requires Known(g, site.body)
    requires base == entry + [site.item] && Back(g, w, site, arr, base, m, k0, j, s)
    ensures AtItem(s, site, Visit(g, w, site, arr, m, k0, j), k0 + j) && entry <= s.path[..s.idx]
  {
    assert base[..|base| - 1] == entry;
    LongerPath(base, Rounds(site, j), entry);
  }

  lemma VisitParts(g: Graph, w: World, site: Site, arr: seq<Value>, m: Moment, k0: int, j: nat) returns (v: Moment)
    requires Known(g, site.body) && site.block in g.comp && g.comp[site.block].kind.Iteration?
    requires VisitOk(g, w, site, arr, m, k0, j)
    ensures v == Visit(g, w, site, arr, m, k0, j) && AllCollectable(v.mem, site.block, Collects(g, site))
    ensures Lookup(g, v.mem, g.comp[site.block].kind.itemsRef) == Ok(List(arr)) && !HasError(v.mem, site.item)
  {
    v := Visit(g, w, site, arr, m, k0, j);
  }

  lemma VisitGives(g: Graph, w: World, site: Site, entry: seq<Id>, arr: seq<Value>, s: State, m: Moment, k: int)
    returns (after: State)
    requires IsIteration(g, w, site, entry) && AllCollectable(m.mem, site.block, Collects(g, site))
    requires Lookup(g, m.mem, g.comp[site.block].kind.itemsRef) == Ok(List(arr)) && !HasError(m.mem, site.item)
    requires -1 <= k < |arr| && arr != []
    requires AtItem(s, site, m, k) && entry <= s.path[..s.idx]
    ensures after == Step(g, w, s) && GetOut(after.mem, site.item, "item") == Element(arr, k)
  {
    VisitBegins(g, w, site, entry, arr, s, m, k);
    PassSeesElement(g, site, arr, m, k);
    after := Step(g, w, s);
  }

  /** An item that has ended raises on an empty array, and the run ends with an error. */
  lemma RunFails(g: Graph, w: World, site: Site, entry: seq<Id>, arr: seq<Value>, s: State, m: Moment, k0: int)
    requires IsIteration(g, w, site, entry) && Fails(arr, k0) && GivesUp(g, site.item)
    requires AtItem(s, site, m, k0) && entry <= s.path[..s.idx]
    requires Lookup(g, m.mem, g.comp[site.block].kind.itemsRef) == Ok(List(arr))
    ensures Token(s) in g.comp && Processed(g, w, s).error
    ensures Step(g, w, s).status.Finished? && Step(g, w, s).error
    ensures HasError(Step(g, w, s).mem, site.item)
  {
    ItemReady(g, site, entry, s);
    SingleStep(g, w, s);
    assert InvokeIterationItem(g, w, s.tick, s.mem, k0, site.item) == ItemStep(Fail(g, s.mem, site.item), -1);
    ItemFails(g, w, site, s);
  }

  lemma ItemFails(g: Graph, w: World, site: Site, s: State)
    requires IsChain(g, site) && OneToken(s) && !s.error && Token(s) == site.item && GivesUp(g, site.item)
    requires g.comp[site.item].kind.IterationItem?
    requires InvokeIterationItem(g, w, s.tick, s.mem, Cursor(s, site.item), site.item)
             == ItemStep(Fail(g, s.mem, site.item), -1)
    ensures var s' := Processed(g, w, s);
            s'.error && s'.status.Running? && s'.idx == s.idx <= |s'.path| && HasError(s'.mem, site.item)
  {}

  /** The block is entered, and `visits` are the visits of its item. */
  ghost predicate Runs(g: Graph, w: World, site: Site, s: State, visits: seq<State>, next: seq<State>) {
    && visits != [] && visits[0] == Step(g, w, s) && visits[0].path == s.path + [site.item]
    && Traces(g, w, site, visits[0], visits, next)
  }

  /** At the last visit the block is left, with LastMemory, and what follows it is entered once. */
  ghost predicate Completes(g: Graph, w: World, site: Site, s: State, arr: seq<Value>, k0: int, visits: seq<State>)
    requires Known(g, site.body) && visits != []
  {
    Iterated(g, w, site, arr, visits[0], visits[|visits| - 1], Moment(s.mem, s.tick + 1), k0, |visits| - 1)
  }

  /** The last visit ends the run with an error. */
  ghost predicate EndsInError(g: Graph, w: World, visits: seq<State>)
    requires visits != []
  {
    var last := Step(g, w, visits[|visits| - 1]);
    last.status.Finished? && last.error
  }

  lemma LeftIsNoError(g: Graph, w: World, site: Site, s: State, mem: Memory)
    requires Left(g, w, site, s, mem)
    ensures !Step(g, w, s).error
  {
    SettleKeepsCalm(g, w, Processed(g, w, s), |s.path|);
  }

  lemma SettleKeepsCalm(g: Graph, w: World, s: State, to: nat)
    requires s.idx <= to <= |s.path| && !s.error
    ensures !Settle(g, w, s, to).error
  {
    var pending := s.path[to..];
    if Known(g, pending) { InvokeAllKeeps(g, w, s.(idx := to), Forms(g, pending, true)); }
  }

  /** What an iteration does, entered with its item's cursor at `k0`: it hands out the elements from k0 on, an item that
      has ended starting with the last one, runs its body exactly once for each, in order, and then enters what
      follows it exactly once; or, when an item that has ended meets an empty array, the run ends with an error.
      This is map - each element once and in order, and as many collations as passes - exactly when the
      cursor is 0, as it is for a fresh item. */
  lemma IterationIsMap(g: Graph, w: World, site: Site, s: State, arr: seq<Value>, k0: int)
    returns (visits: seq<State>, next: seq<State>)
    requires -1 <= k0 && AtIteration(g, w, site, s, arr, k0)
    requires AllOk(g, w, site, arr, Moment(s.mem, s.tick + 1), k0)
    ensures |next| == PassesFrom(arr, k0) && Runs(g, w, site, s, visits, next)
    ensures HandedOut(site, next) == Remaining(arr, k0)
    ensures !Fails(arr, k0) ==> Completes(g, w, site, s, arr, k0, visits)
    ensures !Fails(arr, k0) ==>
              !EndsInError(g, w, visits)
              && (k0 == 0 <==> HandedOut(site, next) == arr && Collations(site, visits) == |next|)
    ensures GivesUp(g, site.item) ==> (EndsInError(g, w, visits) <==> Fails(arr, k0))
    ensures GivesUp(g, site.item) ==>
              (k0 == 0 <==>
               !EndsInError(g, w, visits) && HandedOut(site, next) == arr && Collations(site, visits) == |next|)
  {
    EntersBlock(g, w, site, s, arr);
    visits, next := RunFromItem(g, w, site, s.path, arr, Step(g, w, s), Moment(s.mem, s.tick + 1), k0);
    ElementsRemain(arr, k0);
    if !Fails(arr, k0) { MapFromZero(arr, k0); }
  }

  lemma RunFromItem(g: Graph, w: World, site: Site, entry: seq<Id>, arr: seq<Value>, s: State, m: Moment, k0: int)
    returns (visits: seq<State>, next: seq<State>)
    requires IsIteration(g, w, site, entry) && -1 <= k0
    requires AtItem(s, site, m, k0) && s.path == entry + [site.item]
    requires AllOk(g, w, site, arr, m, k0)
    ensures |next| == PassesFrom(arr, k0) && Traces(g, w, site, s, visits, next) && visits[0] == s
    ensures HandedOut(site, next) == Elements(arr, k0, |next|)
    ensures Collations(site, visits) == if Fails(arr, k0) then 0 else Above(k0, |next| + 1)
    ensures !Fails(arr, k0) ==> Iterated(g, w, site, arr, s, visits[|next|], m, k0, |next|)
    ensures !Fails(arr, k0) ==> !Step(g, w, visits[|next|]).error
    ensures Fails(arr, k0) && GivesUp(g, site.item) ==> EndsInError(g, w, visits)
  {
    if Fails(arr, k0) {
      visits, next := [s], [];
      FirstTraced(site, s, arr, k0);
      if GivesUp(g, site.item) { RunFails(g, w, site, entry, arr, s, m, k0); }
    } else {
      visits, next := RunTraced(g, w, site, entry, arr, s, m, k0, PassesFrom(arr, k0));
      var last := IteratesFromItem(g, w, site, entry, arr, s, m, k0);
      LeftIsNoError(g, w, site, last, Gathered(g, site, Visit(g, w, site, arr, m, k0, |next|).mem, k0 + |next|).mem);
    }
  }

  lemma MapFromZero(arr: seq<Value>, k0: int)
    requires -1 <= k0 && !Fails(arr, k0)
    ensures var n := PassesFrom(arr, k0); k0 == 0 <==> Remaining(arr, k0) == arr && Above(k0, n + 1) == n
  {
    AboveFormula(k0, PassesFrom(arr, k0) + 1);
  }

  /** Entered again after it has ended, an iteration takes the last element once more before all others; on an empty
      array it ends the run. */
  lemma ReentryRepeatsLast(g: Graph, w: World, site: Site, s: State, arr: seq<Value>)
    returns (visits: seq<State>, next: seq<State>)
    requires AtIteration(g, w, site, s, arr, -1)
    requires AllOk(g, w, site, arr, Moment(s.mem, s.tick + 1), -1)
    ensures Runs(g, w, site, s, visits, next)
    ensures arr != [] ==> HandedOut(site, next) == [arr[|arr| - 1]] + arr && Completes(g, w, site, s, arr, -1, visits)
    ensures arr == [] && GivesUp(g, site.item) ==> EndsInError(g, w, visits)
  {
    visits, next := IterationIsMap(g, w, site, s, arr, -1);
  }

  /** The pass after visit `j` sees the element at the cursor, and the cursor. */
  lemma PassSeesElement(g: Graph, site: Site, arr: seq<Value>, m: Moment, k: int)
    ensures GetOut(Hand(g, site, arr, m, k).mem, site.item, "item") == Element(arr, k)
    ensures GetOut(Hand(g, site, arr, m, k).mem, site.item, "index") == Num(k as real)
    ensures 0 <= k < |arr| ==> Element(arr, k) == arr[k]
  {}

  // ---------- what is collected ----------

  /** Pass `j` leaves an output of the iteration itself alone. */
  ghost predicate KeepsCollected(g: Graph, w: World, site: Site, arr: seq<Value>, m: Moment, k0: int, j: nat,
                                 key: string)
    requires Known(g, site.body)
  {
    GetOut(Visit(g, w, site, arr, m, k0, j + 1).mem, site.block, key)
    == GetOut(Hand(g, site, arr, Visit(g, w, site, arr, m, k0, j), k0 + j).mem, site.block, key)
  }

  /** The value of an output of the body at visit `j`, that is, at the end of pass j - 1. */
  function AtVisit(g: Graph, w: World, site: Site, arr: seq<Value>, m: Moment, k0: int, c: Collect, j: nat): Value
    requires Known(g, site.body)
  {
    GetOut(Visit(g, w, site, arr, m, k0, j).mem, c.source, c.variable)
  }

  /** The values collected at the first `n` visits: at those whose cursor is above zero. */
  function Collected(g: Graph, w: World, site: Site, arr: seq<Value>, m: Moment, k0: int, c: Collect,
                     n: nat): seq<Value>
    requires Known(g, site.body)
  {
    if n == 0 then []
    else
      var before := Collected(g, w, site, arr, m, k0, c, n - 1);
      if k0 + n - 1 > 0 then before + [AtVisit(g, w, site, arr, m, k0, c, n - 1)] else before
  }

  /** An output to which values have been appended. */
  function Extended(old_: Value, vs: seq<Value>): Value { if vs == [] then old_ else List(AsList(old_) + vs) }

  lemma ExtendedOnce(old_: Value, vs: seq<Value>, v: Value)
    ensures List(AsList(Extended(old_, vs)) + [v]) == Extended(old_, vs + [v])
  {
    assert AsList(old_) + (vs + [v]) == (AsList(old_) + vs) + [v];
    assert vs == [] ==> vs + [v] == [v];
  }

  /** One visit collects one value, or none. */
  lemma CollectsOne(g: Graph, w: World, site: Site, entry: seq<Id>, mem: Memory, k: int, i: nat)
    requires IsIteration(g, w, site, entry) && AllCollectable(mem, site.block, Collects(g, site))
    requires i < |Collects(g, site)| && HasParent(g, Collects(g, site)[i].source, site.block)
    ensures var c := Collects(g, site)[i];
            GetOut(Gathered(g, site, mem, k).mem, site.block, c.key)
            == if k > 0 then List(AsList(GetOut(mem, site.block, c.key)) + [GetOut(mem, c.source, c.variable)])
               else GetOut(mem, site.block, c.key)
  {
    var c := Collects(g, site)[i];
    assert c.source in g.order;
    if k > 0 { CollateAllEffect(g, mem, site.block, Collects(g, site), g.order); }
  }

  lemma CollectsOnto(g: Graph, w: World, site: Site, entry: seq<Id>, mem: Memory, k: int, i: nat, old_: Value,
                     vs: seq<Value>)
    requires IsIteration(g, w, site, entry) && AllCollectable(mem, site.block, Collects(g, site))
    requires i < |Collects(g, site)| && HasParent(g, Collects(g, site)[i].source, site.block)
    requires GetOut(mem, site.block, Collects(g, site)[i].key) == Extended(old_, vs)
    ensures var c := Collects(g, site)[i];
            GetOut(Gathered(g, site, mem, k).mem, site.block, c.key)
            == Extended(old_, if k > 0 then vs + [GetOut(mem, c.source, c.variable)] else vs)
  {
    var c := Collects(g, site)[i];
    CollectsOne(g, w, site, entry, mem, k, i);
    ExtendedOnce(old_, vs, GetOut(mem, c.source, c.variable));
  }

  /** Between two visits the output does not change. */
  lemma CarriedOver(g: Graph, w: World, site: Site, arr: seq<Value>, m: Moment, k0: int, j: nat, key: string)
    requires Known(g, site.body) && site.item != site.block && KeepsCollected(g, w, site, arr, m, k0, j, key)
    ensures GetOut(Visit(g, w, site, arr, m, k0, j + 1).mem, site.block, key)
            == GetOut(Gathered(g, site, Visit(g, w, site, arr, m, k0, j).mem, k0 + j).mem, site.block, key)
  {}

  /** When visit `n` is over, an output that refers to a component of the block holds, behind what it held before, that
      component's values at the visits whose cursor was above zero, in order. */
  lemma CollectedInOrder(g: Graph, w: World, site: Site, entry: seq<Id>, arr: seq<Value>, m: Moment, k0: int, n: nat,
                         i: nat)
    requires IsIteration(g, w, site, entry)
    requires i < |Collects(g, site)| && HasParent(g, Collects(g, site)[i].source, site.block)
    requires forall j :: 0 <= j <= n ==> VisitOk(g, w, site, arr, m, k0, j)
    requires forall j :: 0 <= j < n ==> KeepsCollected(g, w, site, arr, m, k0, j, Collects(g, site)[i].key)
    ensures HoldsCollected(g, w, site, arr, m, k0, n, Collects(g, site)[i])
  {
    var c := Collects(g, site)[i];
    assert VisitOk(g, w, site, arr, m, k0, 0);
    CollectsFirst(g, w, site, entry, arr, m, k0, i);
    for j := 0 to n
      invariant HoldsCollected(g, w, site, arr, m, k0, j, c)
    {
      assert KeepsCollected(g, w, site, arr, m, k0, j, c.key) && VisitOk(g, w, site, arr, m, k0, j + 1);
      CollectsNext(g, w, site, entry, arr, m, k0, j, i);
    }
  }

  lemma CollectsFirst(g: Graph, w: World, site: Site, entry: seq<Id>, arr: seq<Value>, m: Moment, k0: int, i: nat)
    requires IsIteration(g, w, site, entry) && AllCollectable(m.mem, site.block, Collects(g, site))
    requires i < |Collects(g, site)| && HasParent(g, Collects(g, site)[i].source, site.block)
    ensures HoldsCollected(g, w, site, arr, m, k0, 0, Collects(g, site)[i])
  {
    CollectsOnto(g, w, site, entry, m.mem, k0, i, GetOut(m.mem, site.block, Collects(g, site)[i].key), []);
  }

  lemma CollectsNext(g: Graph, w: World, site: Site, entry: seq<Id>, arr: seq<Value>, m: Moment, k0: int, j: nat,
                     i: nat)
    requires IsIteration(g, w, site, entry)
    requires i < |Collects(g, site)| && HasParent(g, Collects(g, site)[i].source, site.block)
    requires AllCollectable(Visit(g, w, site, arr, m, k0, j + 1).mem, site.block, Collects(g, site))
    requires KeepsCollected(g, w, site, arr, m, k0, j, Collects(g, site)[i].key)
    requires HoldsCollected(g, w, site, arr, m, k0, j, Collects(g, site)[i])
    ensures HoldsCollected(g, w, site, arr, m, k0, j + 1, Collects(g, site)[i])
  {
    var c := Collects(g, site)[i];
    CarriedOver(g, w, site, arr, m, k0, j, c.key);
    CollectsOnto(g, w, site, entry, Visit(g, w, site, arr, m, k0, j + 1).mem, k0 + j + 1, i,
                 GetOut(m.mem, site.block, c.key), Collected(g, w, site, arr, m, k0, c, j + 1));
  }

  ghost predicate HoldsCollected(g: Graph, w: World, site: Site, arr: seq<Value>, m: Moment, k0: int, n: nat,
                                 c: Collect)
    requires Known(g, site.body)
  {
    GetOut(Gathered(g, site, Visit(g, w, site, arr, m, k0, n).mem, k0 + n).mem, site.block, c.key)
    == Extended(GetOut(m.mem, site.block, c.key), Collected(g, w, site, arr, m, k0, c, n + 1))
  }

  // ---------- the whole iteration, with what it collects ----------

  /** The end-of-pass values of the first `n` passes. */
  function EndOfPasses(g: Graph, w: World, site: Site, arr: seq<Value>, m: Moment, k0: int, c: Collect, n: nat)
    : (vs: seq<Value>)
    requires Known(g, site.body)
    ensures |vs| == n && forall j :: 0 <= j < n ==> vs[j] == AtVisit(g, w, site, arr, m, k0, c, j + 1)
  {
    if n == 0 then []
    else EndOfPasses(g, w, site, arr, m, k0, c, n - 1) + [AtVisit(g, w, site, arr, m, k0, c, n)]
  }

  /** From a fresh item on, what is collected are the end-of-pass values. */
  lemma {:induction false} FreshCollects(g: Graph, w: World, site: Site, arr: seq<Value>, m: Moment, c: Collect, n: nat)
    requires Known(g, site.body)
    ensures Collected(g, w, site, arr, m, 0, c, n + 1) == EndOfPasses(g, w, site, arr, m, 0, c, n)
    decreases n
  {
    if n > 0 { FreshCollects(g, w, site, arr, m, c, n - 1); }
  }

  /** Nothing fails in `n` passes, and the body leaves the array and the outputs of the iteration alone, which can be
      collected to begin with. */
  ghost predicate Calm(g: Graph, w: World, site: Site, arr: seq<Value>, m: Moment, k0: int, n: nat)
    requires Known(g, site.body) && site.block in g.comp && g.comp[site.block].kind.Iteration?
  {
    && AllCollectable(m.mem, site.block, Collects(g, site))
    && (forall j :: 0 <= j <= n ==> VisitCalm(g, w, site, arr, m, k0, j))
    && (forall j :: 0 <= j < n ==> PassOk(g, w, site, arr, m, k0, j) && KeepsAll(g, w, site, arr, m, k0, j))
  }

  ghost predicate KeepsAll(g: Graph, w: World, site: Site, arr: seq<Value>, m: Moment, k0: int, j: nat)
    requires Known(g, site.body)
  {
    forall c <- Collects(g, site) :: KeepsCollected(g, w, site, arr, m, k0, j, c.key)
  }

  ghost predicate CollectableAt(g: Graph, w: World, site: Site, arr: seq<Value>, m: Moment, k0: int, j: nat)
    requires Known(g, site.body)
  {
    AllCollectable(Visit(g, w, site, arr, m, k0, j).mem, site.block, Collects(g, site))
  }

  lemma StaysCollectable(g: Graph, w: World, site: Site, entry: seq<Id>, arr: seq<Value>, m: Moment, k0: int, j: nat)
    requires IsIteration(g, w, site, entry) && KeepsAll(g, w, site, arr, m, k0, j)
    requires CollectableAt(g, w, site, arr, m, k0, j)
    ensures CollectableAt(g, w, site, arr, m, k0, j + 1)
  {
    var collects := Collects(g, site);
    GatheredCollectable(g, w, site, entry, Visit(g, w, site, arr, m, k0, j).mem, k0 + j);
    forall i | 0 <= i < |collects|
      ensures Collectable(GetOut(Visit(g, w, site, arr, m, k0, j + 1).mem, site.block, collects[i].key))
    {
      assert collects[i] in collects;
      CarriedOver(g, w, site, arr, m, k0, j, collects[i].key);
    }
  }

  lemma GatheredCollectable(g: Graph, w: World, site: Site, entry: seq<Id>, mem: Memory, k: int)
    requires IsIteration(g, w, site, entry) && AllCollectable(mem, site.block, Collects(g, site))
    ensures AllCollectable(Gathered(g, site, mem, k).mem, site.block, Collects(g, site))
  {
    if k > 0 { CollateAllEffect(g, mem, site.block, Collects(g, site), g.order); }
  }

  lemma CalmCollects(g: Graph, w: World, site: Site, entry: seq<Id>, arr: seq<Value>, m: Moment, k0: int, n: nat,
                     j: nat)
    requires IsIteration(g, w, site, entry) && Calm(g, w, site, arr, m, k0, n) && j <= n
    ensures CollectableAt(g, w, site, arr, m, k0, j)
  {
    for i := 0 to j
      invariant CollectableAt(g, w, site, arr, m, k0, i)
    {
      assert KeepsAll(g, w, site, arr, m, k0, i);
      StaysCollectable(g, w, site, entry, arr, m, k0, i);
    }
  }

  lemma CalmIsOk(g: Graph, w: World, site: Site, entry: seq<Id>, arr: seq<Value>, m: Moment, k0: int, n: nat)
    requires IsIteration(g, w, site, entry) && Calm(g, w, site, arr, m, k0, n)
    ensures forall j :: 0 <= j <= n ==> VisitOk(g, w, site, arr, m, k0, j)
    ensures Undisturbed(g, w, site, arr, m, k0, n)
  {
    forall j | 0 <= j <= n ensures VisitOk(g, w, site, arr, m, k0, j) {
      CalmCollects(g, w, site, entry, arr, m, k0, n, j);
      assert VisitCalm(g, w, site, arr, m, k0, j);
    }
  }

  /** Every output that refers to a component of the block holds what was collected: from a fresh item on, the
      end-of-pass values. */
  ghost predicate HoldsAll(g: Graph, w: World, site: Site, arr: seq<Value>, m: Moment, k0: int, n: nat, mem: Memory)
    requires Known(g, site.body)
  {
    forall c <- Collects(g, site) :: HasParent(g, c.source, site.block) ==>
      GetOut(mem, site.block, c.key)
      == Extended(GetOut(m.mem, site.block, c.key),
                  if k0 == 0 then EndOfPasses(g, w, site, arr, m, k0, c, n)
                  else Collected(g, w, site, arr, m, k0, c, n + 1))
  }

  lemma CollectsAll(g: Graph, w: World, site: Site, entry: seq<Id>, arr: seq<Value>, m: Moment, k0: int, n: nat)
    requires IsIteration(g, w, site, entry) && Calm(g, w, site, arr, m, k0, n)
    ensures HoldsAll(g, w, site, arr, m, k0, n, LastMemory(g, w, site, arr, m, k0, n))
  {
    var mem := LastMemory(g, w, site, arr, m, k0, n);
    forall c | c in Collects(g, site) && HasParent(g, c.source, site.block)
      ensures GetOut(mem, site.block, c.key)
           == Extended(GetOut(m.mem, site.block, c.key),
                       if k0 == 0 then EndOfPasses(g, w, site, arr, m, k0, c, n)
                       else Collected(g, w, site, arr, m, k0, c, n + 1))
    {
      CollectsThis(g, w, site, entry, arr, m, k0, n, c);
      if k0 == 0 { FreshCollects(g, w, site, arr, m, c, n); }
    }
  }

  lemma CollectsThis(g: Graph, w: World, site: Site, entry: seq<Id>, arr: seq<Value>, m: Moment, k0: int, n: nat,
                     c: Collect)
    requires IsIteration(g, w, site, entry) && Calm(g, w, site, arr, m, k0, n)
    requires c in Collects(g, site) && HasParent(g, c.source, site.block)
    ensures HoldsCollected(g, w, site, arr, m, k0, n, c)
  {
    var i :| 0 <= i < |Collects(g, site)| && Collects(g, site)[i] == c;
    CalmIsOk(g, w, site, entry, arr, m, k0, n);
    forall j | 0 <= j < n ensures KeepsCollected(g, w, site, arr, m, k0, j, c.key) {
      assert KeepsAll(g, w, site, arr, m, k0, j);
    }
    CollectedInOrder(g, w, site, entry, arr, m, k0, n, i);
  }

  /** An iteration whose body leaves its array and its outputs alone, entered with any cursor, does what IterationIsMap
      says, and is left with a memory in which each output that refers to a component of the block holds the list of
      the values collected: from a fresh item on, that component's end-of-pass values, one for each element, in
      order. */
  lemma IterationCollects(g: Graph, w: World, site: Site, s: State, arr: seq<Value>, k0: int)
    returns (visits: seq<State>, next: seq<State>)
    requires -1 <= k0 && AtIteration(g, w, site, s, arr, k0) && !Fails(arr, k0)
    requires Calm(g, w, site, arr, Moment(s.mem, s.tick + 1), k0, PassesFrom(arr, k0))
    ensures |next| == PassesFrom(arr, k0) && Runs(g, w, site, s, visits, next)
    ensures HandedOut(site, next) == Remaining(arr, k0) && Completes(g, w, site, s, arr, k0, visits)
    ensures var n, m := PassesFrom(arr, k0), Moment(s.mem, s.tick + 1);
            HoldsAll(g, w, site, arr, m, k0, n, LastMemory(g, w, site, arr, m, k0, n))
  {
    CalmIsAllOk(g, w, site, s.path, arr, Moment(s.mem, s.tick + 1), k0);
    visits, next := IterationIsMap(g, w, site, s, arr, k0);
    CollectsAll(g, w, site, s.path, arr, Moment(s.mem, s.tick + 1), k0, PassesFrom(arr, k0));
  }

  lemma CalmIsAllOk(g: Graph, w: World, site: Site, entry: seq<Id>, arr: seq<Value>, m: Moment, k0: int)
    requires -1 <= k0 && IsIteration(g, w, site, entry) && Calm(g, w, site, arr, m, k0, PassesFrom(arr, k0))
    ensures AllOk(g, w, site, arr, m, k0)
  {
    CalmIsOk(g, w, site, entry, arr, m, k0, PassesFrom(arr, k0));
  }
}
