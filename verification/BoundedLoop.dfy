/** A loop is a bounded while. */
module BoundedLoop {
  import opened Wrappers
  import opened WorkflowGraph
  import opened LoopConditions
  import opened Components
  import opened Scheduler
  import opened SingleToken
  import opened BodyChain

  // ---------- the reference semantics: a bounded while ----------

  ghost predicate IsLoop(g: Graph, w: World, site: Site, entry: seq<Id>) {
    && WellFormed(g) && IsChain(g, site) && g.comp[site.block].kind.Loop?
    && entry != [] && Resolved(g, site, entry) && Known(g, site.body) && w.cancelAt.None?
  }

  /** With `k` passes begun, another one begins when the limit allows it and the condition does not hold: with "and"
      some part of it is false, with "or" every part is. */
  ghost predicate Begins(g: Graph, loop: Kind, mem: Memory, k: int)
    requires loop.Loop?
  {
    k < loop.maximum && Unmet(g, mem, loop)
  }

  /** The item itself takes one call. */
  function Ticked(m: Moment): Moment { Moment(m.mem, m.tick + 1) }

  /** One pass. */
  function Pass(g: Graph, w: World, site: Site, m: Moment): Moment
    requires Known(g, site.body)
  {
    RunChain(g, w, Ticked(m), site.body)
  }

  /** How often the body runs: while (k < maximum && !condition) body. */
  ghost function PassCount(g: Graph, w: World, site: Site, loop: Kind, m: Moment, k: int): nat
    requires loop.Loop? && Known(g, site.body)
    decreases loop.maximum - k
  {
    if Begins(g, loop, m.mem, k) then 1 + PassCount(g, w, site, loop, Pass(g, w, site, m), k + 1) else 0
  }

  /** The moment after `j` passes. */
  function After(g: Graph, w: World, site: Site, m: Moment, j: nat): Moment
    requires Known(g, site.body)
  {
    if j == 0 then m else Pass(g, w, site, After(g, w, site, m, j - 1))
  }

  lemma {:induction false} AfterShift(g: Graph, w: World, site: Site, m: Moment, j: nat)
    requires Known(g, site.body)
    ensures After(g, w, site, Pass(g, w, site, m), j) == After(g, w, site, m, j + 1)
    decreases j
  {
    if j > 0 { AfterShift(g, w, site, m, j - 1); }
  }

  lemma {:induction false} PassBegins(g: Graph, w: World, site: Site, loop: Kind, m: Moment, k: int, j: nat)
    requires loop.Loop? && Known(g, site.body) && j <= PassCount(g, w, site, loop, m, k)
    ensures Begins(g, loop, After(g, w, site, m, j).mem, k + j) <==> j < PassCount(g, w, site, loop, m, k)
    ensures j > 0 ==> k + j <= loop.maximum
    decreases j
  {
    if j > 0 {
      PassBegins(g, w, site, loop, Pass(g, w, site, m), k + 1, j - 1);
      AfterShift(g, w, site, m, j - 1);
    }
  }

  /** Pass number j + 1 begins iff the limit is not reached and the condition is false when tested just
      before it; the first pass that does not begin is the last thing tested. */
  lemma PassCountMeaning(g: Graph, w: World, site: Site, loop: Kind, m: Moment, k: int)
    requires loop.Loop? && Known(g, site.body)
    ensures var n := PassCount(g, w, site, loop, m, k);
            && (k <= loop.maximum ==> n <= loop.maximum - k)
            && (forall j :: 0 <= j < n ==> Begins(g, loop, After(g, w, site, m, j).mem, k + j))
            && !Begins(g, loop, After(g, w, site, m, n).mem, k + n)
  {
    var n := PassCount(g, w, site, loop, m, k);
    PassBegins(g, w, site, loop, m, k, n);
    forall j | 0 <= j < n ensures Begins(g, loop, After(g, w, site, m, j).mem, k + j) {
      PassBegins(g, w, site, loop, m, k, j);
    }
  }

  /** The condition is false when tested after `j` passes. */
  ghost predicate GoesOn(g: Graph, w: World, site: Site, loop: Kind, m: Moment, j: nat)
    requires loop.Loop? && Known(g, site.body)
  {
    Unmet(g, After(g, w, site, m, j).mem, loop)
  }

  /** A count that begins at `k0` is `n` exactly when `n` passes begin and the next one does not. */
  lemma PassCountIs(g: Graph, w: World, site: Site, loop: Kind, m: Moment, k0: int, n: nat)
    requires loop.Loop? && Known(g, site.body)
    requires forall j: nat :: j < n ==> k0 + j < loop.maximum && GoesOn(g, w, site, loop, m, j)
    requires k0 + n >= loop.maximum || !GoesOn(g, w, site, loop, m, n)
    ensures PassCount(g, w, site, loop, m, k0) == n
  {
    var count := PassCount(g, w, site, loop, m, k0);
    PassCountMeaning(g, w, site, loop, m, k0);
    assert count < n ==> GoesOn(g, w, site, loop, m, count);
    assert n < count ==> Begins(g, loop, After(g, w, site, m, n).mem, k0 + n);
  }

  /** Entered again after it has ended, a loop has one pass more exactly when the fresh loop would stop at its limit
      with the condition still false there; otherwise it has as many. */
  lemma ReentryHasOneMore(g: Graph, w: World, site: Site, loop: Kind, m: Moment)
    requires loop.Loop? && Known(g, site.body)
    ensures var n := PassCount(g, w, site, loop, m, 0);
            PassCount(g, w, site, loop, m, -1)
            == if n == loop.maximum && GoesOn(g, w, site, loop, m, n) then n + 1 else n
  {
    var n := PassCount(g, w, site, loop, m, 0);
    PassCountMeaning(g, w, site, loop, m, 0);
    forall j: nat | j < n ensures j < loop.maximum && GoesOn(g, w, site, loop, m, j) {
      assert Begins(g, loop, After(g, w, site, m, j).mem, 0 + j);
    }
    PassCountIs(g, w, site, loop, m, -1, if n == loop.maximum && GoesOn(g, w, site, loop, m, n) then n + 1 else n);
  }

  /** Entered again after an early exit, with `k0` passes counted, it has as many passes as a fresh loop, but at most
      those that the limit leaves. */
  lemma CountedPassesAreLost(g: Graph, w: World, site: Site, loop: Kind, m: Moment, k0: nat)
    requires loop.Loop? && Known(g, site.body)
    ensures var n, rest := PassCount(g, w, site, loop, m, 0), if k0 < loop.maximum then loop.maximum - k0 else 0;
            PassCount(g, w, site, loop, m, k0) == if n < rest then n else rest
  {
    var n, rest := PassCount(g, w, site, loop, m, 0), if k0 < loop.maximum then loop.maximum - k0 else 0;
    PassCountMeaning(g, w, site, loop, m, 0);
    forall j: nat | j < n ensures GoesOn(g, w, site, loop, m, j) {
      assert Begins(g, loop, After(g, w, site, m, j).mem, 0 + j);
    }
    PassCountIs(g, w, site, loop, m, k0, if n < rest then n else rest);
  }

  // ---------- the scheduler agrees ----------

  /** A visit that begins a pass sends the token into the body. */
  lemma VisitBegins(g: Graph, w: World, site: Site, entry: seq<Id>, s: State, m: Moment, k: int)
    requires IsLoop(g, w, site, entry) && AtItem(s, site, m, k) && k >= -1 && entry <= s.path[..s.idx]
    requires !HasError(m.mem, site.item) && Begins(g, g.comp[site.block].kind, m.mem, k)
    ensures var s' := Step(g, w, s);
            && At(s', Ticked(m)) && s'.path == s.path + [site.body[0]]
            && s'.cursors == s.cursors[site.item := k + 1]
  {
    ItemReady(g, site, entry, s);
    SingleStep(g, w, s);
    assert IsLink(g, site, 0);
    assert s.path[|s.path| - 1] == site.item && site.body[0] in site.body;
    ExtendByOne(s.path, site.body[0]);
    ItemPosts(g, w, site, s, k);
    SettleOnOne(g, w, Processed(g, w, s), |s.path|);
  }

  /** Post-processing an item that goes on. */
  lemma ItemPosts(g: Graph, w: World, site: Site, s: State, k: int)
    requires IsChain(g, site) && g.comp[site.block].kind.Loop? && w.cancelAt.None?
    requires OneToken(s) && !s.error && Token(s) == site.item && Cursor(s, site.item) == k && k >= -1
    requires !HasError(s.mem, site.item) && Begins(g, g.comp[site.block].kind, s.mem, k)
    requires ExtendPath(s.path, [site.body[0]]) == s.path + [site.body[0]]
    ensures var s' := Processed(g, w, s);
            s' == s.(tick := s.tick + 1, cursors := s.cursors[site.item := k + 1], events := s'.events,
                     partials := s'.partials, ran := s'.ran, path := s.path + [site.body[0]])
  {
    var r := InvokeLoopItem(g, w, s.tick, s.mem, k, site.item);
    ShouldEndMeaning(g, s.mem, g.comp[site.block].kind);
    assert r == ItemStep(s.mem, k + 1);
  }

  /** A visit that begins no pass leaves the block, unless testing the condition raises. */
  lemma LastVisit(g: Graph, w: World, site: Site, entry: seq<Id>, s: State, m: Moment, k: int)
    requires IsLoop(g, w, site, entry) && AtItem(s, site, m, k) && k >= -1 && entry <= s.path[..s.idx]
    requires !HasError(m.mem, site.item) && !Begins(g, g.comp[site.block].kind, m.mem, k)
    requires k >= g.comp[site.block].kind.maximum || Testable(g, m.mem, g.comp[site.block].kind)
    ensures Left(g, w, site, s, m.mem)
  {
    ItemReady(g, site, entry, s);
    SingleStep(g, w, s);
    ItemLeaves(g, w, site, s, k);
  }

  /** Post-processing an item that has ended. */
  lemma ItemLeaves(g: Graph, w: World, site: Site, s: State, k: int)
    requires IsChain(g, site) && g.comp[site.block].kind.Loop? && w.cancelAt.None?
    requires OneToken(s) && !s.error && Token(s) == site.item && Cursor(s, site.item) == k && k >= -1
    requires !HasError(s.mem, site.item) && !Begins(g, g.comp[site.block].kind, s.mem, k)
    requires k >= g.comp[site.block].kind.maximum || Testable(g, s.mem, g.comp[site.block].kind)
    ensures var s' := Processed(g, w, s);
            && s'.mem == s.mem && s'.error == s.error && s'.status == s.status && Cursor(s', site.item) == -1
            && s'.path == ExtendPath(s.path, g.comp[site.block].downstream)
  {
    var r := InvokeLoopItem(g, w, s.tick, s.mem, k, site.item);
    ShouldEndMeaning(g, s.mem, g.comp[site.block].kind);
    assert r == ItemStep(s.mem, if k >= g.comp[site.block].kind.maximum then -1 else k + 1);
  }

  /** One pass over the body, from one visit of the item to the next. */
  lemma OnePass(g: Graph, w: World, site: Site, entry: seq<Id>, s: State, m: Moment, k: int)
    requires IsLoop(g, w, site, entry) && AtItem(s, site, m, k) && k >= -1 && entry <= s.path[..s.idx]
    requires !HasError(m.mem, site.item) && Begins(g, g.comp[site.block].kind, m.mem, k)
    requires CleanChain(g, w, Ticked(m), site.body)
    ensures var s' := Steps(g, w, s, 1 + |site.body|);
            AtItem(s', site, Pass(g, w, site, m), k + 1) && s'.path == s.path + site.body + [site.item]
  {
    var m1 := Ticked(m);
    VisitBegins(g, w, site, entry, s, m, k);
    StepsOnce(g, w, s, 1 + |site.body|);
    IntoBody(site, entry, s, Step(g, w, s), m1);
    BodyPass(g, w, site, entry, s.path[..s.idx], Step(g, w, s), m1);
    LeaveBody(site, s);
  }

  /** The first `n` passes begin, and neither they nor the item fail. */
  ghost predicate Undisturbed(g: Graph, w: World, site: Site, m: Moment, k0: int, n: nat)
    requires Known(g, site.body) && site.block in g.comp && g.comp[site.block].kind.Loop?
  {
    forall j :: 0 <= j < n ==> PassOk(g, w, site, m, k0, j)
  }

  ghost predicate PassOk(g: Graph, w: World, site: Site, m: Moment, k0: int, j: nat)
    requires Known(g, site.body) && site.block in g.comp && g.comp[site.block].kind.Loop?
  {
    var v := After(g, w, site, m, j);
    && Begins(g, g.comp[site.block].kind, v.mem, k0 + j)
    && !HasError(v.mem, site.item)
    && CleanChain(g, w, Ticked(v), site.body)
  }

  ghost predicate Back(g: Graph, w: World, site: Site, base: seq<Id>, m: Moment, k0: int, j: nat, s: State)
    requires Known(g, site.body)
  {
    AtItem(s, site, After(g, w, site, m, j), k0 + j) && s.path == base + Rounds(site, j)
  }

  lemma NextVisit(g: Graph, w: World, site: Site, entry: seq<Id>, base: seq<Id>, m: Moment, k0: int, j: nat, s: State)
    returns (s': State)
    requires IsLoop(g, w, site, entry) && k0 >= -1
    requires base != [] && entry <= base[..|base| - 1] && PassOk(g, w, site, m, k0, j)
    requires Back(g, w, site, base, m, k0, j, s)
    ensures s' == Steps(g, w, s, 1 + |site.body|)
    ensures Back(g, w, site, base, m, k0, j + 1, s')
  {
    LongerPath(base, Rounds(site, j), entry);
    OnePass(g, w, site, entry, s, After(g, w, site, m, j), k0 + j);
    MoreRounds(site, base, j);
    s' := Steps(g, w, s, 1 + |site.body|);
  }

  lemma BackOnce(g: Graph, w: World, site: Site, entry: seq<Id>, base: seq<Id>, m: Moment, k0: int, n: nat, j: nat,
                 s: State)
    returns (s': State)
    requires IsLoop(g, w, site, entry) && k0 >= -1 && j < n
    requires base != [] && entry <= base[..|base| - 1] && Undisturbed(g, w, site, m, k0, n)
    requires Back(g, w, site, base, m, k0, j, s)
    ensures s' == Steps(g, w, s, 1 + |site.body|)
    ensures Back(g, w, site, base, m, k0, j + 1, s')
  {
    assert PassOk(g, w, site, m, k0, j);
    s' := NextVisit(g, w, site, entry, base, m, k0, j, s);
  }

  lemma Passes(g: Graph, w: World, site: Site, entry: seq<Id>, s: State, m: Moment, k0: int, n: nat)
    returns (s': State)
    requires IsLoop(g, w, site, entry) && k0 >= -1
    requires Back(g, w, site, s.path, m, k0, 0, s) && entry <= s.path[..|s.path| - 1]
    requires Undisturbed(g, w, site, m, k0, n)
    ensures s' == Steps(g, w, s, Turns(site, n))
    ensures Back(g, w, site, s.path, m, k0, n, s')
  {
    s' := s;
    for j := 0 to n
      invariant s' == Steps(g, w, s, Turns(site, j))
      invariant Back(g, w, site, s.path, m, k0, j, s')
    {
      var before := s';
      s' := BackOnce(g, w, site, entry, s.path, m, k0, n, j, before);
      TurnsGoOn(g, w, site, s, j, before, s');
    }
  }

  // ---------- the whole loop ----------

  /** The token stands at a loop whose item has cursor `k0`; `m` is the moment its variables are set. */
  ghost predicate AtLoop(g: Graph, w: World, site: Site, s: State, m: Moment, k0: int) {
    && OneToken(s) && !s.error && Token(s) == site.block && IsLoop(g, w, site, s.path) && TokenReady(g, s)
    && m == Moment(InvokeLoop(g, w, s.tick, s.mem, site.block), s.tick + 1)
    && !HasError(m.mem, site.block) && Cursor(s, site.item) == k0
  }

  lemma EntersBlock(g: Graph, w: World, site: Site, s: State, m: Moment, k0: int)
    requires AtLoop(g, w, site, s, m, k0)
    ensures var s' := Step(g, w, s);
            At(s', m) && s'.path == s.path + [site.item] && s'.cursors == s.cursors
  {
    SingleStep(g, w, s);
    BlockPosts(g, w, site, s, m.mem);
    SettleOnOne(g, w, Processed(g, w, s), |s.path|);
  }

  /** Post-processing the block. */
  lemma BlockPosts(g: Graph, w: World, site: Site, s: State, mem: Memory)
    requires OneToken(s) && !s.error && Token(s) == site.block && IsChain(g, site) && g.comp[site.block].kind.Loop?
    requires w.cancelAt.None? && !HasError(mem, site.block)
    requires mem == InvokeLoop(g, w, s.tick, s.mem, site.block)
    ensures var s' := Processed(g, w, s);
            s' == s.(tick := s.tick + 1, events := s'.events, partials := s'.partials, ran := s'.ran,
                     path := s.path + [site.item], mem := mem)
  {
    assert s.path[|s.path| - 1] == site.block;
    ExtendByOne(s.path, site.item);
  }

  /** `n` passes, then out. */
  ghost predicate Loops(g: Graph, w: World, site: Site, s: State, m: Moment, n: nat)
    requires Known(g, site.body)
  {
    var last := Steps(g, w, s, Turns(site, n));
    last.path == s.path + Rounds(site, n) && Left(g, w, site, last, After(g, w, site, m, n).mem)
  }

  /** After `n` passes no other one begins, and finding this out does not fail. */
  ghost predicate Ends(g: Graph, w: World, site: Site, m: Moment, k0: int, n: nat)
    requires Known(g, site.body) && site.block in g.comp && g.comp[site.block].kind.Loop?
  {
    && CleanVisit(g, w, site, m, k0, n)
    && !Begins(g, g.comp[site.block].kind, After(g, w, site, m, n).mem, k0 + n)
  }

  lemma LoopsAtLast(g: Graph, w: World, site: Site, entry: seq<Id>, base: seq<Id>, s: State, m: Moment, k0: int, n: nat)
    requires IsLoop(g, w, site, entry) && k0 >= -1
    requires Back(g, w, site, base, m, k0, n, s) && entry <= s.path[..|s.path| - 1]
    requires Ends(g, w, site, m, k0, n)
    ensures s.path == base + Rounds(site, n) && Left(g, w, site, s, After(g, w, site, m, n).mem)
  {
    LastVisit(g, w, site, entry, s, After(g, w, site, m, n), k0 + n);
  }

  lemma LoopsFromItem(g: Graph, w: World, site: Site, entry: seq<Id>, s: State, m: Moment, k0: int, n: nat)
    requires IsLoop(g, w, site, entry) && k0 >= -1
    requires AtItem(s, site, m, k0) && s.path == entry + [site.item] && Undisturbed(g, w, site, m, k0, n)
    requires Ends(g, w, site, m, k0, n)
    ensures Loops(g, w, site, s, m, n)
  {
    assert s.path + Rounds(site, 0) == s.path && s.path[..|s.path| - 1] == entry;
    var last := Passes(g, w, site, entry, s, m, k0, n);
    LongerPath(s.path, Rounds(site, n), entry);
    LoopsAtLast(g, w, site, entry, s.path, last, m, k0, n);
  }

  /** Nothing fails while the loop runs: neither its components nor the tests of its condition. */
  ghost predicate RunsClean(g: Graph, w: World, site: Site, m: Moment, k0: int, n: nat)
    requires Known(g, site.body) && site.block in g.comp && g.comp[site.block].kind.Loop?
  {
    && (forall j :: 0 <= j <= n ==> CleanVisit(g, w, site, m, k0, j))
    && (forall j :: 0 <= j < n ==> CleanChain(g, w, Ticked(After(g, w, site, m, j)), site.body))
  }

  /** The condition is only tested while the limit is not reached. */
  ghost predicate CleanVisit(g: Graph, w: World, site: Site, m: Moment, k0: int, j: nat)
    requires Known(g, site.body) && site.block in g.comp && g.comp[site.block].kind.Loop?
  {
    var mem := After(g, w, site, m, j).mem;
    && !HasError(mem, site.item)
    && (k0 + j >= g.comp[site.block].kind.maximum || Testable(g, mem, g.comp[site.block].kind))
  }

  lemma CleanRun(g: Graph, w: World, site: Site, m: Moment, k0: int) returns (n: nat)
    requires Known(g, site.body) && site.block in g.comp && g.comp[site.block].kind.Loop?
    requires RunsClean(g, w, site, m, k0, PassCount(g, w, site, g.comp[site.block].kind, m, k0))
    ensures n == PassCount(g, w, site, g.comp[site.block].kind, m, k0)
    ensures k0 <= g.comp[site.block].kind.maximum ==> n <= g.comp[site.block].kind.maximum - k0
    ensures Undisturbed(g, w, site, m, k0, n) && Ends(g, w, site, m, k0, n)
  {
    n := PassCount(g, w, site, g.comp[site.block].kind, m, k0);
    PassCountMeaning(g, w, site, g.comp[site.block].kind, m, k0);
    forall j | 0 <= j < n ensures PassOk(g, w, site, m, k0, j) {
      assert CleanVisit(g, w, site, m, k0, j);
    }
  }

  /** A loop is a bounded while: entered with the cursor of its item at `k0`, it runs its body as often as
      `while (k < maximum && !condition)` does from k0, hence at most maximum - k0 times, and then enters what
      follows it exactly once. For a fresh item k0 is 0; for one that ended before it is -1, which allows one
      pass more; an early exit leaves the count of the passes begun. */
  lemma LoopIsBoundedWhile(g: Graph, w: World, site: Site, s: State, m: Moment, k0: int)
    requires AtLoop(g, w, site, s, m, k0) && k0 >= -1
    requires RunsClean(g, w, site, m, k0, PassCount(g, w, site, g.comp[site.block].kind, m, k0))
    ensures var n := PassCount(g, w, site, g.comp[site.block].kind, m, k0);
            && (k0 <= g.comp[site.block].kind.maximum ==> n <= g.comp[site.block].kind.maximum - k0)
            && Step(g, w, s).path == s.path + [site.item]
            && Loops(g, w, site, Step(g, w, s), m, n)
  {
    var n := CleanRun(g, w, site, m, k0);
    EntersBlock(g, w, site, s, m, k0);
    LoopsFromItem(g, w, site, s.path, Step(g, w, s), m, k0, n);
  }

  /** An early exit enters what follows the loop and leaves the count of the passes begun: a loop entered again after
      that goes on from there. */
  lemma EarlyExitKeepsCount(g: Graph, w: World, s: State, loop: Id)
    requires OneToken(s) && !s.error && Token(s) in g.comp && g.comp[Token(s)].kind.ExitLoop?
    requires HasParent(g, Token(s), loop) && loop in g.comp && g.comp[loop].kind.Loop?
    requires TokenReady(g, s) && !Canceled(w, s.tick, 0) && !HasError(s.mem, Token(s))
    ensures var s' := Processed(g, w, s);
            && s'.status.Running? && !s'.error && s'.mem == s.mem && s'.cursors == s.cursors
            && s'.path == ExtendPath(s.path, g.comp[loop].downstream)
            && s'.idx <= |s.path| <= |s'.path| && Step(g, w, s) == Settle(g, w, s', |s.path|)
  {
    SingleStep(g, w, s);
  }
}
