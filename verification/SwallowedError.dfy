/** A default value for the errors of an iteration item can make a run go on for ever. */
module SwallowedError {
  import opened Wrappers
  import opened WorkflowGraph
  import opened Components
  import opened CollationEffect
  import opened Scheduler
  import opened SingleToken
  import opened BodyChain
  import opened IterationMap

  /** The item has a default value for its errors, whether it is stored as a result or only taken for an answer. */
  predicate Swallows(g: Graph, id: Id)
    requires id in g.comp
  {
    && g.comp[id].handler.Some? && g.comp[id].handler.value.goto == []
    && Truthy(g.comp[id].handler.value.default)
  }

  /** Output `i` of the iteration cannot be collected: it is neither empty nor a list. */
  ghost predicate Blocked(g: Graph, site: Site, mem: Memory, i: nat)
    requires site.block in g.comp && g.comp[site.block].kind.Iteration?
  {
    && i < |Collects(g, site)| && HasParent(g, Collects(g, site)[i].source, site.block)
    && !Collectable(GetOut(mem, site.block, Collects(g, site)[i].key))
    && (var arr := Lookup(g, mem, g.comp[site.block].kind.itemsRef); arr.Ok? && arr.value.List?)
    && forall c <- site.body :: !HasError(mem, c)
  }

  /** Run on its own from there, the body does not fail and does not repair the output. */
  ghost predicate BodyKeeps(g: Graph, w: World, site: Site, i: nat)
    requires Known(g, site.body) && site.block in g.comp && g.comp[site.block].kind.Iteration?
  {
    forall m: Moment :: Blocked(g, site, m.mem, i) ==>
      CleanChain(g, w, m, site.body) && Blocked(g, site, RunChain(g, w, m, site.body).mem, i)
  }

  /** The array is not what a failing item writes. */
  predicate ArrayElsewhere(g: Graph, site: Site)
    requires site.block in g.comp && g.comp[site.block].kind.Iteration?
  {
    match g.comp[site.block].kind.itemsRef
    case Global(_) => true
    case Output(cpn, name) => cpn == site.item ==> name != "result" && name != ERROR
  }

  /** What a visit leaves at which collecting the outputs raises. */
  function Stuck(g: Graph, site: Site, m: Moment, k: int): Moment
    requires site.item in g.comp
  {
    Moment(Fail(g, Gathered(g, site, m.mem, k).mem, site.item), m.tick + 1)
  }

  /** At a blocked moment the item raises, and stays blocked. */
  lemma BlockedRaises(g: Graph, w: World, site: Site, entry: seq<Id>, m: Moment, k: int, i: nat)
    requires IsIteration(g, w, site, entry) && ArrayElsewhere(g, site) && k > 0 && Blocked(g, site, m.mem, i)
    ensures Gathered(g, site, m.mem, k).raised && Blocked(g, site, Stuck(g, site, m, k).mem, i)
  {
    var collects := Collects(g, site);
    CollateAllRaisesIff(g, m.mem, site.block, collects, g.order);
    assert collects[i].source in Members(g, site.block, g.order);
    assert IsBad(m.mem, site.block, collects, Members(g, site.block, g.order), i);
    var mem := Gathered(g, site, m.mem, k).mem;
    assert KeepsShape(m.mem, mem, site.block);
    forall c <- site.body ensures !HasError(mem, c) && c != site.item {
      var j :| 0 <= j < |site.body| && site.body[j] == c;
      assert IsLink(g, site, j);
    }
    FailKeepsBlocked(g, site, mem, i);
  }

  lemma FailKeepsBlocked(g: Graph, site: Site, mem: Memory, i: nat)
    requires IsChain(g, site) && g.comp[site.block].kind.Iteration? && ArrayElsewhere(g, site)
    requires Blocked(g, site, mem, i)
    ensures Blocked(g, site, Fail(g, mem, site.item), i)
  {}

  /** Post-processing an item whose error is taken over: on into the body, the cursor where it was. */
  lemma ItemGoesOn(g: Graph, w: World, site: Site, s: State, k: int)
    requires IsChain(g, site) && g.comp[site.block].kind.Iteration? && w.cancelAt.None? && Swallows(g, site.item)
    requires OneToken(s) && !s.error && Token(s) == site.item && Cursor(s, site.item) == k && k > 0
    requires var arr := Lookup(g, s.mem, g.comp[site.block].kind.itemsRef); arr.Ok? && arr.value.List?
    requires Gathered(g, site, s.mem, k).raised
    ensures var s', m := Processed(g, w, s), Stuck(g, site, Moment(s.mem, s.tick), k);
            && s' == s.(mem := m.mem, tick := m.tick, cursors := s'.cursors, events := s'.events,
                        partials := s'.partials, ran := s'.ran, path := s.path + [site.body[0]])
            && Cursor(s', site.item) == k
  {
    assert InvokeIterationItem(g, w, s.tick, s.mem, k, site.item)
        == ItemStep(Stuck(g, site, Moment(s.mem, s.tick), k).mem, k);
    assert s.path[|s.path| - 1] == site.item && site.body[0] in site.body;
    ExtendByOne(s.path, site.body[0]);
  }

  /** The token is back at the item, blocked as before. */
  ghost predicate BlockedAt(g: Graph, site: Site, entry: seq<Id>, s: State, m: Moment, k: int, i: nat)
    requires site.block in g.comp && g.comp[site.block].kind.Iteration?
  {
    AtItem(s, site, m, k) && entry <= s.path[..s.idx] && Blocked(g, site, m.mem, i)
  }

  /** One round: the item fails, the body runs, and the token is back at the item. */
  lemma BlockedRound(g: Graph, w: World, site: Site, entry: seq<Id>, s: State, m: Moment, k: int, i: nat)
    returns (s': State, m': Moment)
    requires IsIteration(g, w, site, entry) && Swallows(g, site.item) && ArrayElsewhere(g, site) && k > 0
    requires BlockedAt(g, site, entry, s, m, k, i) && BodyKeeps(g, w, site, i)
    ensures s' == Steps(g, w, s, 1 + |site.body|) && BlockedAt(g, site, entry, s', m', k, i)
  {
    BlockedRaises(g, w, site, entry, m, k, i);
    var stuck := Stuck(g, site, m, k);
    m' := RunChain(g, w, stuck, site.body);
    s' := StuckRound(g, w, site, entry, s, m, k);
  }

  lemma StuckVisit(g: Graph, w: World, site: Site, entry: seq<Id>, s: State, m: Moment, k: int)
    requires IsIteration(g, w, site, entry) && Swallows(g, site.item) && k > 0
    requires AtItem(s, site, m, k) && entry <= s.path[..s.idx]
    requires var arr := Lookup(g, m.mem, g.comp[site.block].kind.itemsRef); arr.Ok? && arr.value.List?
    requires Gathered(g, site, m.mem, k).raised
    ensures var s' := Step(g, w, s);
            At(s', Stuck(g, site, m, k)) && s'.path == s.path + [site.body[0]] && Cursor(s', site.item) == k
  {
    ItemReady(g, site, entry, s);
    SingleStep(g, w, s);
    assert IsLink(g, site, 0);
    ItemGoesOn(g, w, site, s, k);
    SettleOnOne(g, w, Processed(g, w, s), |s.path|);
  }

  lemma StuckRound(g: Graph, w: World, site: Site, entry: seq<Id>, s: State, m: Moment, k: int) returns (s': State)
    requires IsIteration(g, w, site, entry) && Swallows(g, site.item) && k > 0
    requires AtItem(s, site, m, k) && entry <= s.path[..s.idx]
    requires var arr := Lookup(g, m.mem, g.comp[site.block].kind.itemsRef); arr.Ok? && arr.value.List?
    requires Gathered(g, site, m.mem, k).raised && CleanChain(g, w, Stuck(g, site, m, k), site.body)
    ensures s' == Steps(g, w, s, 1 + |site.body|)
    ensures AtItem(s', site, RunChain(g, w, Stuck(g, site, m, k), site.body), k) && entry <= s'.path[..s'.idx]
  {
    StuckVisit(g, w, site, entry, s, m, k);
    StepsOnce(g, w, s, 1 + |site.body|);
    IntoBody(site, entry, s, Step(g, w, s), Stuck(g, site, m, k));
    BodyPass(g, w, site, entry, s.path[..s.idx], Step(g, w, s), Stuck(g, site, m, k));
    LeaveBody(site, s);
    s' := Steps(g, w, s, 1 + |site.body|);
  }

  lemma {:induction false} TurnsReach(site: Site, n: nat)
    ensures Turns(site, n) >= n
  {
    if n > 0 { TurnsReach(site, n - 1); }
  }

  lemma BlockedRounds(g: Graph, w: World, site: Site, entry: seq<Id>, s: State, m: Moment, k: int, i: nat, n: nat)
    returns (now: State)
    requires IsIteration(g, w, site, entry) && Swallows(g, site.item) && ArrayElsewhere(g, site) && k > 0
    requires BlockedAt(g, site, entry, s, m, k, i) && BodyKeeps(g, w, site, i)
    ensures now == Steps(g, w, s, Turns(site, n)) && now.status.Running?
  {
    var moment := m;
    now := s;
    for j := 0 to n
      invariant now == Steps(g, w, s, Turns(site, j)) && BlockedAt(g, site, entry, now, moment, k, i)
    {
      var before := now;
      now, moment := BlockedRound(g, w, site, entry, before, moment, k, i);
      TurnsGoOn(g, w, site, s, j, before, now);
    }
  }

  lemma RunningBefore(g: Graph, w: World, s: State, n: nat, more: nat, later: State)
    requires n <= more && later == Steps(g, w, s, more) && later.status.Running?
    ensures Steps(g, w, s, n).status.Running?
  {
    StepsCompose(g, w, s, n, more - n);
    if !Steps(g, w, s, n).status.Running? { StepsFixed(g, w, Steps(g, w, s, n), more - n); }
  }

  /** An item with a default value for its errors that has begun a pass, an output that cannot be collected, and a body
      that does not repair it: the run goes on for ever, the cursor staying where it is. */
  lemma SwallowedErrorNeverEnds(g: Graph, w: World, site: Site, entry: seq<Id>, s: State, m: Moment, k: int, i: nat,
                                n: nat)
    requires IsIteration(g, w, site, entry) && Swallows(g, site.item) && ArrayElsewhere(g, site) && k > 0
    requires BlockedAt(g, site, entry, s, m, k, i) && BodyKeeps(g, w, site, i)
    ensures Steps(g, w, s, n).status.Running?
  {
    var later := BlockedRounds(g, w, site, entry, s, m, k, i, n);
    TurnsReach(site, n);
    RunningBefore(g, w, s, n, Turns(site, n), later);
  }
}
