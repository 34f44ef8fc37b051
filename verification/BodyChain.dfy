/** A block whose body is a chain of plain components, and what one pass over the body does. */
module BodyChain {
  import opened WorkflowGraph
  import opened Scheduler
  import opened SingleToken

  datatype Site = Site(block: Id, item: Id, body: seq<Id>)

  predicate IsPlain(k: Kind) { k.Other? || k.Message? }

  /** `block` starts at `item`, whose downstream is the head of the chain; the last of the chain has no
      downstream, so it leads back to the item. */
  ghost predicate IsChain(g: Graph, site: Site) {
    && site.block in g.comp && site.item in g.comp && site.body != []
    && IsBlock(g.comp[site.block].kind) && IsItem(g.comp[site.item].kind)
    && (g.comp[site.block].kind.Iteration? <==> g.comp[site.item].kind.IterationItem?)
    && HasParent(g, site.item, site.block) && StartOf(g, site.block) == site.item
    && g.comp[site.item].downstream == [site.body[0]]
    && site.item !in site.body && site.item != site.block
    && forall k :: 0 <= k < |site.body| ==> IsLink(g, site, k)
  }

  ghost predicate IsLink(g: Graph, site: Site, k: nat)
    requires k < |site.body|
  {
    && HasParent(g, site.body[k], site.block) && IsPlain(g.comp[site.body[k]].kind)
    && (k + 1 < |site.body| ==> site.body[k + 1] != site.body[k])
    && g.comp[site.body[k]].downstream == (if k + 1 < |site.body| then [site.body[k + 1]] else [])
  }

  /** The inputs of the item and of the chain are there once the block is entered along `entry`. */
  ghost predicate Resolved(g: Graph, site: Site, entry: seq<Id>)
    requires IsChain(g, site) && entry != []
  {
    && Ready(g, entry[0], entry, site.item)
    && forall k :: 0 <= k < |site.body| ==> LinkResolved(g, site, entry, k)
  }

  ghost predicate LinkResolved(g: Graph, site: Site, entry: seq<Id>, k: nat)
    requires IsChain(g, site) && entry != [] && k < |site.body|
  {
    assert IsLink(g, site, k);
    Ready(g, entry[0], entry + [site.item] + site.body[..k], site.body[k])
  }

  lemma ReadyMonotone(g: Graph, head: Id, before: seq<Id>, more: seq<Id>, id: Id)
    requires id in g.comp && Ready(g, head, before, id)
    requires forall x <- before :: x in more
    ensures Ready(g, head, more, id)
  {}

  // ---------- the reference semantics of a body ----------

  /** A memory and the number of calls made so far. */
  datatype Moment = Moment(mem: Memory, tick: nat)

  /** Run one plain component, draining it if it is a message that streams. */
  function RunOne(g: Graph, w: World, m: Moment, id: Id): Moment
    requires id in g.comp
  {
    var mem := w.invoke(m.tick, id, m.mem);
    if g.comp[id].kind.Message? && GetOut(mem, id, "content").Stream? then
      var (drained, text) := w.stream(m.tick + 1, id, mem);
      Moment(SetOut(drained, id, "content", Str(text)), m.tick + 2)
    else Moment(mem, m.tick + 1)
  }

  function RunChain(g: Graph, w: World, m: Moment, ids: seq<Id>): Moment
    requires Known(g, ids)
    decreases |ids|
  {
    if ids == [] then m else RunChain(g, w, RunOne(g, w, m, ids[0]), ids[1..])
  }

  /** No component reports an error, and messages have something to say. */
  predicate CleanChain(g: Graph, w: World, m: Moment, ids: seq<Id>)
    requires Known(g, ids)
    decreases |ids|
  {
    ids == [] ||
    (&& CleanOne(g, w, m, ids[0])
     && CleanChain(g, w, RunOne(g, w, m, ids[0]), ids[1..]))
  }

  predicate CleanOne(g: Graph, w: World, m: Moment, id: Id)
    requires id in g.comp
  {
    var content := GetOut(w.invoke(m.tick, id, m.mem), id, "content");
    && (g.comp[id].kind.Message? ==> content.Str? || content.Stream?)
    && !HasError(RunOne(g, w, m, id).mem, id)
  }

  // ---------- the scheduler agrees ----------

  ghost predicate At(s: State, m: Moment) {
    OneToken(s) && !s.error && s.mem == m.mem && s.tick == m.tick
  }

  /** `s'` has moved on from `s` along `trail`, to the moment `m`. */
  ghost predicate Moved(s: State, trail: seq<Id>, s': State, m: Moment) {
    At(s', m) && s'.path == s.path + trail && s'.cursors == s.cursors
  }

  lemma PlainReport(g: Graph, w: World, s: State, c: Id)
    requires OneToken(s) && !s.error && c == Token(s) && c in g.comp && IsPlain(g.comp[c].kind)
    requires CleanOne(g, w, Moment(s.mem, s.tick), c)
    ensures var m := RunOne(g, w, Moment(s.mem, s.tick), c);
            var spoken := Speak(g, w, Invoke(g, w, Entered(s), c), c);
            var reported := Report(g, HandleError(g, spoken, c), c);
            && spoken.status.Running? && !TakesOtherBranch(g, spoken, c)
            && reported == s.(mem := m.mem, tick := m.tick, events := reported.events, ran := reported.ran,
                              partials := reported.partials)
  {}

  /** The one component that may follow `c`. */
  ghost predicate LeadsTo(g: Graph, c: Id, d: Id)
    requires c in g.comp
  {
    if g.comp[c].downstream == [] then
      g.comp[c].parent.Some? && g.comp[c].parent.value in g.comp
      && IsBlock(g.comp[g.comp[c].parent.value].kind) && StartOf(g, g.comp[c].parent.value) == d
    else g.comp[c].downstream == [d]
  }

  /** A plain component that does not fail hands the token to its one successor. */
  lemma PlainStep(g: Graph, w: World, s: State, c: Id, d: Id)
    requires OneToken(s) && !s.error && c == Token(s) && c in g.comp && IsPlain(g.comp[c].kind)
    requires TokenReady(g, s) && w.cancelAt.None?
    requires CleanOne(g, w, Moment(s.mem, s.tick), c)
    requires d in g.comp && d != c && !g.comp[d].kind.UserFillUp? && LeadsTo(g, c, d)
    ensures Moved(s, [d], Step(g, w, s), RunOne(g, w, Moment(s.mem, s.tick), c))
  {
    SingleStep(g, w, s);
    PlainPosts(g, w, s, c, d);
    SettleOnOne(g, w, Processed(g, w, s), |s.path|);
  }

  /** Post-processing a plain component. */
  lemma PlainPosts(g: Graph, w: World, s: State, c: Id, d: Id)
    requires OneToken(s) && !s.error && c == Token(s) && c in g.comp && IsPlain(g.comp[c].kind)
    requires CleanOne(g, w, Moment(s.mem, s.tick), c) && d != c && LeadsTo(g, c, d)
    ensures var s', m := Processed(g, w, s), RunOne(g, w, Moment(s.mem, s.tick), c);
            s' == s.(mem := m.mem, tick := m.tick, events := s'.events, ran := s'.ran, partials := s'.partials,
                     path := s.path + [d])
  {
    PlainReport(g, w, s, c);
    assert s.path[|s.path| - 1] == c;
    ExtendByOne(s.path, d);
  }

  lemma ExtendByOne(path: seq<Id>, d: Id)
    requires path != [] && path[|path| - 1] != d
    ensures ExtendPath(path, [d]) == path + [d]
  {
    assert [d][1..] == [];
  }

  lemma SettleOnOne(g: Graph, w: World, r: State, to: nat)
    requires r.idx <= to && |r.path| == to + 1 && r.status.Running? && !r.error
    requires r.path[to] in g.comp && !g.comp[r.path[to]].kind.UserFillUp?
    ensures Settle(g, w, r, to) == r.(idx := to)
  {
    assert r.path[to..] == [r.path[to]];
  }

  /** The token is at the k-th component of the body, in the pass that began after `pre`. */
  ghost predicate InBody(site: Site, entry: seq<Id>, pre: seq<Id>, s: State, m: Moment, k: nat)
    requires k < |site.body|
  {
    At(s, m) && entry <= pre && s.path == pre + [site.item] + site.body[..k + 1]
  }

  lemma BodyReady(g: Graph, site: Site, entry: seq<Id>, pre: seq<Id>, k: nat)
    requires IsChain(g, site) && entry != [] && Resolved(g, site, entry)
    requires k < |site.body| && entry <= pre && site.body[k] in g.comp
    ensures Ready(g, pre[0], pre + [site.item] + site.body[..k], site.body[k])
  {
    assert LinkResolved(g, site, entry, k);
    forall x | x in entry + [site.item] + site.body[..k] ensures x in pre + [site.item] + site.body[..k] {}
    ReadyMonotone(g, entry[0], entry + [site.item] + site.body[..k], pre + [site.item] + site.body[..k], site.body[k]);
  }

  /** One turn inside the body. */
  lemma BodyTurn(g: Graph, w: World, site: Site, entry: seq<Id>, pre: seq<Id>, s: State, m: Moment, k: nat, d: Id)
    requires IsChain(g, site) && entry != [] && Resolved(g, site, entry) && w.cancelAt.None?
    requires k < |site.body| && InBody(site, entry, pre, s, m, k)
    requires d == if k + 1 < |site.body| then site.body[k + 1] else site.item
    requires site.body[k] in g.comp && CleanOne(g, w, m, site.body[k])
    ensures Moved(s, [d], Step(g, w, s), RunOne(g, w, m, site.body[k]))
  {
    var c := site.body[k];
    assert IsLink(g, site, k);
    assert k + 1 < |site.body| ==> IsLink(g, site, k + 1);
    BodyReady(g, site, entry, pre, k);
    assert s.path[..s.idx] == pre + [site.item] + site.body[..k];
    PlainStep(g, w, s, c, d);
  }

  lemma InBodyNext(site: Site, entry: seq<Id>, pre: seq<Id>, s: State, s': State, m: Moment, m': Moment, k: nat, d: Id)
    requires k < |site.body| && InBody(site, entry, pre, s, m, k) && Moved(s, [d], s', m')
    requires d == if k + 1 < |site.body| then site.body[k + 1] else site.item
    ensures k + 1 < |site.body| ==> InBody(site, entry, pre, s', m', k + 1)
    ensures k + 1 == |site.body| ==> s'.path == pre + [site.item] + site.body + [site.item]
  {
    if k + 1 < |site.body| {
      assert site.body[..k + 1] + [d] == site.body[..k + 2];
    } else {
      assert site.body[..k + 1] == site.body;
    }
  }

  /** One turn of a pass: the `i`-th component runs, and what is left to run is the rest of the body. */
  lemma BodyOnce(g: Graph, w: World, site: Site, entry: seq<Id>, pre: seq<Id>, s: State, m: Moment, i: nat)
    returns (s': State, m': Moment)
    requires IsChain(g, site) && entry != [] && Resolved(g, site, entry) && w.cancelAt.None?
    requires i < |site.body| && InBody(site, entry, pre, s, m, i)
    requires Known(g, site.body[i..]) && CleanChain(g, w, m, site.body[i..])
    ensures s' == Step(g, w, s) && s'.cursors == s.cursors
    ensures i + 1 < |site.body| ==> InBody(site, entry, pre, s', m', i + 1)
    ensures i + 1 == |site.body| ==> At(s', m') && s'.path == pre + [site.item] + site.body + [site.item]
    ensures Known(g, site.body[i + 1..]) && CleanChain(g, w, m', site.body[i + 1..])
    ensures RunChain(g, w, m', site.body[i + 1..]) == RunChain(g, w, m, site.body[i..])
  {
    var c := site.body[i];
    var d := if i + 1 < |site.body| then site.body[i + 1] else site.item;
    m' := ChainOnce(g, w, m, site.body, i);
    BodyTurn(g, w, site, entry, pre, s, m, i, d);
    s' := Step(g, w, s);
    InBodyNext(site, entry, pre, s, s', m, m', i, d);
  }

  lemma ChainOnce(g: Graph, w: World, m: Moment, ids: seq<Id>, i: nat) returns (m': Moment)
    requires i < |ids| && Known(g, ids[i..]) && CleanChain(g, w, m, ids[i..])
    ensures ids[i] in g.comp && CleanOne(g, w, m, ids[i]) && m' == RunOne(g, w, m, ids[i])
    ensures Known(g, ids[i + 1..]) && CleanChain(g, w, m', ids[i + 1..])
    ensures RunChain(g, w, m', ids[i + 1..]) == RunChain(g, w, m, ids[i..])
  {
    assert ids[i..][0] == ids[i] && ids[i..][1..] == ids[i + 1..];
    m' := RunOne(g, w, m, ids[i]);
  }

  lemma StepsSnoc(g: Graph, w: World, s: State, n: nat)
    ensures Steps(g, w, s, n + 1) == Step(g, w, Steps(g, w, s, n))
  {
    StepsCompose(g, w, s, n, 1);
    StepsOnce(g, w, Steps(g, w, s, n), 1);
  }

  /** A pass over the body, from its first component to the item: as many turns as there are components. */
  lemma BodyPass(g: Graph, w: World, site: Site, entry: seq<Id>, pre: seq<Id>, s: State, m: Moment)
    requires IsChain(g, site) && entry != [] && Resolved(g, site, entry) && w.cancelAt.None?
    requires InBody(site, entry, pre, s, m, 0)
    requires Known(g, site.body) && CleanChain(g, w, m, site.body)
    ensures var s' := Steps(g, w, s, |site.body|);
            && At(s', RunChain(g, w, m, site.body)) && s'.cursors == s.cursors
            && s'.path == pre + [site.item] + site.body + [site.item]
  {
    var now, moment := s, m;
    assert site.body[0..] == site.body;
    for i := 0 to |site.body|
      invariant now == Steps(g, w, s, i) && now.cursors == s.cursors
      invariant i < |site.body| ==> InBody(site, entry, pre, now, moment, i)
      invariant i == |site.body| ==> At(now, moment) && now.path == pre + [site.item] + site.body + [site.item]
      invariant Known(g, site.body[i..]) && CleanChain(g, w, moment, site.body[i..])
      invariant RunChain(g, w, moment, site.body[i..]) == RunChain(g, w, m, site.body)
    {
      StepsSnoc(g, w, s, i);
      now, moment := BodyOnce(g, w, site, entry, pre, now, moment, i);
    }
    assert site.body[|site.body|..] == [];
  }

  /** `n` passes over a body, as they show in the path. */
  function Rounds(site: Site, n: nat): seq<Id> {
    if n == 0 then [] else Rounds(site, n - 1) + site.body + [site.item]
  }

  /** The turns that `j` passes take. */
  function Turns(site: Site, j: nat): nat { if j == 0 then 0 else Turns(site, j - 1) + (1 + |site.body|) }

  lemma TurnsGoOn(g: Graph, w: World, site: Site, s: State, j: nat, before: State, after: State)
    requires before == Steps(g, w, s, Turns(site, j)) && after == Steps(g, w, before, 1 + |site.body|)
    ensures after == Steps(g, w, s, Turns(site, j + 1))
  {
    StepsCompose(g, w, s, Turns(site, j), 1 + |site.body|);
  }

  // ---------- visits of the item ----------

  /** The token is at the item, whose cursor is `k`, at moment `m`. */
  ghost predicate AtItem(s: State, site: Site, m: Moment, k: int) {
    At(s, m) && Token(s) == site.item && Cursor(s, site.item) == k
  }

  lemma ItemReady(g: Graph, site: Site, entry: seq<Id>, s: State)
    requires IsChain(g, site) && entry != [] && Resolved(g, site, entry)
    requires OneToken(s) && Token(s) == site.item && entry <= s.path[..s.idx]
    ensures TokenReady(g, s)
  {
    assert entry[0] == s.path[..s.idx][0] == s.path[0];
    ReadyMonotone(g, entry[0], entry, s.path[..s.idx], site.item);
  }

  lemma IntoBody(site: Site, entry: seq<Id>, s: State, s': State, m: Moment)
    requires site.body != [] && OneToken(s) && Token(s) == site.item && entry <= s.path[..s.idx]
    requires At(s', m) && s'.path == s.path + [site.body[0]]
    ensures InBody(site, entry, s.path[..s.idx], s', m, 0)
  {
    assert s.path == s.path[..s.idx] + [site.item];
    assert site.body[..1] == [site.body[0]];
  }

  lemma LeaveBody(site: Site, s: State)
    requires OneToken(s) && Token(s) == site.item
    ensures s.path[..s.idx] + [site.item] + site.body + [site.item] == s.path + site.body + [site.item]
  {
    assert s.path == s.path[..s.idx] + [site.item];
  }

  lemma LongerPath(base: seq<Id>, trail: seq<Id>, entry: seq<Id>)
    requires base != [] && entry <= base[..|base| - 1]
    ensures entry <= (base + trail)[..|base + trail| - 1]
  {}

  lemma MoreRounds(site: Site, base: seq<Id>, n: nat)
    ensures base + Rounds(site, n) + site.body + [site.item] == base + Rounds(site, n + 1)
  {}

  /** In the turn from `s` the item ends for good: the parent's downstream is entered, once, with memory `mem`. */
  ghost predicate Left(g: Graph, w: World, site: Site, s: State, mem: Memory) {
    && OneToken(s) && Token(s) in g.comp && site.block in g.comp
    && var done := Processed(g, w, s);
       && done.idx <= |s.path| <= |done.path| && Step(g, w, s) == Settle(g, w, done, |s.path|)
       && done.status.Running? && !done.error
       && done.path == ExtendPath(s.path, g.comp[site.block].downstream)
       && done.mem == mem
       && Cursor(done, site.item) == -1
  }
}
