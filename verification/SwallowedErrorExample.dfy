/** One workflow with a default value for the errors of its iteration item: in one environment its run never ends, in
    all that keep its output a list it does. */
module SwallowedErrorExample {
  import opened Wrappers
  import opened WorkflowGraph
  import opened Components
  import opened CollationEffect
  import opened Scheduler
  import opened SingleToken
  import opened BodyChain
  import opened IterationMap
  import opened SwallowedError
  import Termination

  // ---------- a run that never ends ----------

  /** Begin, then an iteration over the array `sys.a` whose output `out` collects the output `x` of its only component;
      the item has a default value for its errors. */
  function Workflow(comment: bool): Graph {
    Graph(["begin", "it", "item", "b"],
          map["begin" := Component(Begin, ["it"], None, [], None),
              "it" := Component(Iteration(Global("sys.a"), [Collect("out", "b", "x")]), [], None, [], None),
              "item" := Component(IterationItem, ["b"], Some("it"), [], Some(Handler([], Str("none"), comment))),
              "b" := Component(Other, [], Some("it"), [], None)])
  }

  function Place(): Site { Site("it", "item", ["b"]) }

  const ARRAY: seq<Value> := [Num(1.0), Num(2.0)]

  const GLOBALS: map<string, Value> := map["sys.a" := List(ARRAY)]

  /** A canvas that has not run yet. */
  const FRESH := State([], 0, [], false, Memory(map[], map[]), map[], 0, [], Idle, {}, [])

  /** The component in the body writes a text where its values are to be collected; the others do nothing. */
  function Writer(): World {
    World((_, id, mem) => if id == "b" then SetOut(mem, "it", "out", Str("text")) else mem,
          (_, _, mem) => (mem, ""),
          None)
  }

  lemma PlaceIsIteration(comment: bool)
    ensures IsIteration(Workflow(comment), Writer(), Place(), ["begin", "it"]) && Swallows(Workflow(comment), "item")
    ensures ArrayElsewhere(Workflow(comment), Place())
  {
    var g, site := Workflow(comment), Place();
    assert g.order[1..] == ["it", "item", "b"] && g.order[1..][1..] == ["item", "b"];
    assert FirstItem(g, "it", true, g.order) == FirstItem(g, "it", true, g.order[1..])
        == FirstItem(g, "it", true, g.order[1..][1..]) == "item";
    assert StartOf(g, "it") == "item";
    assert IsLink(g, site, 0);
    assert LinkResolved(g, site, ["begin", "it"], 0);
  }

  lemma WriterBlocks(comment: bool)
    ensures Known(Workflow(comment), Place().body) && BodyKeeps(Workflow(comment), Writer(), Place(), 0)
  {
    var g, w, site := Workflow(comment), Writer(), Place();
    forall m: Moment | Blocked(g, site, m.mem, 0)
      ensures CleanChain(g, w, m, site.body) && Blocked(g, site, RunChain(g, w, m, site.body).mem, 0)
    {
      assert "b" in site.body;
      RunWriter(comment, m);
    }
  }

  lemma RunWriter(comment: bool, m: Moment)
    requires !HasError(m.mem, "b")
    ensures Known(Workflow(comment), ["b"]) && CleanChain(Workflow(comment), Writer(), m, ["b"])
    ensures RunChain(Workflow(comment), Writer(), m, ["b"])
            == Moment(SetOut(m.mem, "it", "out", Str("text")), m.tick + 1)
  {
    assert ["b"][1..] == [];
  }

  /** Begin hands over to the iteration. */
  lemma BeginStep(comment: bool) returns (s: State)
    ensures s == Step(Workflow(comment), Writer(), StartRun(Writer(), FRESH, GLOBALS))
    ensures At(s, Moment(Memory(map[], GLOBALS), 2)) && s.path == ["begin", "it"] && s.cursors == map[]
  {
    var g, w := Workflow(comment), Writer();
    var start := StartRun(w, FRESH, GLOBALS);
    assert start.mem.outputs == map[] && start.path == ["begin"];
    SingleStep(g, w, start);
    BeginPosts(comment, start);
    SettleOnOne(g, w, Processed(g, w, start), 1);
    s := Step(g, w, start);
  }

  lemma BeginPosts(comment: bool, s: State)
    requires OneToken(s) && s.path == ["begin"] && !s.error && s.mem == Memory(map[], GLOBALS)
    ensures var s' := Processed(Workflow(comment), Writer(), s);
            s' == s.(tick := s.tick + 1, events := s'.events, ran := s'.ran, partials := s'.partials,
                     path := ["begin", "it"])
  {
    ExtendByOne(s.path, "it");
    assert s.path + ["it"] == ["begin", "it"];
  }

  /** The iteration hands over to its item. */
  lemma EnterStep(comment: bool, s: State) returns (s': State)
    requires At(s, Moment(Memory(map[], GLOBALS), 2)) && s.path == ["begin", "it"] && s.cursors == map[]
    ensures s' == Step(Workflow(comment), Writer(), s)
    ensures AtItem(s', Place(), Moment(Memory(map[], GLOBALS), 3), 0) && s'.path == ["begin", "it", "item"]
  {
    PlaceIsIteration(comment);
    EntersBlock(Workflow(comment), Writer(), Place(), s, ARRAY);
    s' := Step(Workflow(comment), Writer(), s);
  }

  /** From `m0` the first pass runs without errors and leads to `m`. */
  ghost predicate PassReady(g: Graph, w: World, site: Site, arr: seq<Value>, m0: Moment, m: Moment)
    requires Known(g, site.body) && site.block in g.comp && g.comp[site.block].kind.Iteration?
  {
    && AllCollectable(m0.mem, site.block, Collects(g, site)) && arr != []
    && Lookup(g, m0.mem, g.comp[site.block].kind.itemsRef) == Ok(List(arr)) && !HasError(m0.mem, site.item)
    && CleanChain(g, w, Hand(g, site, arr, m0, 0), site.body)
    && m == RunChain(g, w, Hand(g, site, arr, m0, 0), site.body)
  }

  lemma FirstWritten(comment: bool, m0: Moment) returns (m: Moment)
    requires m0.mem == Memory(map[], GLOBALS)
    ensures PassReady(Workflow(comment), Writer(), Place(), ARRAY, m0, m)
    ensures Blocked(Workflow(comment), Place(), m.mem, 0)
  {
    var handed := Hand(Workflow(comment), Place(), ARRAY, m0, 0);
    RunWriter(comment, handed);
    m := RunChain(Workflow(comment), Writer(), handed, Place().body);
  }

  /** The item hands out the first element, and the body runs. */
  lemma PassOf(g: Graph, w: World, site: Site, entry: seq<Id>, arr: seq<Value>, s: State, m0: Moment, m: Moment)
    returns (s': State)
    requires IsIteration(g, w, site, entry) && PassReady(g, w, site, arr, m0, m)
    requires AtItem(s, site, m0, 0) && entry <= s.path[..s.idx]
    ensures s' == Steps(g, w, s, 1 + |site.body|)
    ensures AtItem(s', site, m, 1) && entry <= s'.path[..s'.idx]
  {
    OnePass(g, w, site, entry, arr, s, m0, 0);
    s' := Steps(g, w, s, 1 + |site.body|);
  }

  lemma FromFirstVisit(comment: bool, s: State) returns (s': State, m: Moment)
    requires AtItem(s, Place(), Moment(Memory(map[], GLOBALS), 3), 0) && s.path == ["begin", "it", "item"]
    ensures s' == Steps(Workflow(comment), Writer(), s, 2)
    ensures BlockedAt(Workflow(comment), Place(), ["begin", "it"], s', m, 1, 0)
  {
    PlaceIsIteration(comment);
    m := FirstWritten(comment, Moment(Memory(map[], GLOBALS), 3));
    s' := PassOf(Workflow(comment), Writer(), Place(), ["begin", "it"], ARRAY, s, Moment(Memory(map[], GLOBALS), 3), m);
  }

  /** The run of this workflow from its start to the second visit of the item. */
  lemma SecondVisit(comment: bool) returns (s: State, m: Moment)
    ensures s == Steps(Workflow(comment), Writer(), StartRun(Writer(), FRESH, GLOBALS), 4)
    ensures BlockedAt(Workflow(comment), Place(), ["begin", "it"], s, m, 1, 0)
  {
    var s1 := BeginStep(comment);
    var s2 := EnterStep(comment, s1);
    s, m := FromFirstVisit(comment, s2);
    FourSteps(Workflow(comment), Writer(), StartRun(Writer(), FRESH, GLOBALS), s1, s2, s);
  }

  lemma FourSteps(g: Graph, w: World, start: State, s1: State, s2: State, s4: State)
    requires s1 == Step(g, w, start) && s2 == Step(g, w, s1) && s4 == Steps(g, w, s2, 2)
    ensures s4 == Steps(g, w, start, 4)
  {
    StepsOnce(g, w, start, 4);
    StepsOnce(g, w, s1, 3);
  }

  /** The run of this workflow from its start does not end. */
  lemma WorkflowNeverEnds(comment: bool, n: nat)
    ensures Steps(Workflow(comment), Writer(), StartRun(Writer(), FRESH, GLOBALS), n).status.Running?
  {
    var g, w := Workflow(comment), Writer();
    var start := StartRun(w, FRESH, GLOBALS);
    PlaceIsIteration(comment);
    WriterBlocks(comment);
    var s, m := SecondVisit(comment);
    var later := LaterFromVisit(g, w, start, s, m, n);
    RunningBefore(g, w, start, n, 4 + n, later);
  }

  lemma LaterFromVisit(g: Graph, w: World, start: State, s: State, m: Moment, n: nat) returns (later: State)
    requires g.comp.Keys >= {"it"} && g.comp["it"].kind.Iteration? && s == Steps(g, w, start, 4)
    requires IsIteration(g, w, Place(), ["begin", "it"]) && Swallows(g, "item") && ArrayElsewhere(g, Place())
    requires BlockedAt(g, Place(), ["begin", "it"], s, m, 1, 0) && BodyKeeps(g, w, Place(), 0)
    ensures later == Steps(g, w, start, 4 + n) && later.status.Running?
  {
    SwallowedErrorNeverEnds(g, w, Place(), ["begin", "it"], s, m, 1, 0, n);
    StepsCompose(g, w, start, 4, n);
    later := Steps(g, w, s, n);
  }

  // ---------- runs that end ----------

  /** No component writes to the output or the array of the workflow anything but what can be collected. */
  ghost predicate Harmless(w: World) {
    && (forall t, id, mem :: KeepsSound(mem, w.invoke(t, id, mem)))
    && (forall t, id, mem :: KeepsSound(mem, w.stream(t, id, mem).0))
  }

  ghost predicate Sound(mem: Memory) { mem.globals == GLOBALS && Collectable(GetOut(mem, "it", "out")) }

  ghost predicate KeepsSound(mem: Memory, mem': Memory) { Sound(mem) ==> Sound(mem') }

  lemma SetSound(mem: Memory, id: Id, key: string, v: Value)
    requires Sound(mem) && (key != "out" || Collectable(v))
    ensures Sound(SetOut(mem, id, key, v))
  {}

  lemma FailSound(comment: bool, mem: Memory, id: Id)
    requires id in Workflow(comment).comp && Sound(mem)
    ensures Sound(Fail(Workflow(comment), mem, id)) && Sound(MarkCanceled(mem, id))
  {}

  lemma CollationSound(comment: bool, mem: Memory) returns (c: Collation)
    requires Sound(mem)
    ensures c == CollateAll(Workflow(comment), mem, "it", [Collect("out", "b", "x")], Workflow(comment).order)
    ensures Sound(c.mem)
  {
    var g, collects := Workflow(comment), [Collect("out", "b", "x")];
    c := CollateAll(g, mem, "it", collects, g.order);
    CollateAllRaisesIff(g, mem, "it", collects, g.order);
  }

  lemma PresentSound(mem: Memory, v: Value, idx: int)
    requires Sound(mem)
    ensures Sound(Present(mem, "item", v, idx))
  {
    SetSound(mem, "item", "item", v);
    SetSound(SetOut(mem, "item", "item", v), "item", "index", Num(idx as real));
  }

  lemma ItemSound(comment: bool, w: World, tick: nat, mem: Memory, idx: int)
    requires Sound(mem)
    ensures Sound(InvokeIterationItem(Workflow(comment), w, tick, mem, idx, "item").mem)
  {
    var c := CollationSound(comment, mem);
    var now := if idx > 0 then c.mem else mem;
    FailSound(comment, mem, "item");
    FailSound(comment, now, "item");
    if 0 <= idx < |ARRAY| || -|ARRAY| <= idx < 0 { PresentSound(now, PyIndex(ARRAY, idx).value, idx); }
  }

  lemma InvokeSound(comment: bool, w: World, s: State, id: Id)
    requires Harmless(w) && id in Workflow(comment).comp && Sound(s.mem)
    ensures Sound(Invoke(Workflow(comment), w, s, id).mem)
  {
    if id == "item" {
      ItemSound(comment, w, s.tick, s.mem, Cursor(s, id));
    } else if id != "it" {
      assert KeepsSound(s.mem, w.invoke(s.tick, id, s.mem));
    }
  }

  lemma {:induction false} InvokeAllSound(comment: bool, w: World, s: State, ids: seq<Id>)
    requires Harmless(w) && Known(Workflow(comment), ids) && Sound(s.mem)
    ensures Sound(InvokeAll(Workflow(comment), w, s, ids).mem)
    decreases |ids|
  {
    if ids != [] {
      InvokeSound(comment, w, s, ids[0]);
      InvokeAllSound(comment, w, Invoke(Workflow(comment), w, s, ids[0]), ids[1..]);
    }
  }

  lemma {:induction false} PostAllSound(comment: bool, w: World, s: State, ids: seq<Id>)
    requires Known(Workflow(comment), ids) && Sound(s.mem)
    ensures Sound(PostAll(Workflow(comment), w, s, ids).mem)
    decreases |ids|
  {
    if ids != [] && !s.status.Raised? {
      PostOneSound(comment, w, s, ids[0]);
      PostAllSound(comment, w, PostOne(Workflow(comment), w, s, ids[0]), ids[1..]);
    }
  }

  lemma PostOneSound(comment: bool, w: World, s: State, id: Id)
    requires id in Workflow(comment).comp && Sound(s.mem)
    ensures Sound(PostOne(Workflow(comment), w, s, id).mem)
  {
    assert Speak(Workflow(comment), w, s, id) == s;
    SetSound(s.mem, id, "content", Null);
  }

  lemma SettleSound(comment: bool, w: World, s: State, to: nat)
    requires Harmless(w) && s.idx <= to <= |s.path| && Sound(s.mem)
    ensures Sound(Settle(Workflow(comment), w, s, to).mem)
  {
    var pending := s.path[to..];
    if Known(Workflow(comment), pending) {
      InvokeAllSound(comment, w, s.(idx := to), Forms(Workflow(comment), pending, true));
    }
  }

  lemma BatchSound(comment: bool, w: World, s: State)
    requires Harmless(w) && s.idx <= |s.path| && Known(Workflow(comment), s.path[s.idx..]) && Sound(s.mem)
    ensures Sound(RunBatch(Workflow(comment), w, s).mem)
  {
    var g, batch, before := Workflow(comment), s.path[s.idx..], s.path[..s.idx];
    var kept := Kept(g, before, batch);
    InvokeAllSound(comment, w, s.(events := s.events + Announce(batch), path := before + kept,
                                  popped := s.popped + Dropped(g, before, batch),
                                  ran := s.ran + Span(s.idx, s.idx + |kept|)), kept);
  }

  lemma StepSound(comment: bool, w: World, s: State)
    requires Harmless(w) && Sound(s.mem)
    ensures Sound(Step(Workflow(comment), w, s).mem)
  {
    if s.status.Running? && s.idx < |s.path| && Known(Workflow(comment), s.path[s.idx..]) {
      BatchSound(comment, w, s);
      if !Canceled(w, s.tick, 0) { PostedSound(comment, w, s); }
    }
  }

  lemma PostedSound(comment: bool, w: World, s: State)
    requires s.status.Running? && s.idx < |s.path| && Known(Workflow(comment), s.path[s.idx..]) && Harmless(w)
    requires !Canceled(w, s.tick, 0) && Sound(RunBatch(Workflow(comment), w, s).mem)
    ensures Sound(Step(Workflow(comment), w, s).mem)
  {
    BatchShape(Workflow(comment), w, s);
    var invoked := RunBatch(Workflow(comment), w, s);
    PostAllSound(comment, w, invoked, invoked.path[s.idx..]);
    SettleSound(comment, w, PostAll(Workflow(comment), w, invoked, invoked.path[s.idx..]), |invoked.path|);
  }

  lemma {:induction false} StepsSound(comment: bool, w: World, s: State, n: nat)
    requires Harmless(w) && Sound(s.mem)
    ensures Sound(Steps(Workflow(comment), w, s, n).mem)
    decreases n
  {
    if n > 0 {
      StepSound(comment, w, s);
      StepsSound(comment, w, Step(Workflow(comment), w, s), n - 1);
    }
  }

  /** The workflow with a numbering of its components. */
  function Numbered(comment: bool): Termination.NumberedGraph {
    Termination.NumberedGraph(Workflow(comment),
      Termination.Topology(map["begin" := 0, "it" := 0, "item" := 1, "b" := 1],
                           map["begin" := 2, "it" := 1, "item" := 0, "b" := 1], 1, 2, 2))
  }

  lemma LevelsFit(comment: bool)
    ensures var g, t := Workflow(comment), Numbered(comment).t; forall c <- g.comp :: Termination.LevelOk(g, t, c)
  {}

  lemma EdgesFit(comment: bool)
    ensures var g, t := Workflow(comment), Numbered(comment).t;
            && (forall c <- g.comp :: Termination.LevelOk(g, t, c))
            && (forall c <- g.comp :: |g.comp[c].downstream| <= 1)
            && (forall c <- g.comp, d <- g.comp[c].downstream :: Termination.Edge(g, t, c, d))
  {
    var g, t := Workflow(comment), Numbered(comment).t;
    LevelsFit(comment);
    forall c <- g.comp, d <- g.comp[c].downstream ensures Termination.Edge(g, t, c, d) {
      assert (c == "begin" && d == "it") || (c == "item" && d == "b");
    }
  }

  lemma ItemStarts(comment: bool)
    ensures forall p :: HasParent(Workflow(comment), "item", p) ==> StartOf(Workflow(comment), p) == "item"
  {
    PlaceIsIteration(comment);
    assert StartOf(Workflow(comment), Place().block) == Place().item;
  }

  lemma ItemsFit(comment: bool)
    ensures var g, t := Workflow(comment), Numbered(comment).t;
            && (forall c <- g.comp :: Termination.LevelOk(g, t, c))
            && (forall c <- g.comp :: IsItem(g.comp[c].kind) ==>
                  t.pos[c] == 0 && (forall p :: HasParent(g, c, p) ==> StartOf(g, p) == c))
            && (forall c <- g.comp :: !IsItem(g.comp[c].kind) ==> t.pos[c] > 0)
            && (forall c <- g.comp :: g.comp[c].kind.Loop? ==> g.comp[c].kind.maximum <= t.limit)
  {
    LevelsFit(comment);
    ItemStarts(comment);
    var g := Workflow(comment);
    assert forall c <- g.comp :: IsItem(g.comp[c].kind) ==> c == "item";
  }

  lemma HandlersFit(comment: bool)
    ensures var g, t := Workflow(comment), Numbered(comment).t;
            && (forall c <- g.comp :: Termination.LevelOk(g, t, c))
            && (forall c <- g.comp :: g.comp[c].handler.Some? ==> |g.comp[c].handler.value.goto| <= 1)
            && (forall c <- g.comp :: g.comp[c].handler.Some? ==>
                  forall d <- g.comp[c].handler.value.goto :: Termination.Jump(g, t, c, d))
  {
    LevelsFit(comment);
    var g := Workflow(comment);
    assert forall c <- g.comp :: g.comp[c].handler.Some? ==> g.comp[c].handler.value.goto == [];
  }

  lemma WorkflowIsAcyclic(comment: bool)
    ensures Termination.Acyclic(Workflow(comment), Numbered(comment).t)
  {
    EdgesFit(comment);
    ItemsFit(comment);
    HandlersFit(comment);
  }

  lemma SoundIsTame(comment: bool, f: Termination.Flow, s: State)
    requires f.g == Workflow(comment) && f.t.limit == 2 && Sound(s.mem)
    ensures Termination.Tame(f, s.mem)
  {}

  lemma SoundProgresses(comment: bool, f: Termination.Flow, s: State)
    requires f.g == Workflow(comment) && Sound(s.mem)
    ensures Termination.Progresses(f, s)
  {
    CollateAllRaisesIff(f.g, s.mem, "it", f.g.comp["it"].kind.collects, f.g.order);
  }

  /** The same workflow, default value and all, halts in every environment that leaves its array alone and its output
      empty or a list: at most Horizon + 1 turns after the start of a run, from any canvas. */
  lemma HarmlessRunHalts(comment: bool, w: World, s: State)
    requires Harmless(w) && Termination.CursorsOk(s)
    ensures var turns := Termination.Horizon(Numbered(comment).t) + 1;
            !Steps(Workflow(comment), w, StartRun(w, s, GLOBALS), turns).status.Running?
  {
    var f := WorkflowFlow(comment);
    StartSound(w, s);
    HarmlessIsTame(comment, f, w, StartRun(w, s, GLOBALS));
    Termination.EveryRunHalts(f, w, s, GLOBALS);
  }

  lemma StartSound(w: World, s: State)
    ensures Sound(StartRun(w, s, GLOBALS).mem)
  {}

  lemma WorkflowFlow(comment: bool) returns (f: Termination.Flow)
    ensures f == Numbered(comment)
  {
    WorkflowIsAcyclic(comment);
    f := Numbered(comment);
  }

  lemma HarmlessIsTame(comment: bool, f: Termination.Flow, w: World, start: State)
    requires f.g == Workflow(comment) && f.t.limit == 2 && Harmless(w) && Sound(start.mem)
    ensures Termination.AlwaysTame(f, w, start)
  {
    forall k: nat ensures Termination.TameAt(f, w, start, k) {
      StepsSound(comment, w, start, k);
      SoundIsTame(comment, f, Steps(f.g, w, start, k));
      SoundProgresses(comment, f, Steps(f.g, w, start, k));
    }
  }
}
