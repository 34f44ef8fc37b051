/** Runs with one token: the batch is always the last entry of the path. */
module SingleToken {
  import opened WorkflowGraph
  import opened Scheduler

  ghost predicate OneToken(s: State) { s.status.Running? && s.idx + 1 == |s.path| }

  function Token(s: State): Id
    requires OneToken(s)
  {
    s.path[s.idx]
  }

  /** The state in which the only entry of the batch is invoked. */
  function Entered(s: State): State
    requires OneToken(s)
  {
    s.(events := s.events + [Started(s.path[s.idx])], ran := s.ran + {s.idx})
  }

  function Processed(g: Graph, w: World, s: State): State
    requires OneToken(s) && Token(s) in g.comp
  {
    PostOne(g, w, Invoke(g, w, Entered(s), Token(s)), Token(s))
  }

  predicate TokenReady(g: Graph, s: State)
    requires OneToken(s) && Token(s) in g.comp
  {
    Ready(g, s.path[0], s.path[..s.idx], Token(s))
  }

  lemma SpanOfOne(i: nat)
    ensures Span(i, i + 1) == {i}
  {}

  /** One turn with one token: invoke it, post-process it, settle. */
  lemma SingleStep(g: Graph, w: World, s: State)
    requires OneToken(s) && Token(s) in g.comp && TokenReady(g, s) && !Canceled(w, s.tick, 0)
    ensures s.idx <= |s.path| <= |Processed(g, w, s).path| && Processed(g, w, s).idx == s.idx
    ensures Step(g, w, s) == Settle(g, w, Processed(g, w, s), |s.path|)
  {
    var c := Token(s);
    var before, batch := s.path[..s.idx], s.path[s.idx..];
    assert batch == [c] && before + [c] == s.path;
    assert Known(g, batch);
    assert Kept(g, before, batch) == [c] && Dropped(g, before, batch) == [];
    assert Announce(batch) == [Started(c)];
    SpanOfOne(s.idx);
    var started := s.(path := before + [c], events := s.events + Announce(batch),
                      popped := s.popped + [], ran := s.ran + Span(s.idx, s.idx + 1));
    assert started == Entered(s);
    var invoked := Invoke(g, w, started, c);
    assert [c][1..] == [] && InvokeAll(g, w, started, [c]) == InvokeAll(g, w, invoked, []) == invoked;
    assert RunBatch(g, w, s) == invoked;
    BatchShape(g, w, s);
    assert invoked.path[s.idx..] == [c];
    assert PostAll(g, w, invoked, [c]) == PostAll(g, w, PostOne(g, w, invoked, c), []) == PostOne(g, w, invoked, c);
  }

  /** A token that is not ready, unknown or canceled ends the run. */
  lemma BlockedStep(g: Graph, w: World, s: State)
    requires OneToken(s)
    requires Token(s) !in g.comp || !TokenReady(g, s) || Canceled(w, s.tick, 0)
    ensures !Step(g, w, s).status.Running?
  {
    var c := Token(s);
    var before, batch := s.path[..s.idx], s.path[s.idx..];
    assert batch == [c] && before + [c] == s.path;
    if Known(g, batch) && !Canceled(w, s.tick, 0) {
      assert Kept(g, before, batch) == [];
      BatchShape(g, w, s);
    }
  }

  /** No handler takes an error of `id` over: there is none, or it has neither a default value nor a jump. */
  predicate GivesUp(g: Graph, id: Id)
    requires id in g.comp
  {
    g.comp[id].handler.Some? ==> g.comp[id].handler.value.goto == [] && !Truthy(g.comp[id].handler.value.default)
  }

  /** An item that fails without a handler taking over ends the run. */
  lemma FailedItemEnds(g: Graph, w: World, s: State)
    requires OneToken(s) && Token(s) in g.comp && IsItem(g.comp[Token(s)].kind)
    requires GivesUp(g, Token(s))
    requires HasError(Invoke(g, w, Entered(s), Token(s)).mem, Token(s))
    requires TokenReady(g, s) && !Canceled(w, s.tick, 0)
    ensures !Step(g, w, s).status.Running?
  {
    SingleStep(g, w, s);
  }
}
