/** The `once` decorator under threads. */
module Once {
  import opened Wrappers

  /** Where a call of the wrapper is: before the lock, inside it, running the function, about to leave the lock,
      about to read the result, or over. */
  datatype Phase =
    | Outside
    | Waiting
    | Holding
    | Calling
    | Leaving
    | Reading
    | Returned(value: Option<int>)
    | Threw

  /** How the function ended: not at all, normally, or with an exception. */
  datatype Outcome = Pending | Normal(value: int) | Exceptional

  /** `result` is None until the function has returned. `starts` and `outcome` record what the function did. */
  datatype State = State(
    executed: bool,
    result: Option<int>,
    holder: Option<nat>,
    calls: map<nat, Phase>,
    starts: nat,
    outcome: Outcome)

  const START := State(false, None, None, map[], 0, Pending)

  function PhaseOf(s: State, c: nat): Phase { if c in s.calls then s.calls[c] else Outside }

  datatype Event =
    | Arrive(c: nat)
    | Acquire(c: nat)
    | Skip(c: nat)             // executed is already set
    | Begin(c: nat)            // set executed and start the function
    | Return(c: nat, value: int)
    | Throw(c: nat)            // the exception releases the lock and leaves the wrapper
    | Release(c: nat)
    | Read(c: nat)

  predicate Enabled(s: State, e: Event) {
    match e
    case Arrive(c) => PhaseOf(s, c).Outside?
    case Acquire(c) => PhaseOf(s, c).Waiting? && s.holder.None?
    case Skip(c) => PhaseOf(s, c).Holding? && s.executed
    case Begin(c) => PhaseOf(s, c).Holding? && !s.executed
    case Return(c, _) => PhaseOf(s, c).Calling?
    case Throw(c) => PhaseOf(s, c).Calling?
    case Release(c) => PhaseOf(s, c).Leaving?
    case Read(c) => PhaseOf(s, c).Reading?
  }

  function Move(s: State, c: nat, p: Phase): State { s.(calls := s.calls[c := p]) }

  function Apply(s: State, e: Event): State
    requires Enabled(s, e)
  {
    match e
    case Arrive(c) => Move(s, c, Waiting)
    case Acquire(c) => Move(s, c, Holding).(holder := Some(c))
    case Skip(c) => Move(s, c, Leaving)
    case Begin(c) => Move(s, c, Calling).(executed := true, starts := s.starts + 1)
    case Return(c, value) => Move(s, c, Leaving).(result := Some(value), outcome := Normal(value))
    case Throw(c) => Move(s, c, Threw).(holder := None, outcome := Exceptional)
    case Release(c) => Move(s, c, Reading).(holder := None)
    case Read(c) => Move(s, c, Returned(s.result))
  }

  function Run(s: State, events: seq<Event>): State
    decreases |events|
  {
    if events == [] then s else Run(if Enabled(s, events[0]) then Apply(s, events[0]) else s, events[1..])
  }

  predicate InLock(p: Phase) { p.Holding? || p.Calling? || p.Leaving? }

  /** What a finished call may have returned. */
  predicate Agrees(s: State, v: Option<int>) {
    match s.outcome
    case Pending => false
    case Normal(value) => v == Some(value)
    case Exceptional => v == None
  }

  ghost predicate CallOk(s: State, c: nat) {
    var p := PhaseOf(s, c);
    && (InLock(p) <==> s.holder == Some(c))
    && (p.Calling? ==> s.executed && s.outcome.Pending?)
    && (p.Leaving? || p.Reading? || p.Threw? ==> !s.outcome.Pending?)
    && (p.Returned? ==> Agrees(s, p.value))
  }

  /** The function has been started once if `executed` is set, and while it runs its caller holds the lock. */
  ghost predicate Inv(s: State) {
    && s.starts == (if s.executed then 1 else 0)
    && (!s.executed ==> s.outcome.Pending?)
    && (s.executed && s.outcome.Pending? ==> s.holder.Some? && PhaseOf(s, s.holder.value).Calling?)
    && s.result == (if s.outcome.Normal? then Some(s.outcome.value) else None)
    && forall c: nat :: CallOk(s, c)
  }

  lemma ApplyKeepsInv(s: State, e: Event)
    requires Inv(s) && Enabled(s, e)
    ensures Inv(Apply(s, e))
  {
    assert CallOk(s, e.c);
    if s.holder.Some? { assert CallOk(s, s.holder.value); }
    forall c: nat ensures CallOk(Apply(s, e), c) { assert CallOk(s, c); }
  }

  lemma {:induction false} RunKeepsInv(s: State, events: seq<Event>)
    requires Inv(s)
    ensures Inv(Run(s, events))
    decreases |events|
  {
    if events != [] {
      if Enabled(s, events[0]) { ApplyKeepsInv(s, events[0]); }
      RunKeepsInv(if Enabled(s, events[0]) then Apply(s, events[0]) else s, events[1..]);
    }
  }

  /** In every interleaving of calls the function starts at most once. */
  lemma StartsAtMostOnce(events: seq<Event>)
    ensures Run(START, events).starts <= 1
  {
    RunKeepsInv(START, events);
  }

  /** No call returns before the function has ended; when it ended normally every call that returns has its one result,
      and when it raised every other call returns nothing. */
  lemma EveryCallAgrees(events: seq<Event>, c: nat)
    requires PhaseOf(Run(START, events), c).Returned?
    ensures var s := Run(START, events); Agrees(s, PhaseOf(s, c).value)
  {
    RunKeepsInv(START, events);
    assert CallOk(Run(START, events), c);
  }

  /** The outcome of the function is final. */
  lemma {:induction false} OutcomeIsFinal(s: State, events: seq<Event>)
    requires Inv(s) && !s.outcome.Pending?
    ensures Run(s, events).outcome == s.outcome
    decreases |events|
  {
    if events != [] {
      if Enabled(s, events[0]) {
        assert CallOk(s, events[0].c);
        ApplyKeepsInv(s, events[0]);
      }
      OutcomeIsFinal(if Enabled(s, events[0]) then Apply(s, events[0]) else s, events[1..]);
    }
  }

  /** Event number `k` ended the function with `outcome`. */
  ghost predicate EndsFunction(s: State, events: seq<Event>, k: nat, outcome: Outcome) {
    && k < |events| && Enabled(Run(s, events[..k]), events[k])
    && match outcome
       case Pending => false
       case Normal(value) => events[k].Return? && events[k].value == value
       case Exceptional => events[k].Throw?
  }

  lemma EndsLater(s: State, events: seq<Event>, k: nat, outcome: Outcome)
    requires events != []
    requires EndsFunction(if Enabled(s, events[0]) then Apply(s, events[0]) else s, events[1..], k, outcome)
    ensures EndsFunction(s, events, k + 1, outcome)
  {
    assert events[..k + 1][1..] == events[1..][..k];
  }

  /** The outcome is the one with which the function ended: the value that it returned in some call, or its exception.
      */
  lemma {:induction false} OutcomeHappened(s: State, events: seq<Event>)
    requires Inv(s) && s.outcome.Pending? && !Run(s, events).outcome.Pending?
    ensures exists k: nat :: EndsFunction(s, events, k, Run(s, events).outcome)
    decreases |events|
  {
    var next := if Enabled(s, events[0]) then Apply(s, events[0]) else s;
    if Enabled(s, events[0]) { ApplyKeepsInv(s, events[0]); }
    if next.outcome.Pending? {
      OutcomeHappened(next, events[1..]);
      var k: nat :| EndsFunction(next, events[1..], k, Run(s, events).outcome);
      EndsLater(s, events, k, Run(s, events).outcome);
    } else {
      OutcomeIsFinal(next, events[1..]);
      assert events[..0] == [] && EndsFunction(s, events, 0, next.outcome);
    }
  }
}
