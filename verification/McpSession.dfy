/** The request queue of an MCP session, its worker and its close protocol, as a state machine over the steps of
    their coroutines on the session's event loop. */
module McpSession {

  datatype Reply = Answer | Failure | Closing

  /** The worker tests the close flag, waits on the queue, works on a task, or has left its loop. */
  datatype Worker = Checking | Waiting | Holding(task: nat) | Stopped

  datatype Closer = Open | Draining | Drained

  /** Tasks are numbered in the order of submission. `replies` holds what was put into each task's own result
      queue; `answered` lists the tasks the worker replied to, in order. */
  datatype Session = Session(
    submitted: nat,
    queue: seq<nat>,
    worker: Worker,
    closer: Closer,
    replies: seq<seq<Reply>>,
    answered: seq<nat>,
    lost: set<nat>)

  predicate Closed(s: Session) { !s.closer.Open? }

  datatype Event =
    | Submit          // _call_mcp_server: refused once the session is closed
    | Check           // the head of the worker's loop
    | Timeout         // nothing arrived within a second
    | Take            // the worker gets a task
    | Finish(r: Reply)  // the worker puts the reply
    | CancelWait      // the worker is canceled while waiting,
    | CancelTake      // ... when a task had already been taken for it,
    | CancelWork      // ... or while it works on a task or replies
    | Restart         // the transport failed: tasks are processed again, with an error message
    | Close           // close() sets the flag
    | Drain           // ... answers a queued task
    | DrainEnd        // ... finds the queue empty

  predicate Enabled(s: Session, e: Event) {
    match e
    case Submit => !Closed(s)
    case Check => s.worker.Checking?
    case Timeout => s.worker.Waiting?
    case Take => s.worker.Waiting? && s.queue != []
    case Finish(r) => s.worker.Holding? && !r.Closing? && s.worker.task < |s.replies|
    case CancelWait => s.worker.Waiting?
    case CancelTake => s.worker.Waiting? && s.queue != []
    case CancelWork => s.worker.Holding?
    case Restart => s.worker.Stopped?
    case Close => !Closed(s)
    case Drain => s.closer.Draining? && s.queue != [] && s.queue[0] < |s.replies|
    case DrainEnd => s.closer.Draining? && s.queue == []
  }

  function PutReply(s: Session, t: nat, r: Reply): Session
    requires t < |s.replies|
  {
    s.(replies := s.replies[t := s.replies[t] + [r]])
  }

  function Apply(s: Session, e: Event): Session
    requires Enabled(s, e)
  {
    match e
    case Submit => s.(submitted := s.submitted + 1, queue := s.queue + [s.submitted], replies := s.replies + [[]])
    case Check => s.(worker := if Closed(s) then Stopped else Waiting)
    case Timeout => s.(worker := Checking)
    case Take => s.(worker := Holding(s.queue[0]), queue := s.queue[1..])
    case Finish(r) => PutReply(s, s.worker.task, r).(worker := Checking, answered := s.answered + [s.worker.task])
    case CancelWait => s.(worker := Stopped)
    case CancelTake => s.(worker := Stopped, queue := s.queue[1..], lost := s.lost + {s.queue[0]})
    case CancelWork => s.(worker := Stopped, lost := s.lost + {s.worker.task})
    case Restart => s.(worker := Checking)
    case Close => s.(closer := Draining)
    case Drain => PutReply(s, s.queue[0], Closing).(queue := s.queue[1..])
    case DrainEnd => s.(closer := Drained)
  }

  const FRESH := Session(0, [], Checking, Open, [], [], {})

  /** An event that is not enabled cannot happen; it is passed over. */
  function Run(s: Session, events: seq<Event>): Session
    decreases |events|
  {
    if events == [] then s else Run(if Enabled(s, events[0]) then Apply(s, events[0]) else s, events[1..])
  }

  // ---------- where a task is ----------

  predicate IsQueued(s: Session, t: nat) { t in s.queue }

  predicate InHand(s: Session, t: nat) { s.worker == Holding(t) }

  predicate IsAnswered(s: Session, t: nat) { t < |s.replies| && s.replies[t] != [] }

  predicate IsLost(s: Session, t: nat) { t in s.lost }

  /** The queue is the tail of the submissions. Every task before it has met exactly one fate; the worker takes
      tasks in order. */
  ghost predicate Inv(s: Session) {
    && |s.queue| <= s.submitted == |s.replies|
    && (forall i :: 0 <= i < |s.queue| ==> s.queue[i] == s.submitted - |s.queue| + i)
    && (forall t: nat :: t < s.submitted ==> Fate(s, t))
    && (s.worker.Holding? ==> s.worker.task < s.submitted - |s.queue|)
    && (forall t <- s.lost :: t < s.submitted - |s.queue|)
    && (forall i, j :: 0 <= i < j < |s.answered| ==> s.answered[i] < s.answered[j])
    && (forall t <- s.answered :: t < s.submitted - |s.queue|)
    && (s.worker.Holding? ==> forall t <- s.answered :: t < s.worker.task)
    && (s.closer.Drained? ==> s.queue == [])
  }

  ghost predicate Fate(s: Session, t: nat)
    requires |s.queue| <= s.submitted == |s.replies| && t < s.submitted
  {
    if t >= s.submitted - |s.queue| then s.replies[t] == []
    else if InHand(s, t) then s.replies[t] == [] && !IsLost(s, t)
    else if IsLost(s, t) then s.replies[t] == []
    else |s.replies[t]| == 1
  }

  lemma ApplyKeepsInv(s: Session, e: Event)
    requires Inv(s) && Enabled(s, e)
    ensures Inv(Apply(s, e))
  {
    var s' := Apply(s, e);
    forall t: nat | t < s'.submitted ensures Fate(s', t) {
      if t < s.submitted { assert Fate(s, t); }
    }
    if e.Take? || e.CancelTake? || e.Drain? { assert s.queue[0] == s.submitted - |s.queue|; }
    if e.Finish? {
      forall i | 0 <= i < |s.answered| ensures s.answered[i] < s.worker.task { assert s.answered[i] in s.answered; }
    }
  }

  lemma {:induction false} RunKeepsInv(s: Session, events: seq<Event>)
    requires Inv(s)
    ensures Inv(Run(s, events))
    decreases |events|
  {
    if events != [] {
      if Enabled(s, events[0]) { ApplyKeepsInv(s, events[0]); }
      RunKeepsInv(if Enabled(s, events[0]) then Apply(s, events[0]) else s, events[1..]);
    }
  }

  function One(b: bool): nat { if b then 1 else 0 }

  /** In every interleaving a submitted task is in exactly one place: queued, in the worker's hand, answered, or
      lost when the worker was canceled; and its result queue never receives two replies. */
  lemma EveryTaskInOnePlace(events: seq<Event>, t: nat)
    requires t < Run(FRESH, events).submitted
    ensures var s := Run(FRESH, events);
            && One(IsQueued(s, t)) + One(InHand(s, t)) + One(IsAnswered(s, t)) + One(IsLost(s, t)) == 1
            && t < |s.replies| && |s.replies[t]| <= 1
  {
    RunKeepsInv(FRESH, events);
    var s := Run(FRESH, events);
    assert Fate(s, t);
    if t >= s.submitted - |s.queue| {
      assert s.queue[t - (s.submitted - |s.queue|)] == t;
    }
  }

  /** In every interleaving the worker replies in the order of submission. */
  lemma RepliesFollowSubmission(events: seq<Event>, i: nat, j: nat)
    requires i < j < |Run(FRESH, events).answered|
    ensures Run(FRESH, events).answered[i] < Run(FRESH, events).answered[j]
  {
    RunKeepsInv(FRESH, events);
  }

  /** Once close has drained the queue it stays empty: a task not answered then is in the worker's hand or lost. */
  lemma NothingQueuedAfterDrain(events: seq<Event>, t: nat)
    requires var s := Run(FRESH, events); s.closer.Drained? && t < s.submitted
    ensures var s := Run(FRESH, events);
            s.queue == [] && (IsAnswered(s, t) || InHand(s, t) || IsLost(s, t))
  {
    RunKeepsInv(FRESH, events);
    EveryTaskInOnePlace(events, t);
  }

  // ---------- what a task hears ----------

  /** What an event puts into the result queue of task `t`. */
  ghost predicate Hears(s: Session, e: Event, t: nat, heard: seq<Reply>) {
    && (heard == [] || (heard == [Closing] && e.Drain?) || (e.Finish? && heard == [e.r]))
    && (e.Finish? ==> (heard != [] <==> InHand(s, t)))
    && (e.Drain? ==> (heard != [] <==> s.queue != [] && s.queue[0] == t))
  }

  /** A task hears the reply that the worker has for it when the worker has it in hand, that the session closes when
      it is the first in the queue to be drained, and nothing else. */
  lemma EventMeaning(s: Session, e: Event, t: nat) returns (heard: seq<Reply>)
    requires Inv(s) && Enabled(s, e) && t < s.submitted
    ensures var s' := Apply(s, e);
            && |s'.replies| == s'.submitted == s.submitted + One(e.Submit?)
            && s'.replies[t] == s.replies[t] + heard && Hears(s, e, t, heard)
  {
    ApplyKeepsInv(s, e);
    heard := if e.Finish? && InHand(s, t) then [e.r]
             else if e.Drain? && s.queue[0] == t then [Closing] else [];
  }

  /** The worker leaves its loop when it finds the session closed or is canceled, and at no other time; it waits only
      after it has found the session open, and holds the task that it took from the front until it has replied or is
      canceled. */
  lemma WorkerMeaning(s: Session, e: Event, t: nat)
    requires Enabled(s, e)
    ensures var s', cut := Apply(s, e), e.CancelWait? || e.CancelTake? || e.CancelWork?;
            && (s'.worker.Stopped? <==> cut || (e.Check? && Closed(s)) || (s.worker.Stopped? && !e.Restart?))
            && (s'.worker.Waiting? <==> (e.Check? && !Closed(s))
                                        || (s.worker.Waiting? && !cut && !e.Timeout? && !e.Take?))
            && (s'.worker == Holding(t) <==> (e.Take? && s.queue[0] == t)
                                             || (s.worker == Holding(t) && !cut && !e.Finish?))
            && (e.Take? || e.CancelTake? || e.Drain? <==> s'.queue != s.queue && !e.Submit?)
  {
    if e.Take? || e.CancelTake? || e.Drain? { assert |s.queue[1..]| < |s.queue|; }
  }

  /** A reply is final: nothing changes it or adds to it, whatever happens afterwards. */
  lemma {:induction false} ReplyIsFinal(s: Session, events: seq<Event>, t: nat)
    requires Inv(s) && t < s.submitted && IsAnswered(s, t)
    ensures var s' := Run(s, events); t < |s'.replies| && s'.replies[t] == s.replies[t]
    decreases |events|
  {
    if events != [] {
      if Enabled(s, events[0]) {
        var heard := EventMeaning(s, events[0], t);
        ApplyKeepsInv(s, events[0]);
        assert Fate(s, t) && Fate(Apply(s, events[0]), t);
        ReplyIsFinal(Apply(s, events[0]), events[1..], t);
      } else {
        ReplyIsFinal(s, events[1..], t);
      }
    }
  }

  // ---------- after close ----------

  /** How many of the events make the worker take a task. */
  function Takes(s: Session, events: seq<Event>): nat
    decreases |events|
  {
    if events == [] then 0
    else if !Enabled(s, events[0]) then Takes(s, events[1..])
    else (if events[0].Take? || events[0].CancelTake? then 1 else 0) + Takes(Apply(s, events[0]), events[1..])
  }

  /** After close the worker takes at most one more task, and none unless it was already waiting for one. */
  lemma {:induction false} AtMostOneMoreTask(s: Session, events: seq<Event>)
    requires Closed(s)
    ensures Takes(s, events) <= One(s.worker.Waiting?)
    ensures Run(s, events).submitted == s.submitted
    decreases |events|
  {
    if events != [] {
      AtMostOneMoreTask(if Enabled(s, events[0]) then Apply(s, events[0]) else s, events[1..]);
    }
  }

  // ---------- the session object ----------

  function Drains(n: nat): seq<Event> { if n == 0 then [DrainEnd] else [Drain] + Drains(n - 1) }

  class MCPToolCallSession {
    var submitted: nat
    var queue: seq<nat>
    var worker: Worker
    var closer: Closer
    var replies: seq<seq<Reply>>
    var answered: seq<nat>
    var lost: set<nat>

    constructor ()
      ensures Snapshot() == FRESH
    {
      submitted, queue, worker, closer, replies, answered, lost := 0, [], Checking, Open, [], [], {};
    }

    function Snapshot(): Session
      reads this
    {
      Session(submitted, queue, worker, closer, replies, answered, lost)
    }

    /** `_call_mcp_server` up to the wait for its result: refused on a closed session. */
    method Call() returns (accepted: bool)
      modifies this`submitted, this`queue, this`replies
      ensures accepted == Enabled(old(Snapshot()), Submit)
      ensures Snapshot() == Run(old(Snapshot()), [Submit])
    {
      accepted := closer.Open?;
      if accepted {
        queue := queue + [submitted];
        replies := replies + [[]];
        submitted := submitted + 1;
      }
      assert Run(old(Snapshot()), [Submit]) == Snapshot() by { assert [Submit][1..] == []; }
    }

    /** `close`: nothing on the session's loop comes between its steps, since putting into a result queue never
        waits. */
    method Close()
      requires Inv(Snapshot())
      modifies this`queue, this`closer, this`replies
      ensures Snapshot() == if Closed(old(Snapshot())) then old(Snapshot())
                            else Run(old(Snapshot()), [Event.Close] + Drains(|old(queue)|))
    {
      if !closer.Open? { return; }
      RunKeepsInv(Snapshot(), [Event.Close]);
      RunFirst(Snapshot(), Event.Close, Drains(|queue|));
      ghost var end := Run(Snapshot(), [Event.Close] + Drains(|queue|));
      closer := Draining;
      ghost var s := Snapshot();
      while queue != []
        invariant s == Snapshot() && Inv(s) && closer.Draining?
        invariant end == Run(s, Drains(|queue|))
        decreases |queue|
      {
        DrainOnce(s);
        s := Apply(s, Drain);
        var task := queue[0];
        queue := queue[1..];
        replies := replies[task := replies[task] + [Closing]];
      }
      RunFirst(s, DrainEnd, []);
      closer := Drained;
    }
  }

  /** Draining begins with the first task in the queue. */
  lemma DrainOnce(s: Session)
    requires Inv(s) && s.closer.Draining? && s.queue != []
    ensures Enabled(s, Drain) && Inv(Apply(s, Drain))
    ensures Run(s, Drains(|s.queue|)) == Run(Apply(s, Drain), Drains(|s.queue| - 1))
  {
    RunFirst(s, Drain, Drains(|s.queue| - 1));
    ApplyKeepsInv(s, Drain);
  }

  lemma RunFirst(s: Session, e: Event, rest: seq<Event>)
    requires Enabled(s, e)
    ensures Run(s, [e]) == Apply(s, e) && Run(s, [e] + rest) == Run(Apply(s, e), rest)
  {
    assert [e][1..] == [] && ([e] + rest)[1..] == rest;
  }

  /** Draining a session tells every queued task, and no other, that the session closes. */
  lemma {:induction false} DrainTellsTheQueued(s: Session, t: nat)
    requires Inv(s) && s.closer.Draining? && t < s.submitted
    ensures var s' := Run(s, Drains(|s.queue|));
            && s'.queue == [] && s'.closer == Drained && s'.submitted == s.submitted == |s'.replies|
            && s'.replies[t] == if t in s.queue then [Closing] else s.replies[t]
    decreases |s.queue|
  {
    if s.queue == [] {
      RunFirst(s, DrainEnd, []);
    } else {
      RunFirst(s, Drain, Drains(|s.queue| - 1));
      ApplyKeepsInv(s, Drain);
      assert Fate(s, s.queue[0]);
      DrainTellsTheQueued(Apply(s, Drain), t);
      assert t in s.queue <==> t == s.queue[0] || t in s.queue[1..];
    }
  }
}
