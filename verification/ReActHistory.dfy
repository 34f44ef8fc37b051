/** The message history of the ReAct loop and the window of it that the model sees. */
module ReActHistory {
  import opened Wrappers

  datatype Role = System | User | Assistant

  datatype Message = Message(role: Role, content: string)

  /** What a round leads to. The response of the model may be followed by tools whose results become an observation,
      possibly with an exception afterwards; by an exception before that; by the final answer; or by
      an exception while that is being given. The loop may also be canceled, or the model call itself may raise. */
  datatype Round =
    | Observed(response: string, observation: string, late: Option<string>)
    | Failed(response: string, error: string)
    | Completed(response: string)
    | Broken(response: string, error: string)
    | Canceled
    | Unreachable

  predicate GoesOn(r: Round) { r.Observed? || r.Failed? || r.Broken? }

  datatype Prompts = Prompts(schema: string, cite: bool, citation: string, respond: string, final: string)

  /** `append_user_content`: a user message at the end is extended, otherwise one is added. */
  function AppendUser(h: seq<Message>, content: string): (r: seq<Message>)
    requires h != []
    ensures r != [] && r[|r| - 1].role == User
  {
    var last := h[|h| - 1];
    if last.role == User then h[|h| - 1 := last.(content := last.content + content)] else h + [Message(User, content)]
  }

  /** The head of the history as `complete` leaves it. */
  function WithPrompts(h: seq<Message>, p: Prompts): (r: seq<Message>)
    requires h != []
    ensures |r| == |h| && forall i :: 0 <= i < |h| ==> r[i].role == h[i].role && (i > 0 ==> r[i] == h[i])
  {
    if h[0].role != System then h
    else
      var schema := if p.schema != "" then "\n" + p.schema else "";
      var citation := if p.schema == "" && p.cite && |h| < 7 then p.citation else "";
      h[0 := h[0].(content := h[0].content + schema + citation)]
  }

  /** What the model sees of the history. */
  function Window(h: seq<Message>): seq<Message> {
    if |h| > 12 then [h[0], h[1]] + h[|h| - 10..] else h
  }

  predicate Answers(r: Round) { !r.Canceled? && !r.Unreachable? }

  /** The final answer is asked for. */
  predicate Asks(r: Round) { r.Completed? || r.Broken? }

  /** The history from which it is. */
  function Asked(h: seq<Message>, r: Round, p: Prompts): (h': seq<Message>)
    requires h != [] && Asks(r)
    ensures h' != []
  {
    WithPrompts(AppendUser(h + [Message(Assistant, r.response)], p.respond), p)
  }

  /** The history after a round; without an answer of the model it stays. */
  function Play(h: seq<Message>, r: Round, p: Prompts): (h': seq<Message>)
    requires h != []
    ensures h' != []
  {
    if !Answers(r) then h
    else
      var asked := h + [Message(Assistant, r.response)];
      match r
      case Observed(_, observation, late) =>
        var observed := AppendUser(asked, observation);
        if late.Some? then AppendUser(observed, late.value) else observed
      case Failed(_, error) => AppendUser(asked, error)
      case Completed(_) => Asked(h, r, p)
      case Broken(_, error) => AppendUser(Asked(h, r, p), error)
  }

  /** The history after the first `r` rounds of a script. */
  function PlayAll(h: seq<Message>, script: nat -> Round, p: Prompts, r: nat): (h': seq<Message>)
    requires h != []
    ensures h' != []
  {
    if r == 0 then h else Play(PlayAll(h, script, p, r - 1), script(r - 1), p)
  }

  // ---------- what the loop keeps ----------

  function RoleAt(i: nat): Role { if i == 0 then System else if i % 2 == 1 then User else Assistant }

  /** A system message followed by alternating messages, the first of them from the user. */
  ghost predicate Alternates(h: seq<Message>) {
    h != [] && forall i: nat :: i < |h| ==> h[i].role == RoleAt(i)
  }

  /** ... and ending with the user. */
  ghost predicate Proper(h: seq<Message>) { Alternates(h) && |h| % 2 == 0 }

  lemma PlayKeepsProper(h: seq<Message>, r: Round, p: Prompts)
    requires Proper(h) && Answers(r)
    ensures Proper(Play(h, r, p)) && |Play(h, r, p)| == |h| + 2
  {
    match r
    case Observed(_, _, _) =>
    case Failed(_, _) =>
    case Completed(_) =>
    case Broken(_, _) =>
  }

  /** After r rounds, normal or exceptional, the history has exactly 2r more messages and still alternates. */
  lemma {:induction false} RoundsKeepProper(h: seq<Message>, script: nat -> Round, p: Prompts, r: nat)
    requires Proper(h) && forall i: nat :: i < r ==> Answers(script(i))
    ensures var h' := PlayAll(h, script, p, r); Proper(h') && |h'| == |h| + 2 * r
  {
    if r > 0 {
      RoundsKeepProper(h, script, p, r - 1);
      var before := PlayAll(h, script, p, r - 1);
      assert Answers(script(r - 1));
      PlayKeepsProper(before, script(r - 1), p);
      assert PlayAll(h, script, p, r) == Play(before, script(r - 1), p);
    }
  }

  /** `w` picks messages of `h` in order. */
  ghost predicate IsSubsequence(w: seq<Message>, h: seq<Message>) {
    exists at: seq<nat> :: Picks(at, w, h)
  }

  ghost predicate Picks(at: seq<nat>, w: seq<Message>, h: seq<Message>) {
    && |at| == |w|
    && (forall i :: 0 <= i < |at| ==> at[i] < |h| && w[i] == h[at[i]])
    && (forall i, j :: 0 <= i < j < |at| ==> at[i] < at[j])
  }

  /** The window is a subsequence of at most 12 messages of any history. */
  lemma WindowIsSubsequence(h: seq<Message>)
    ensures |Window(h)| <= 12 && IsSubsequence(Window(h), h)
  {
    var w := Window(h);
    var at := seq(|w|, i requires 0 <= i < |w| => if |h| <= 12 || i < 2 then i else |h| - 12 + i);
    forall i | 0 <= i < |at| ensures at[i] < |h| && w[i] == h[at[i]] {}
    assert Picks(at, Window(h), h);
  }

  /** The window of an alternating history alternates exactly when nothing is cut or the history has an even
      length: cutting keeps two messages from the front and an even number from the back. */
  lemma WindowAlternates(h: seq<Message>)
    requires Alternates(h)
    ensures Alternates(Window(h)) <==> |h| <= 12 || |h| % 2 == 0
  {
    if |h| > 12 {
      var w := Window(h);
      assert w[2] == h[|h| - 10] && RoleAt(2) == Assistant;
      if |h| % 2 == 0 {
        forall i: nat | i < |w| ensures w[i].role == RoleAt(i) { WindowRole(h, i); }
      } else {
        assert RoleAt(|h| - 10) == User;
      }
    }
  }

  lemma WindowRole(h: seq<Message>, i: nat)
    requires Alternates(h) && |h| > 12 && |h| % 2 == 0 && i < |Window(h)|
    ensures Window(h)[i].role == RoleAt(i)
  {
    if i >= 2 {
      assert Window(h)[i] == h[|h| - 12 + i];
      RoleAfterCut(i, |h|);
    }
  }

  lemma RoleAfterCut(i: nat, n: nat)
    requires i > 0 && n >= 12 && n % 2 == 0
    ensures RoleAt(n - 12 + i) == RoleAt(i)
  {
    assert (n - 12 + i) % 2 == i % 2;
  }

  // ---------- what the messages say ----------

  /** Everything said so far. */
  function Text(h: seq<Message>): string { if h == [] then "" else h[0].content + Text(h[1..]) }

  lemma {:induction false} TextSnoc(h: seq<Message>, m: Message)
    ensures Text(h + [m]) == Text(h) + m.content
    decreases |h|
  {
    if h == [] {
      assert h + [m] == [m] && [m][1..] == [];
    } else {
      assert (h + [m])[0] == h[0] && (h + [m])[1..] == h[1..] + [m];
      TextSnoc(h[1..], m);
      assert h[0].content + (Text(h[1..]) + m.content) == (h[0].content + Text(h[1..])) + m.content;
    }
  }

  /** User content is added at the end of the text, in the last message or in one of its own; nothing else changes. */
  lemma AppendUserMeaning(h: seq<Message>, content: string)
    requires h != []
    ensures var r, n := AppendUser(h, content), |h| - 1;
            && Text(r) == Text(h) + content
            && r[..n] == h[..n] && r[|r| - 1].role == User
            && (h[n].role != User ==> r == h + [Message(User, content)])
            && (h[n].role == User ==> |r| == |h|)
  {
    var n := |h| - 1;
    assert h == h[..n] + [h[n]];
    TextSnoc(h[..n], h[n]);
    if h[n].role == User {
      var last := Message(User, h[n].content + content);
      assert AppendUser(h, content) == h[..n] + [last];
      TextSnoc(h[..n], last);
      assert (Text(h[..n]) + h[n].content) + content == Text(h[..n]) + last.content;
    } else {
      TextSnoc(h, Message(User, content));
    }
  }

  /** The prompts are added behind the content of the system message at the head, if there is one. */
  lemma WithPromptsMeaning(h: seq<Message>, p: Prompts)
    requires h != []
    ensures var r := WithPrompts(h, p);
            && r[1..] == h[1..]
            && (h[0].role != System ==> r == h)
            && (h[0].role == System && p.schema != "" ==> r[0] == Message(System, h[0].content + "\n" + p.schema))
            && (h[0].role == System && p.schema == "" && p.cite && |h| < 7 ==>
                  r[0] == Message(System, h[0].content + p.citation))
            && (p.schema == "" && (!p.cite || |h| >= 7) ==> r == h)
  {
    var r := WithPrompts(h, p);
    assert h[0].content + "" == h[0].content && r[0 := h[0]] == h;
    if p.schema != "" { assert h[0].content + ("\n" + p.schema) + "" == h[0].content + "\n" + p.schema; }
    assert h[0].content + "" + p.citation == h[0].content + p.citation;
  }

  /** What a round makes the user say: the observation, with an exception behind it, or the exception; or the request
      for the final answer, with an exception behind it. */
  function Said(r: Round, p: Prompts): string
    requires Answers(r)
  {
    match r
    case Observed(_, observation, late) => if late.Some? then observation + late.value else observation
    case Failed(_, error) => error
    case Completed(_) => p.respond
    case Broken(_, error) => p.respond + error
  }

  /** After a round there are two more messages, the response and what the user is made to say; behind the head all
      others stay, and so does the head, but for prompts added to it. */
  ghost predicate PlayedOnce(h: seq<Message>, h': seq<Message>, r: Round, p: Prompts) {
    && h != [] && |h'| == |h| + 2 && IsHeard(h', |h|, r, p)
    && (forall i :: 1 <= i < |h| ==> h'[i] == h[i])
    && h'[0].role == h[0].role && h[0].content <= h'[0].content && (!Asks(r) ==> h'[0] == h[0])
  }

  lemma PlayMeaning(h: seq<Message>, r: Round, p: Prompts)
    requires h != [] && Answers(r)
    ensures PlayedOnce(h, Play(h, r, p), r, p)
  {
    if Asks(r) { AskingMeaning(h, r, p); }
  }

  lemma AskingMeaning(h: seq<Message>, r: Round, p: Prompts)
    requires h != [] && Asks(r)
    ensures PlayedOnce(h, Play(h, r, p), r, p)
  {
    WithPromptsMeaning(h + [Message(Assistant, r.response), Message(User, p.respond)], p);
  }

  /** Message `k` is the response of the round, the next one what the user is made to say. */
  ghost predicate IsHeard(h: seq<Message>, k: nat, r: Round, p: Prompts) {
    Answers(r) && k + 1 < |h| && h[k] == Message(Assistant, r.response) && h[k + 1] == Message(User, Said(r, p))
  }

  /** The messages behind the first ones are, round by round, the response of the model and what the user is made to
      say; the first ones stay, but for prompts added to the head. */
  ghost predicate Heard(h: seq<Message>, h': seq<Message>, script: nat -> Round, p: Prompts, r: nat) {
    && h != [] && |h'| == |h| + 2 * r
    && (forall i: nat :: i < r ==> IsHeard(h', |h| + 2 * i, script(i), p))
    && (forall i :: 1 <= i < |h| ==> h'[i] == h[i])
    && h'[0].role == h[0].role && h[0].content <= h'[0].content
  }

  /** The model sees every observation and every error, in order. */
  lemma RoundsAreHeard(h: seq<Message>, script: nat -> Round, p: Prompts, r: nat)
    requires h != [] && forall i: nat :: i < r ==> Answers(script(i))
    ensures Heard(h, PlayAll(h, script, p, r), script, p, r)
  {
    var now := h;
    for i := 0 to r
      invariant now == PlayAll(h, script, p, i) && Heard(h, now, script, p, i)
    {
      PlayMeaning(now, script(i), p);
      HeardOnce(h, now, Play(now, script(i), p), script, p, i);
      now := Play(now, script(i), p);
    }
  }

  lemma HeardOnce(h: seq<Message>, before: seq<Message>, after: seq<Message>, script: nat -> Round, p: Prompts, r: nat)
    requires Heard(h, before, script, p, r) && PlayedOnce(before, after, script(r), p)
    ensures Heard(h, after, script, p, r + 1)
  {}

  /** The window shows the last messages: all of them, or the last ten behind the first two. */
  lemma WindowMeaning(h: seq<Message>)
    ensures |h| <= 12 ==> Window(h) == h
    ensures |h| > 12 ==> |Window(h)| == 12 && Window(h)[..2] == h[..2] && Window(h)[2..] == h[|h| - 10..]
    ensures h != [] ==> Window(h) != [] && Window(h)[|Window(h)| - 1] == h[|h| - 1]
  {}

  /** The last message of a window ends with what the model is asked. */
  predicate EndsAsking(w: seq<Message>, prompt: string) {
    w != [] && w[|w| - 1].role == User && |prompt| <= |w[|w| - 1].content|
    && w[|w| - 1].content[|w[|w| - 1].content| - |prompt|..] == prompt
  }

  lemma AskedEndsAsking(h: seq<Message>, r: Round, p: Prompts)
    requires h != [] && Asks(r)
    ensures EndsAsking(Window(Asked(h, r, p)), p.respond)
  {
    WindowMeaning(Asked(h, r, p));
  }

  lemma FinalEndsAsking(h: seq<Message>, p: Prompts)
    requires h != []
    ensures EndsAsking(Window(WithPrompts(AppendUser(h, p.final), p)), p.final)
  {
    var asked := AppendUser(h, p.final);
    if |asked| == 1 && asked[0].role == System { assert false; }
    WindowMeaning(WithPrompts(asked, p));
  }

  // ---------- the loop itself ----------

  class Agent {
    var hist: seq<Message>
    var calls: nat  // of next_step_async

    constructor (history: seq<Message>)
      ensures hist == history && calls == 0
    {
      hist, calls := history, 0;
    }

    method AppendUserContent(content: string)
      requires hist != []
      modifies this`hist
      ensures hist == AppendUser(old(hist), content)
    {
      var last := hist[|hist| - 1];
      if last.role == User {
        hist := hist[|hist| - 1 := last.(content := last.content + content)];
      } else {
        hist := hist + [Message(User, content)];
      }
    }

    /** Ask for the final answer; the result is what the model is shown. */
    method Complete(p: Prompts) returns (window: seq<Message>)
      requires hist != []
      modifies this`hist
      ensures hist == WithPrompts(old(hist), p) && window == Window(hist)
    {
      if hist[0].role == System {
        var content := hist[0].content;
        if p.schema != "" { content := content + ("\n" + p.schema); }
        if p.schema == "" && p.cite && |hist| < 7 { content := content + p.citation; }
        ghost var schema := if p.schema != "" then "\n" + p.schema else "";
        ghost var citation := if p.schema == "" && p.cite && |hist| < 7 then p.citation else "";
        assert content == hist[0].content + schema + citation;
        hist := hist[0 := hist[0].(content := content)];
      }
      window := hist;
      if |hist| > 12 { window := [hist[0], hist[1]] + hist[|hist| - 10..]; }
    }

    /** One turn of the round loop. `shown` is the window the model sees when it is asked for the final answer, which it
        may fail to give. */
    method PlayRound(r: Round, p: Prompts) returns (over: bool, shown: Option<seq<Message>>)
      requires hist != []
      modifies this
      ensures over <==> !GoesOn(r)
      ensures calls == old(calls) + (if r.Canceled? then 0 else 1)
      ensures hist == Play(old(hist), r, p)
      ensures shown == if Asks(r) then Some(Window(Asked(old(hist), r, p))) else None
    {
      over, shown := true, None;
      if r.Canceled? { return; }
      calls := calls + 1;
      if r.Unreachable? { return; }
      hist := hist + [Message(Assistant, r.response)];
      match r {
        case Observed(_, observation, late) =>
          AppendUserContent(observation);
          if late.Some? { AppendUserContent(late.value); }
          over := false;
        case Failed(_, error) =>
          AppendUserContent(error);
          over := false;
        case Completed(_) =>
          AppendUserContent(p.respond);
          var window := Complete(p);
          shown := Some(window);
        case Broken(_, error) =>
          AppendUserContent(p.respond);
          var window := Complete(p);
          shown := Some(window);
          AppendUserContent(error);
          over := false;
      }
    }

    /** `_react_with_tools_streamly_async_simple`: rounds until one of them ends the loop or the limit is reached, which
        forces a final answer. The model is called at most maxRounds + 1 times; and from a proper history every
        window it is shown for a final answer alternates, `shown` listing them. */
    method React(script: nat -> Round, maxRounds: int, canceledAtEnd: bool, p: Prompts)
      returns (rounds: nat, answered: bool, shown: seq<seq<Message>>)
      requires hist != []
      modifies this
      ensures rounds <= Limit(maxRounds) && calls <= old(calls) + Limit(maxRounds)
      ensures forall i: nat :: i < rounds ==> GoesOn(script(i))
      ensures rounds < Limit(maxRounds) ==> !GoesOn(script(rounds))
      ensures hist == Final(old(hist), script, p, rounds, Limit(maxRounds), canceledAtEnd)
      ensures answered == Answered(script, rounds, Limit(maxRounds), canceledAtEnd)
      ensures shown == AllShown(old(hist), script, p, rounds, Limit(maxRounds), canceledAtEnd)
      ensures Proper(old(hist)) ==> AllGood(shown) && (answered ==> Proper(hist))
    {
      ghost var start := hist;
      var played, over;
      played, over, shown := PlayRounds(script, maxRounds, p);
      rounds := if over then played - 1 else played;
      if Proper(start) { LoopIsProper(start, script, p, rounds, Limit(maxRounds), canceledAtEnd); }
      if over { return rounds, script(rounds).Completed?, shown; }
      if canceledAtEnd { return rounds, false, shown; }
      AppendUserContent(p.final);
      var window := Complete(p);
      return rounds, true, shown + [window];
    }

    method PlayNext(ghost start: seq<Message>, script: nat -> Round, r: nat, shown0: seq<seq<Message>>, p: Prompts)
      returns (over: bool, shown: seq<seq<Message>>, played: nat)
      requires start != [] && hist == PlayAll(start, script, p, r) && shown0 == Shown(start, script, p, r)
      modifies this
      ensures over <==> !GoesOn(script(r))
      ensures old(calls) <= calls <= old(calls) + 1
      ensures played == r + 1
      ensures hist == PlayAll(start, script, p, played) && shown == Shown(start, script, p, played)
    {
      played := r + 1;
      var window;
      over, window := PlayRound(script(r), p);
      shown := if window.Some? then shown0 + [window.value] else shown0;
    }

    /** The for loop of it. */
    method PlayRounds(script: nat -> Round, maxRounds: int, p: Prompts)
      returns (played: nat, over: bool, shown: seq<seq<Message>>)
      requires hist != []
      modifies this
      ensures played <= Limit(maxRounds) && calls <= old(calls) + played
      ensures WentOn(script, played, over) && (!over ==> played == Limit(maxRounds))
      ensures hist == PlayAll(old(hist), script, p, played) && shown == Shown(old(hist), script, p, played)
    {
      played, over, shown := 0, false, [];
      ghost var start := hist;
      while played < maxRounds + 1 && !over
        invariant played <= Limit(maxRounds) && calls <= old(calls) + played
        invariant WentOn(script, played, over)
        invariant hist == PlayAll(start, script, p, played) && shown == Shown(start, script, p, played)
        decreases maxRounds - played, !over
      {
        ghost var before := played;
        over, shown, played := PlayNext(start, script, played, shown, p);
        WentOnOnce(script, before, over);
      }
    }
  }

  /** Of the rounds played all went on, but for the last one when the loop is over. */
  ghost predicate WentOn(script: nat -> Round, played: nat, over: bool) {
    && (over ==> played > 0 && !GoesOn(script(played - 1)))
    && forall i: nat :: i < (if over then played - 1 else played) ==> GoesOn(script(i))
  }

  lemma WentOnOnce(script: nat -> Round, played: nat, over: bool)
    requires WentOn(script, played, false) && (over <==> !GoesOn(script(played)))
    ensures WentOn(script, played + 1, over)
  {}

  function Limit(maxRounds: int): nat { if maxRounds < 0 then 0 else maxRounds + 1 }

  /** The windows shown for final answers in the first `r` rounds. */
  function Shown(h: seq<Message>, script: nat -> Round, p: Prompts, r: nat): seq<seq<Message>>
    requires h != []
  {
    if r == 0 then []
    else
      var shown := Shown(h, script, p, r - 1);
      if Asks(script(r - 1)) then shown + [Window(Asked(PlayAll(h, script, p, r - 1), script(r - 1), p))] else shown
  }

  ghost predicate IsGood(w: seq<Message>) { Alternates(w) && |w| <= 12 }

  ghost predicate AllGood(windows: seq<seq<Message>>)
    decreases |windows|
  {
    windows == [] || (AllGood(windows[..|windows| - 1]) && IsGood(windows[|windows| - 1]))
  }

  lemma AllGoodSnoc(windows: seq<seq<Message>>, w: seq<Message>)
    requires AllGood(windows) && IsGood(w)
    ensures AllGood(windows + [w])
  {
    assert (windows + [w])[..|windows|] == windows;
  }

  lemma ProperWindow(h: seq<Message>)
    requires Proper(h)
    ensures IsGood(Window(h))
  {
    WindowAlternates(h);
    WindowIsSubsequence(h);
  }

  lemma AskedIsGood(h: seq<Message>, r: Round, p: Prompts)
    requires Proper(h) && Asks(r)
    ensures IsGood(Window(Asked(h, r, p)))
  {
    PlayKeepsProper(h, Completed(r.response), p);
    ProperWindow(Asked(h, r, p));
  }

  /** Every window shown alternates, whether the answer was given or broke off. */
  lemma {:induction false} ShownAlternate(h: seq<Message>, script: nat -> Round, p: Prompts, r: nat)
    requires h != [] && forall i: nat :: i < r - 1 ==> GoesOn(script(i))
    requires Proper(h)
    ensures AllGood(Shown(h, script, p, r))
    decreases r
  {
    if r > 0 {
      ShownAlternate(h, script, p, r - 1);
      if Asks(script(r - 1)) {
        RoundsKeepProper(h, script, p, r - 1);
        var before := PlayAll(h, script, p, r - 1);
        AskedIsGood(before, script(r - 1), p);
        AllGoodSnoc(Shown(h, script, p, r - 1), Window(Asked(before, script(r - 1), p)));
      }
    }
  }

  /** Every window shown in a round ends with the request for a formal answer. */
  lemma {:induction false} ShownEndAsking(h: seq<Message>, script: nat -> Round, p: Prompts, r: nat)
    requires h != []
    ensures forall w <- Shown(h, script, p, r) :: EndsAsking(w, p.respond)
    decreases r
  {
    if r > 0 {
      ShownEndAsking(h, script, p, r - 1);
      if Asks(script(r - 1)) { AskedEndsAsking(PlayAll(h, script, p, r - 1), script(r - 1), p); }
    }
  }

  /** The history when the loop is over: after the round that ended it, or after `limit` rounds and the forced
      final answer. */
  function Final(h: seq<Message>, script: nat -> Round, p: Prompts, rounds: nat, limit: nat,
                 canceled: bool): seq<Message>
    requires h != []
  {
    var played := PlayAll(h, script, p, rounds);
    if rounds < limit then Play(played, script(rounds), p)
    else if canceled then played
    else WithPrompts(AppendUser(played, p.final), p)
  }

  lemma FinalKeepsProper(h: seq<Message>, p: Prompts)
    requires Proper(h)
    ensures Proper(WithPrompts(AppendUser(h, p.final), p))
  {}

  /** An answer, in some round or forced, leaves a proper history. */
  lemma AnswerIsProper(h: seq<Message>, script: nat -> Round, p: Prompts, rounds: nat, limit: nat, canceled: bool)
    requires h != [] && forall i: nat :: i < rounds ==> GoesOn(script(i))
    requires Answered(script, rounds, limit, canceled)
    requires Proper(h)
    ensures var h' := Final(h, script, p, rounds, limit, canceled); Proper(h') && IsGood(Window(h'))
  {
    RoundsKeepProper(h, script, p, rounds);
    var played := PlayAll(h, script, p, rounds);
    if rounds < limit { PlayKeepsProper(played, script(rounds), p); } else { FinalKeepsProper(played, p); }
    ProperWindow(Final(h, script, p, rounds, limit, canceled));
  }

  /** All of it: from a proper history only good windows are shown, and an answer leaves a proper history. */
  lemma LoopIsProper(h: seq<Message>, script: nat -> Round, p: Prompts, rounds: nat, limit: nat, canceled: bool)
    requires h != [] && Proper(h) && rounds <= limit && forall i: nat :: i < rounds ==> GoesOn(script(i))
    ensures AllGood(AllShown(h, script, p, rounds, limit, canceled))
    ensures Answered(script, rounds, limit, canceled) ==> Proper(Final(h, script, p, rounds, limit, canceled))
  {
    ShownAlternate(h, script, p, if rounds < limit then rounds + 1 else rounds);
    if Answered(script, rounds, limit, canceled) {
      AnswerIsProper(h, script, p, rounds, limit, canceled);
      var window := Window(Final(h, script, p, rounds, limit, canceled));
      if rounds == limit { AllGoodSnoc(Shown(h, script, p, rounds), window); }
    }
  }

  predicate Answered(script: nat -> Round, rounds: nat, limit: nat, canceled: bool) {
    if rounds < limit then script(rounds).Completed? else !canceled
  }

  function AllShown(h: seq<Message>, script: nat -> Round, p: Prompts, rounds: nat, limit: nat, canceled: bool)
    : seq<seq<Message>>
    requires h != []
  {
    if rounds < limit then Shown(h, script, p, rounds + 1)
    else if canceled then Shown(h, script, p, rounds)
    else Shown(h, script, p, rounds) + [Window(Final(h, script, p, rounds, limit, canceled))]
  }
}
