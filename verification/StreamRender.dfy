/** Rendering a template with variable references: all at once (`get_value_with_variable`) and as a stream
    (`Message._stream`). */
module StreamRender {
  import opened Wrappers

  /** What a reference may stand for. `Chunks` is a generator still to be drained, `Json` a value with its JSON text,
      `Opaque` a value without one, `Future` something to be awaited; `Unknown` makes the lookup raise. */
  datatype Var =
    | Missing
    | Text(s: string)
    | Chunks(parts: seq<string>)
    | AsyncChunks(parts: seq<string>)
    | Json(dump: string)
    | Opaque(shown: string)
    | Future(result: string)
    | Unknown

  /** A match of the reference pattern. */
  datatype Span = Span(start: nat, end: nat, exp: string)

  /** Matches come in order, do not overlap and lie in the template. */
  predicate Spans(spans: seq<Span>, from: nat, len: nat)
    decreases |spans|
  {
    && from <= len
    && (spans == [] ||
        (from <= spans[0].start <= spans[0].end <= len && Spans(spans[1..], spans[0].end, len)))
  }

  function Concat(parts: seq<string>): string { if parts == [] then "" else parts[0] + Concat(parts[1..]) }

  lemma {:induction false} ConcatSnoc(parts: seq<string>, p: string)
    ensures Concat(parts + [p]) == Concat(parts) + p
    decreases |parts|
  {
    if parts == [] {
      assert [p][1..] == [] && parts + [p] == [p];
    } else {
      assert (parts + [p])[0] == parts[0] && (parts + [p])[1..] == parts[1..] + [p];
      ConcatSnoc(parts[1..], p);
      assert parts[0] + (Concat(parts[1..]) + p) == (parts[0] + Concat(parts[1..])) + p;
    }
  }

  /** Joined texts are put one behind the other. */
  lemma {:induction false} ConcatMeaning(a: seq<string>, b: seq<string>)
    ensures Concat([]) == "" && (|a| == 1 ==> Concat(a) == a[0]) && Concat(a + b) == Concat(a) + Concat(b)
    decreases |a|
  {
    if a == [] {
      assert a + b == b;
    } else {
      assert (a + b)[0] == a[0] && (a + b)[1..] == a[1..] + b;
      ConcatMeaning(a[1..], b);
      assert a[0] + (Concat(a[1..]) + Concat(b)) == (a[0] + Concat(a[1..])) + Concat(b);
    }
  }

  // ---------- all at once ----------

  /** What replaces a reference; generators that are asynchronous and values without JSON raise. */
  function Replacement(v: Var): Result<string> {
    match v
    case Missing => Ok("")
    case Text(s) => Ok(s)
    case Chunks(parts) => Ok(Concat(parts))
    case Json(dump) => Ok(dump)
    case _ => Raise
  }

  function Render(t: string, spans: seq<Span>, from: nat, env: string -> Var): Result<string>
    requires Spans(spans, from, |t|)
    decreases |spans|
  {
    if spans == [] then Ok(t[from..])
    else
      var rep := Replacement(env(spans[0].exp));
      var rest := Render(t, spans[1..], spans[0].end, env);
      if rep.Raise? || rest.Raise? then Raise else Ok(t[from..spans[0].start] + rep.value + rest.value)
  }

  /** What is rendered in the end, with `out` in front. */
  function After(out: string, rest: Result<string>): Result<string> {
    if rest.Raise? then Raise else Ok(out + rest.value)
  }

  lemma NextReplaced(t: string, spans: seq<Span>, i: nat, from: nat, env: string -> Var, out: string)
    requires i < |spans| && Spans(spans[i..], from, |t|)
    ensures Spans(spans[i + 1..], spans[i].end, |t|) && from <= spans[i].start <= spans[i].end <= |t|
    ensures var rep := Replacement(env(spans[i].exp));
            After(out, Render(t, spans[i..], from, env))
            == if rep.Raise? then Raise
               else After(out + t[from..spans[i].start] + rep.value, Render(t, spans[i + 1..], spans[i].end, env))
  {
    assert spans[i..][0] == spans[i] && spans[i..][1..] == spans[i + 1..];
    var rep, rest := Replacement(env(spans[i].exp)), Render(t, spans[i + 1..], spans[i].end, env);
    if rep.Ok? && rest.Ok? { Regroup(out, t[from..spans[i].start], rep.value, rest.value); }
  }

  /** `get_value_with_variable`. */
  method RenderOnce(t: string, spans: seq<Span>, env: string -> Var) returns (r: Result<string>)
    requires Spans(spans, 0, |t|)
    ensures r == Render(t, spans, 0, env)
  {
    var out: string, last: nat := "", 0;
    ghost var all := Render(t, spans, 0, env);
    assert spans[0..] == spans && (all.Ok? ==> "" + all.value == all.value);
    for i := 0 to |spans|
      invariant Spans(spans[i..], last, |t|)
      invariant all == After(out, Render(t, spans[i..], last, env))
    {
      NextReplaced(t, spans, i, last, env, out);
      var rep := Replacement(env(spans[i].exp));
      if rep.Raise? { return Raise; }
      out := out + t[last..spans[i].start] + rep.value;
      last := spans[i].end;
    }
    assert spans[|spans|..] == [];
    return Ok(out + t[last..]);
  }

  // ---------- as a stream ----------

  /** What the stream sends for a value. */
  function Sent(v: Var): string {
    match v
    case Missing => ""
    case Text(s) => s
    case Chunks(parts) => Concat(parts)
    case AsyncChunks(parts) => Concat(parts)
    case Json(dump) => dump
    case Opaque(shown) => shown
    case Future(result) => result
    case Unknown => ""
  }

  /** The whole text of an uninterrupted stream. */
  function Streamed(t: string, spans: seq<Span>, from: nat, env: string -> Var): string
    requires Spans(spans, from, |t|)
    decreases |spans|
  {
    if spans == [] then t[from..]
    else t[from..spans[0].start] + Sent(env(spans[0].exp)) + Streamed(t, spans[1..], spans[0].end, env)
  }

  /** How a stream ends: with its content stored, cut by cancellation, or by an exception. */
  datatype End = Stored(content: string) | Canceled | Raised

  class Stream {
    const canceled: nat -> bool   // what each check for cancellation sees
    var checks: nat
    var yielded: seq<string>
    var allContent: string

    constructor (canceled: nat -> bool)
      ensures this.canceled == canceled && checks == 0 && yielded == [] && allContent == ""
    {
      this.canceled, checks, yielded, allContent := canceled, 0, [], "";
    }

    /** Everything sent so far has been accumulated. */
    ghost predicate Valid()
      reads this
    {
      Concat(yielded) == allContent
    }

    method Yield(p: string)
      requires Valid()
      modifies this`yielded, this`allContent
      ensures Valid() && allContent == old(allContent) + p
    {
      ConcatSnoc(yielded, p);
      yielded := yielded + [p];
      allContent := allContent + p;
    }

    method IsCanceled() returns (c: bool)
      modifies this`checks
      ensures c == canceled(old(checks)) && checks == old(checks) + 1
    {
      c := canceled(checks);
      checks := checks + 1;
    }

    /** Send the chunks of a generator, checking for cancellation before each. */
    method Drain(parts: seq<string>) returns (cut: bool)
      requires Valid()
      modifies this`checks, this`yielded, this`allContent
      ensures Valid() && checks >= old(checks)
      ensures !cut ==> allContent == old(allContent) + Concat(parts)
      ensures old(allContent) <= allContent <= old(allContent) + Concat(parts)
      ensures cut <==> exists k :: old(checks) <= k < checks && canceled(k)
    {
      assert parts[0..] == parts;
      for i := 0 to |parts|
        invariant Valid() && checks >= old(checks)
        invariant allContent + Concat(parts[i..]) == old(allContent) + Concat(parts)
        invariant old(allContent) <= allContent
        invariant forall k :: old(checks) <= k < checks ==> !canceled(k)
      {
        var c := IsCanceled();
        if c { return true; }
        assert parts[i..][1..] == parts[i + 1..];
        assert (allContent + parts[i]) + Concat(parts[i + 1..]) == allContent + (parts[i] + Concat(parts[i + 1..]));
        Yield(parts[i]);
      }
      return false;
    }

    /** Send the value of a reference, from the cache if it is there; anything but a generator enters the cache. */
    method SendReference(exp: string, env: string -> Var, cache0: map<string, string>)
      returns (cut: Option<End>, cache: map<string, string>)
      requires Valid() && Cached(cache0, env)
      modifies this`checks, this`yielded, this`allContent
      ensures Valid() && checks >= old(checks) && Cached(cache, env)
      ensures cut == None ==> allContent == old(allContent) + Sent(env(exp)) && !env(exp).Unknown?
      ensures old(allContent) <= allContent <= old(allContent) + Sent(env(exp))
      ensures cut.Some? ==> cut == (if env(exp).Unknown? then Some(Raised) else Some(Canceled))
      ensures cut == Some(Canceled) <==> Seen(canceled, old(checks), checks)
    {
      cut, cache := None, cache0;
      if exp in cache {
        Yield(cache[exp]);
        return;
      }
      var v := env(exp);
      if v.Unknown? { return Some(Raised), cache; }
      if v.Chunks? || v.AsyncChunks? {
        var stopped := Drain(v.parts);
        if stopped { cut := Some(Canceled); }
      } else {
        var s := if v.Missing? then "" else if v.Text? then v.s else if v.Json? then v.dump
                 else if v.Opaque? then v.shown else v.result;
        Yield(s);
        cache := cache[exp := s];
      }
    }

    /** The text up to a reference, and its value. */
    method SendSpan(t: string, spans: seq<Span>, i: nat, s: nat, env: string -> Var, cache0: map<string, string>)
      returns (cut: Option<End>, cache: map<string, string>)
      requires Valid() && Cached(cache0, env) && i < |spans| && Spans(spans[i..], s, |t|)
      modifies this`checks, this`yielded, this`allContent
      ensures Valid() && checks >= old(checks) && Cached(cache, env)
      ensures Spans(spans[i + 1..], spans[i].end, |t|)
      ensures var before := old(allContent) + Streamed(t, spans[i..], s, env);
              var after := Streamed(t, spans[i + 1..], spans[i].end, env);
              if cut == None then allContent + after == before && !env(spans[i].exp).Unknown? else allContent <= before
      ensures cut.Some? ==> cut == Some(Canceled) || (cut == Some(Raised) && env(spans[i].exp).Unknown?)
      ensures cut == Some(Canceled) <==> Seen(canceled, old(checks), checks)
    {
      NextSpan(t, spans, i, s, env, allContent);
      cut, cache := None, cache0;
      ghost var before := allContent + Streamed(t, spans[i..], s, env);
      var c := IsCanceled();
      if c { return Some(Canceled), cache; }
      Yield(t[s..spans[i].start]);
      ghost var sent := allContent;
      cut, cache := SendReference(spans[i].exp, env, cache);
      PrefixOf(allContent, sent + Sent(env(spans[i].exp)), before);
    }

    /** `_stream`: what is sent is always a prefix of the full text; it is stored exactly when nothing was canceled and
        every reference was known, and then all of it was sent. */
    method Run(t: string, spans: seq<Span>, env: string -> Var) returns (end: End)
      requires Spans(spans, 0, |t|) && yielded == [] && allContent == ""
      modifies this`checks, this`yielded, this`allContent
      ensures Concat(yielded) <= Streamed(t, spans, 0, env)
      ensures end.Stored? ==> end.content == Concat(yielded) == Streamed(t, spans, 0, env)
      ensures end.Canceled? <==> Seen(canceled, old(checks), checks)
      ensures end.Raised? ==> exists i :: 0 <= i < |spans| && env(spans[i].exp).Unknown?
      ensures end.Stored? ==> forall i :: 0 <= i < |spans| ==> !env(spans[i].exp).Unknown?
    {
      ghost var all := Streamed(t, spans, 0, env);
      var s: nat, cache: map<string, string> := 0, map[];
      assert spans[0..] == spans;
      for i := 0 to |spans|
        invariant Valid() && Spans(spans[i..], s, |t|) && checks >= old(checks) && Cached(cache, env)
        invariant allContent + Streamed(t, spans[i..], s, env) == all
        invariant !Seen(canceled, old(checks), checks)
        invariant forall j :: 0 <= j < i ==> !env(spans[j].exp).Unknown?
      {
        var cut;
        cut, cache := SendSpan(t, spans, i, s, env, cache);
        if cut.Some? { return cut.value; }
        s := spans[i].end;
      }
      assert spans[|spans|..] == [];
      end := SendTail(t, s);
    }

    /** The text behind the last reference. */
    method SendTail(t: string, s: nat) returns (end: End)
      requires Valid() && s <= |t|
      modifies this`checks, this`yielded, this`allContent
      ensures Valid() && checks >= old(checks)
      ensures end.Canceled? <==> Seen(canceled, old(checks), checks)
      ensures if end.Canceled? then allContent == old(allContent)
              else allContent == old(allContent) + t[s..] && end == Stored(allContent)
    {
      if s < |t| {
        var c := IsCanceled();
        if c { return Canceled; }
        Yield(t[s..]);
      }
      return Stored(allContent);
    }
  }

  ghost predicate Cached(cache: map<string, string>, env: string -> Var) {
    forall exp <- cache :: cache[exp] == Sent(env(exp)) && !env(exp).Unknown?
  }

  /** Some check from number `from` on saw a cancellation. */
  ghost predicate Seen(canceled: nat -> bool, from: nat, to: nat) { exists k :: from <= k < to && canceled(k) }

  /** The text up to a reference, its value, and the rest. */
  lemma NextSpan(t: string, spans: seq<Span>, i: nat, from: nat, env: string -> Var, before: string)
    requires i < |spans| && Spans(spans[i..], from, |t|)
    ensures Spans(spans[i + 1..], spans[i].end, |t|) && from <= spans[i].start <= spans[i].end <= |t|
    ensures before + Streamed(t, spans[i..], from, env)
            == ((before + t[from..spans[i].start]) + Sent(env(spans[i].exp)))
               + Streamed(t, spans[i + 1..], spans[i].end, env)
  {
    assert spans[i..][0] == spans[i] && spans[i..][1..] == spans[i + 1..];
    Regroup(before, t[from..spans[i].start], Sent(env(spans[i].exp)), Streamed(t, spans[i + 1..], spans[i].end, env));
  }

  lemma PrefixOf(a: string, b: string, c: string)
    requires a <= b <= c
    ensures a <= c
  {}

  lemma Regroup(a: string, b: string, c: string, d: string)
    ensures a + (b + c + d) == (a + b + c) + d
  {}

  // ---------- what is sent, piece by piece ----------

  /** Piece `2 * i` is the text between reference `i - 1` and reference `i`. */
  ghost predicate TextAt(t: string, spans: seq<Span>, from: nat, pieces: seq<string>, i: nat) {
    && i <= |spans| && 2 * i < |pieces|
    && pieces[2 * i] == Between(t, if i == 0 then from else spans[i - 1].end,
                                if i == |spans| then |t| else spans[i].start)
  }

  /** Piece `2 * i + 1` is what reference `i` stands for. */
  ghost predicate ValueAt(spans: seq<Span>, env: string -> Var, pieces: seq<string>, i: nat) {
    i < |spans| && 2 * i + 1 < |pieces| && IsValue(env(spans[i].exp), pieces[2 * i + 1])
  }

  function Between(t: string, lo: nat, hi: nat): string { if lo <= hi <= |t| then t[lo..hi] else "" }

  /** What is sent for a value: its own text, or its chunks one after the other, whether they come at once or are
      awaited; nothing when there is no value. */
  ghost predicate IsValue(v: Var, piece: string) {
    || v == Text(piece) || v == Json(piece) || v == Opaque(piece) || v == Future(piece)
    || ((v.Chunks? || v.AsyncChunks?) && piece == Concat(v.parts))
    || ((v.Missing? || v.Unknown?) && piece == "")
  }

  lemma TextLater(t: string, spans: seq<Span>, from: nat, rest: seq<string>, i: nat, a: string, b: string)
    requires spans != [] && TextAt(t, spans[1..], spans[0].end, rest, i)
    ensures TextAt(t, spans, from, [a] + ([b] + rest), i + 1)
  {
    assert ([a] + ([b] + rest))[2 * (i + 1)] == rest[2 * i];
  }

  lemma ValueLater(spans: seq<Span>, env: string -> Var, rest: seq<string>, i: nat, a: string, b: string)
    requires spans != [] && ValueAt(spans[1..], env, rest, i)
    ensures ValueAt(spans, env, [a] + ([b] + rest), i + 1)
  {
    assert ([a] + ([b] + rest))[2 * (i + 1) + 1] == rest[2 * i + 1];
  }

  /** The pieces of a template from position `from` on. */
  ghost predicate ArePieces(t: string, spans: seq<Span>, from: nat, env: string -> Var, pieces: seq<string>) {
    && |pieces| == 2 * |spans| + 1
    && (forall i: nat :: i <= |spans| ==> TextAt(t, spans, from, pieces, i))
    && (forall i: nat :: i < |spans| ==> ValueAt(spans, env, pieces, i))
  }

  lemma MorePieces(t: string, spans: seq<Span>, from: nat, env: string -> Var, rest: seq<string>, a: string, b: string)
    requires spans != [] && Spans(spans, from, |t|) && ArePieces(t, spans[1..], spans[0].end, env, rest)
    requires a == t[from..spans[0].start] && IsValue(env(spans[0].exp), b)
    ensures ArePieces(t, spans, from, env, [a] + ([b] + rest))
  {
    var pieces := [a] + ([b] + rest);
    assert pieces[0] == a && pieces[1] == b;
    forall i: nat | i <= |spans| ensures TextAt(t, spans, from, pieces, i) {
      if i > 0 { TextLater(t, spans, from, rest, i - 1, a, b); }
    }
    forall i: nat | i < |spans| ensures ValueAt(spans, env, pieces, i) {
      if i > 0 { ValueLater(spans, env, rest, i - 1, a, b); }
    }
  }

  /** The stream is made of its pieces, in the order of the template: text, value, text, value, and so on, and text. */
  lemma {:induction false} StreamedMeaning(t: string, spans: seq<Span>, from: nat, env: string -> Var)
    returns (pieces: seq<string>)
    requires Spans(spans, from, |t|)
    ensures ArePieces(t, spans, from, env, pieces) && Concat(pieces) == Streamed(t, spans, from, env)
    decreases |spans|
  {
    if spans == [] {
      pieces := [t[from..]];
      ConcatMeaning(pieces, []);
      assert TextAt(t, spans, from, pieces, 0);
    } else {
      var rest := StreamedMeaning(t, spans[1..], spans[0].end, env);
      var text, value := t[from..spans[0].start], Sent(env(spans[0].exp));
      pieces := [text] + ([value] + rest);
      MorePieces(t, spans, from, env, rest, text, value);
      ConcatTwo(text, value, rest);
    }
  }

  lemma ConcatTwo(a: string, b: string, rest: seq<string>)
    ensures Concat([a] + ([b] + rest)) == a + b + Concat(rest)
  {
    ConcatMeaning([a], [b] + rest);
    ConcatMeaning([b], rest);
    assert a + (b + Concat(rest)) == a + b + Concat(rest);
  }

  // ---------- the stream refines the rendering ----------

  /** A value whose stream and whose replacement are the same text. */
  predicate IsPlain(v: Var) { v.Missing? || v.Text? || v.Chunks? || v.Json? }

  /** Rendering at once succeeds exactly when every referenced value is plain, and then it gives the text of the
      uninterrupted stream, repeated references included. */
  lemma {:induction false} StreamRefinesRender(t: string, spans: seq<Span>, from: nat, env: string -> Var)
    requires Spans(spans, from, |t|)
    ensures Render(t, spans, from, env).Ok? <==> forall i :: 0 <= i < |spans| ==> IsPlain(env(spans[i].exp))
    ensures Render(t, spans, from, env).Ok? ==>
              Render(t, spans, from, env).value == Streamed(t, spans, from, env)
    decreases |spans|
  {
    if spans != [] {
      StreamRefinesRender(t, spans[1..], spans[0].end, env);
      if forall i :: 0 <= i < |spans| ==> IsPlain(env(spans[i].exp)) {
        forall i | 0 <= i < |spans[1..]| ensures IsPlain(env(spans[1..][i].exp)) {
          assert spans[1..][i] == spans[i + 1];
        }
      } else {
        var i :| 0 <= i < |spans| && !IsPlain(env(spans[i].exp));
        if i > 0 { assert spans[1..][i - 1] == spans[i]; }
      }
    }
  }

  /** A template with one value that has no JSON text: the stream sends how it is shown, rendering at once raises. */
  lemma OpaqueOnlyStreams(shown: string)
    ensures var env, spans := (_: string) => Opaque(shown), [Span(0, 7, "a@b_c")];
            Render("{a@b_c}", spans, 0, env) == Raise && Streamed("{a@b_c}", spans, 0, env) == shown
  {
    var env, t, spans := (_: string) => Opaque(shown), "{a@b_c}", [Span(0, 7, "a@b_c")];
    assert spans[1..] == [] && t[0..0] == "" && t[7..] == "";
    assert Streamed(t, spans[1..], 7, env) == "";
  }
}
