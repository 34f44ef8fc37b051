/** Python's string methods, on ASCII characters. */
module Strings {

  /** What `str.isspace` and the pattern `\s` accept: blanks, the five line and tab controls, the four separators. */
  predicate IsSpace(c: char) { c == ' ' || 9 <= c as int <= 13 || 28 <= c as int <= 31 }

  function TrimLeft(s: string): string { if s != "" && IsSpace(s[0]) then TrimLeft(s[1..]) else s }

  function TrimRight(s: string): string {
    if s != "" && IsSpace(s[|s| - 1]) then TrimRight(s[..|s| - 1]) else s
  }

  /** `str.strip`. */
  function Strip(s: string): string { TrimRight(TrimLeft(s)) }

  lemma InStrip(s: string, c: char)
    requires c in Strip(s)
    ensures c in s && Strip(s) != ""
  {
    InTrimRight(TrimLeft(s), c);
    InTrimLeft(s, c);
  }

  lemma {:induction false} InTrimLeft(s: string, c: char)
    requires c in TrimLeft(s)
    ensures c in s
  {
    if s != "" && IsSpace(s[0]) { InTrimLeft(s[1..], c); }
  }

  lemma {:induction false} InTrimRight(s: string, c: char)
    requires c in TrimRight(s)
    ensures c in s
  {
    if s != "" && IsSpace(s[|s| - 1]) { InTrimRight(s[..|s| - 1], c); }
  }

  predicate AllSpace(s: string) { forall c <- s :: IsSpace(c) }

  /** There is no space at either end. */
  predicate Stripped(s: string) { s == "" || (!IsSpace(s[0]) && !IsSpace(s[|s| - 1])) }

  lemma {:induction false} TrimLeftMeaning(s: string) returns (a: string)
    ensures s == a + TrimLeft(s) && AllSpace(a) && (TrimLeft(s) != "" ==> !IsSpace(TrimLeft(s)[0]))
  {
    a := "";
    if s != "" && IsSpace(s[0]) {
      var b := TrimLeftMeaning(s[1..]);
      a := [s[0]] + b;
    }
  }

  lemma {:induction false} TrimRightMeaning(s: string) returns (b: string)
    ensures s == TrimRight(s) + b && AllSpace(b) && (TrimRight(s) != "" ==> !IsSpace(TrimRight(s)[|TrimRight(s)| - 1]))
  {
    b := "";
    if s != "" && IsSpace(s[|s| - 1]) {
      var a := TrimRightMeaning(s[..|s| - 1]);
      b := a + [s[|s| - 1]];
    }
  }

  /** Stripping takes spaces off both ends, and leaves none there. */
  lemma StripMeaning(s: string) returns (a: string, b: string)
    ensures s == a + Strip(s) + b && AllSpace(a) && AllSpace(b) && Stripped(Strip(s))
  {
    a := TrimLeftMeaning(s);
    b := TrimRightMeaning(TrimLeft(s));
    assert a + (Strip(s) + b) == a + Strip(s) + b;
    if Strip(s) != "" { assert Strip(s)[0] == TrimLeft(s)[0]; }
  }

  lemma {:induction false} SpaceInFront(a: string, s: string)
    requires AllSpace(a)
    ensures TrimLeft(a + s) == TrimLeft(s)
  {
    if a == "" { assert a + s == s; } else { assert (a + s)[1..] == a[1..] + s; SpaceInFront(a[1..], s); }
  }

  lemma {:induction false} SpaceBehind(s: string, b: string)
    requires AllSpace(b)
    ensures TrimRight(s + b) == TrimRight(s)
    decreases |b|
  {
    if b == "" {
      assert s + b == s;
    } else {
      assert (s + b)[..|s + b| - 1] == s + b[..|b| - 1];
      SpaceBehind(s, b[..|b| - 1]);
    }
  }

  /** What stands between spaces and has none at its ends is what stripping leaves. */
  lemma StripUnique(a: string, r: string, b: string)
    requires AllSpace(a) && AllSpace(b) && Stripped(r)
    ensures Strip(a + r + b) == r
  {
    assert a + r + b == a + (r + b);
    SpaceInFront(a, r + b);
    if r == "" {
      assert r + b == b && b + "" == b;
      SpaceInFront(b, "");
    } else {
      assert TrimLeft(r + b) == r + b;
      SpaceBehind(r, b);
    }
  }

  /** A text without spaces at its ends begins the stripped text exactly when it follows the leading spaces. */
  lemma StripBegins(s: string, p: string)
    requires p != "" && Stripped(p)
    ensures p <= Strip(s) <==> exists a :: AllSpace(a) && a + p <= s
  {
    if p <= Strip(s) {
      var a, b := StripMeaning(s);
      assert a + p <= s;
    }
    if a :| AllSpace(a) && a + p <= s {
      var rest := s[|a| + |p|..];
      var b := TrimRightMeaning(rest);
      var r := p + TrimRight(rest);
      assert s == a + r + b;
      StripUnique(a, r, b);
    }
  }

  /** Stripping keeps every character that is no space. */
  lemma StripKeeps(s: string, c: char)
    requires !IsSpace(c)
    ensures c in Strip(s) <==> c in s
  {
    var a, b := StripMeaning(s);
  }

  /** `str.lower`. */
  function Lower(s: string): (r: string)
    ensures |r| == |s|
  {
    seq(|s|, i requires 0 <= i < |s| => if 'A' <= s[i] <= 'Z' then s[i] + ' ' else s[i])
  }

  /** Capitals become the small letters of the alphabet, everything else stays where it is. */
  lemma LowerMeaning(a: string, b: string)
    ensures Lower("ABCDEFGHIJKLMNOPQRSTUVWXYZ") == "abcdefghijklmnopqrstuvwxyz"
    ensures Lower(a + b) == Lower(a) + Lower(b)
    ensures (forall c <- a :: !('A' <= c <= 'Z')) ==> Lower(a) == a
  {
    if forall c <- a :: !('A' <= c <= 'Z') {
      forall i | 0 <= i < |a| ensures Lower(a)[i] == a[i] { assert a[i] in a; }
    }
  }
}
