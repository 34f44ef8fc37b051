/** The word wrapper of `_convert_table_to_definition_list`. */
module WordWrap {

  /** The length of the words joined by single spaces. */
  function Width(words: seq<string>): nat {
    if words == [] then 0 else if |words| == 1 then |words[0]| else |words[0]| + 1 + Width(words[1..])
  }

  lemma {:induction false} WidthSnoc(words: seq<string>, w: string)
    requires words != []
    ensures Width(words + [w]) == Width(words) + 1 + |w|
    decreases |words|
  {
    assert (words + [w])[1..] == words[1..] + [w];
    if |words| > 1 { WidthSnoc(words[1..], w); }
  }

  function Flatten(lines: seq<seq<string>>): seq<string> {
    if lines == [] then [] else lines[0] + Flatten(lines[1..])
  }

  lemma {:induction false} FlattenSnoc(lines: seq<seq<string>>, l: seq<string>)
    ensures Flatten(lines + [l]) == Flatten(lines) + l
    decreases |lines|
  {
    if lines == [] {
      assert [l][1..] == [];
    } else {
      assert (lines + [l])[1..] == lines[1..] + [l];
      FlattenSnoc(lines[1..], l);
    }
  }

  /** The running length starts one too high, so the first line has one character less. */
  function LimitOf(k: nat, max: int): int { if k == 0 then max - 1 else max }

  predicate Fits(line: seq<string>, limit: int) { line != [] && (|line| == 1 || Width(line) <= limit) }

  /** The next word would not have fitted. */
  predicate Full(line: seq<string>, next: string, limit: int) { Width(line) + 1 + |next| > limit }

  /** Line `k` fits or is a single word, and if another line follows, the first word of that would not have fitted. */
  ghost predicate LineOk(lines: seq<seq<string>>, k: nat, first: nat, max: int)
    requires k < |lines|
  {
    && Fits(lines[k], LimitOf(first + k, max))
    && (k + 1 < |lines| ==> lines[k + 1] != [] && Full(lines[k], lines[k + 1][0], LimitOf(first + k, max)))
  }

  /** Greedy wrapping: the lines hold the words in order, and every line is as long as its limit allows. */
  ghost predicate Wrapped(words: seq<string>, lines: seq<seq<string>>, first: nat, max: int) {
    Flatten(lines) == words && forall k: nat :: k < |lines| ==> LineOk(lines, k, first, max)
  }

  /** Another word on the last line. */
  lemma LongerLine(words: seq<string>, lines: seq<seq<string>>, line: seq<string>, w: string, max: int)
    requires Wrapped(words, lines + [line], 0, max) && line != []
    requires Width(line + [w]) <= LimitOf(|lines|, max)
    ensures Wrapped(words + [w], lines + [line + [w]], 0, max)
  {
    var now, next := lines + [line], lines + [line + [w]];
    FlattenSnoc(lines, line);
    FlattenSnoc(lines, line + [w]);
    assert Flatten(lines) + (line + [w]) == (Flatten(lines) + line) + [w];
    forall k: nat | k < |next| ensures LineOk(next, k, 0, max) {
      assert LineOk(now, k, 0, max);
    }
  }

  /** Another word on a new line. */
  lemma NewLine(words: seq<string>, lines: seq<seq<string>>, w: string, max: int)
    requires Wrapped(words, lines, 0, max)
    requires lines != [] ==> Full(lines[|lines| - 1], w, LimitOf(|lines| - 1, max))
    ensures Wrapped(words + [w], lines + [[w]], 0, max)
  {
    var next := lines + [[w]];
    FlattenSnoc(lines, [w]);
    forall k: nat | k < |next| ensures LineOk(next, k, 0, max) {
      if k < |lines| { assert LineOk(lines, k, 0, max); }
    }
  }

  method Wrap(words: seq<string>, max: int) returns (lines: seq<seq<string>>)
    ensures Wrapped(words, lines, 0, max)
    ensures forall k: nat :: k < |lines| ==> |lines[k]| == 1 || Width(lines[k]) <= max
  {
    lines := [];
    var line: seq<string>, length := [], 0;
    for i := 0 to |words|
      invariant line == [] ==> i == 0 && lines == [] && length == 0
      invariant line != [] ==> length == Width(line) + (if lines == [] then 1 else 0)
                               && Wrapped(words[..i], lines + [line], 0, max)
    {
      var word := words[i];
      assert words[..i + 1] == words[..i] + [word];
      if line != [] && length + |word| + 1 > max {
        NewLine(words[..i], lines + [line], word, max);
        lines := lines + [line];
        line := [word];
        length := |word|;
      } else {
        if line == [] {
          NewLine([], [], word, max);
          assert [] + [[word]] == [[word]] && [] + [word] == words[..i + 1];
        } else {
          WidthSnoc(line, word);
          LongerLine(words[..i], lines, line, word, max);
        }
        line := line + [word];
        length := length + |word| + 1;
      }
    }
    assert words[..|words|] == words;
    if line != [] { lines := lines + [line]; }
    forall k: nat | k < |lines| ensures |lines[k]| == 1 || Width(lines[k]) <= max {
      assert LineOk(lines, k, 0, max);
    }
  }

  lemma {:induction false} WidthPrefix(a: seq<string>, n: nat)
    requires 0 < n < |a|
    ensures Width(a[..n]) + 1 + |a[n]| <= Width(a)
    decreases |a|
  {
    if n == 1 {
      assert a[..1][0] == a[0] && |a[1..]| >= 1;
      if |a| > 2 { assert Width(a[1..]) == |a[1]| + 1 + Width(a[1..][1..]); }
    } else {
      assert a[..n][1..] == a[1..][..n - 1];
      WidthPrefix(a[1..], n - 1);
    }
  }

  /** A line that fits cannot be longer than a line that is full and followed by the same words. */
  lemma FullStopsHere(a: seq<string>, n: nat, limit: int)
    requires 0 < n < |a| && Fits(a, limit)
    ensures !Full(a[..n], a[n], limit)
  {
    WidthPrefix(a, n);
  }

  lemma WrappedTail(words: seq<string>, lines: seq<seq<string>>, first: nat, max: int)
    requires Wrapped(words, lines, first, max) && lines != []
    ensures Wrapped(words[|lines[0]|..], lines[1..], first + 1, max)
    ensures lines[0] == words[..|lines[0]|] && lines[0] != []
    ensures |lines| > 1 ==> |lines[0]| < |words| && Full(lines[0], words[|lines[0]|], LimitOf(first, max))
    ensures |lines| == 1 ==> lines[0] == words
  {
    assert LineOk(lines, 0, first, max);
    var rest, next := lines[1..], first + 1;
    forall k: nat | k < |rest| ensures LineOk(rest, k, next, max) {
      assert LineOk(lines, k + 1, first, max);
    }
    if |lines| > 1 {
      assert Flatten(lines[1..])[0] == lines[1][0];
    } else {
      assert lines[1..] == [];
    }
  }

  /** The wrapping is determined: there is only one greedy division of the words. */
  lemma {:induction false} WrappingUnique(words: seq<string>, a: seq<seq<string>>, b: seq<seq<string>>, first: nat,
                                          max: int)
    requires Wrapped(words, a, first, max) && Wrapped(words, b, first, max)
    ensures a == b
    decreases |words|
  {
    if a == [] || b == [] {
      if a != [] { WrappedTail(words, a, first, max); }
      if b != [] { WrappedTail(words, b, first, max); }
    } else {
      WrappedTail(words, a, first, max);
      WrappedTail(words, b, first, max);
      var m, n := |a[0]|, |b[0]|;
      assert LineOk(a, 0, first, max) && LineOk(b, 0, first, max);
      if m < n {
        assert b[0][..m] == a[0] && b[0][m] == words[m];
        FullStopsHere(b[0], m, LimitOf(first, max));
      } else if n < m {
        assert a[0][..n] == b[0] && a[0][n] == words[n];
        FullStopsHere(a[0], n, LimitOf(first, max));
      }
      assert a[0] == b[0];
      WrappingUnique(words[m..], a[1..], b[1..], first + 1, max);
      assert a == [a[0]] + a[1..] && b == [b[0]] + b[1..];
    }
  }

  /** Where the first line may be as long as the others, wrapping is ordinary greedy wrapping. The over-count of the
      wrapper makes no difference exactly when the first line of that is a single word or leaves a character free:
      words that fill the first line to the limit are divided. */
  lemma FirstLineIsShort(words: seq<string>, a: seq<seq<string>>, b: seq<seq<string>>, max: int)
    requires Wrapped(words, a, 0, max) && Wrapped(words, b, 1, max)
    ensures a == b <==> b == [] || |b[0]| == 1 || Width(b[0]) < max
  {
    assert a != [] ==> LineOk(a, 0, 0, max);
    if b == [] || |b[0]| == 1 || Width(b[0]) < max {
      forall k: nat | k < |b| ensures LineOk(b, k, 0, max) { assert LineOk(b, k, 1, max); }
      WrappingUnique(words, a, b, 0, max);
    }
  }

  function Word(n: nat): (w: string)
    ensures |w| == n
  {
    seq(n, _ => 'x')
  }

  lemma FlattenSingles(words: seq<string>, lines: seq<seq<string>>)
    requires |words| == |lines| && forall k :: 0 <= k < |lines| ==> lines[k] == [words[k]]
    ensures Flatten(lines) == words
    decreases |lines|
  {
    if lines != [] {
      FlattenSingles(words[1..], lines[1..]);
      assert words == [words[0]] + words[1..];
    }
  }

  /** A paragraph of 302 characters under the limit of 100: its first two words would fill the first line. */
  lemma FullFirstLineIsDivided()
    ensures var a, b, c := Word(50), Word(49), Word(100);
            && Width([a, b, c, c]) == 302 && Width([a, b]) == 100
            && Wrapped([a, b, c, c], [[a], [b], [c], [c]], 0, 100)
            && Wrapped([a, b, c, c], [[a, b], [c], [c]], 1, 100)
  {
    var a, b, c := Word(50), Word(49), Word(100);
    WidthSnoc([a], b);
    WidthSnoc([a, b], c);
    WidthSnoc([a, b, c], c);
    assert [a] + [b] == [a, b] && [a, b] + [c] == [a, b, c] && [a, b, c] + [c] == [a, b, c, c];
    FlattenSingles([a, b, c, c], [[a], [b], [c], [c]]);
    FlattenSingles([c, c], [[c], [c]]);
    assert [[a, b], [c], [c]][1..] == [[c], [c]] && [a, b] + [c, c] == [a, b, c, c];
    DividedLines(a, b, c);
  }

  lemma DividedLines(a: string, b: string, c: string)
    requires |a| == 50 && |b| == 49 && |c| == 100 && Width([a, b]) == 100
    ensures forall k: nat :: k < 4 ==> LineOk([[a], [b], [c], [c]], k, 0, 100)
    ensures forall k: nat :: k < 3 ==> LineOk([[a, b], [c], [c]], k, 1, 100)
  {
    assert Width([a]) == 50 && Width([b]) == 49 && Width([c]) == 100;
  }
}
