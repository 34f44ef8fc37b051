/** Finding the markdown tables of a message and giving each its own Excel sheet name. */
module SheetNames {

  // ---------- decimal numbers ----------

  function Digit(d: nat): char
    requires d < 10
  {
    '0' + d as char
  }

  function Decimal(n: nat): (s: string)
    ensures s != [] && forall i :: 0 <= i < |s| ==> '0' <= s[i] <= '9'
  {
    if n < 10 then [Digit(n)] else Decimal(n / 10) + [Digit(n % 10)]
  }

  lemma {:induction false} DecimalInjective(m: nat, n: nat)
    requires Decimal(m) == Decimal(n)
    ensures m == n
    decreases m
  {
    var s, t := Decimal(m), Decimal(n);
    assert s[|s| - 1] == Digit(m % 10) && t[|t| - 1] == Digit(n % 10);
    assert m % 10 == n % 10;
    if m >= 10 && n >= 10 {
      assert Decimal(m / 10) == s[..|s| - 1] == t[..|t| - 1] == Decimal(n / 10);
      DecimalInjective(m / 10, n / 10);
    }
  }

  /** The number that digits stand for. */
  function Parse(s: string): int {
    if s == "" then 0 else 10 * Parse(s[..|s| - 1]) + (s[|s| - 1] as int - '0' as int)
  }

  /** A decimal number reads back as what it was, and has no zero in front. */
  lemma {:induction false} DecimalMeaning(n: nat)
    ensures Parse(Decimal(n)) == n && (n > 0 ==> Decimal(n)[0] != '0')
  {
    if n < 10 {
      assert Decimal(n)[..0] == "";
    } else {
      DecimalMeaning(n / 10);
      assert Decimal(n)[..|Decimal(n)| - 1] == Decimal(n / 10);
    }
  }

  function Pow10(d: nat): nat { if d == 0 then 1 else 10 * Pow10(d - 1) }

  lemma {:induction false} DecimalLength(n: nat, d: nat)
    requires n < Pow10(d) && d > 0
    ensures |Decimal(n)| <= d
    decreases d
  {
    if n >= 10 {
      assert d > 1 && n / 10 < Pow10(d - 1);
      DecimalLength(n / 10, d - 1);
    }
  }

  // ---------- candidates for a name ----------

  const MAX := 31

  /** Python's `s[:k]`, where a negative k counts from the end. */
  function PyTake(s: string, k: int): string {
    if k >= |s| then s else if k >= 0 then s[..k] else if |s| + k >= 0 then s[..|s| + k] else ""
  }

  function Suffix(counter: nat): string { "_" + Decimal(counter) }

  function Candidate(name: string, counter: nat): string {
    PyTake(name, MAX - |Suffix(counter)|) + Suffix(counter)
  }

  /** A candidate keeps as much of the name as the limit allows, from its start on, and ends with an underscore and the
      counter. */
  lemma CandidateMeaning(name: string, counter: nat)
    requires |Suffix(counter)| <= MAX
    ensures var kept := if |name| + |Suffix(counter)| <= MAX then |name| else MAX - |Suffix(counter)|;
            && kept <= |name|
            && Candidate(name, counter) == name[..kept] + "_" + Decimal(counter)
            && |Candidate(name, counter)| == kept + |Suffix(counter)|
            && (kept < |name| ==> |Candidate(name, counter)| == MAX)
  {
    assert name[..|name|] == name;
  }

  /** A candidate fits into the limit exactly when its suffix does. */
  lemma CandidateFits(name: string, counter: nat)
    ensures |Candidate(name, counter)| <= MAX <==> |Suffix(counter)| <= MAX
  {}

  /** The last underscore of a candidate starts its suffix. */
  lemma SameSuffix(a: string, b: string, s: string, t: string)
    requires a + "_" + s == b + "_" + t
    requires forall i :: 0 <= i < |s| ==> s[i] != '_'
    requires forall i :: 0 <= i < |t| ==> t[i] != '_'
    ensures s == t
  {
    var x, y := a + "_" + s, b + "_" + t;
    assert x[|a|] == '_' && y[|b|] == '_';
    if |a| != |b| { assert false; }
    assert s == x[|a| + 1..] && t == y[|b| + 1..];
  }

  /** Different counters give different names, even after truncation. */
  lemma CandidatesDiffer(name: string, i: nat, j: nat)
    requires Candidate(name, i) == Candidate(name, j)
    ensures i == j
  {
    var a, b := PyTake(name, MAX - |Suffix(i)|), PyTake(name, MAX - |Suffix(j)|);
    assert Candidate(name, i) == a + "_" + Decimal(i) && Candidate(name, j) == b + "_" + Decimal(j);
    SameSuffix(a, b, Decimal(i), Decimal(j));
    DecimalInjective(i, j);
  }

  // ---------- the allocator ----------

  /** The candidates with counters 1 .. n. */
  ghost function Tried(name: string, n: nat): set<string> {
    if n == 0 then {} else Tried(name, n - 1) + {Candidate(name, n)}
  }

  /** A tried name has a counter. */
  lemma {:induction false} TriedCounter(name: string, n: nat, x: string) returns (k: nat)
    requires x in Tried(name, n)
    ensures 1 <= k <= n && x == Candidate(name, k)
  {
    if x == Candidate(name, n) { k := n; } else { k := TriedCounter(name, n - 1, x); }
  }

  lemma {:induction false} TriedSize(name: string, n: nat)
    ensures |Tried(name, n)| == n
  {
    if n > 0 {
      TriedSize(name, n - 1);
      if Candidate(name, n) in Tried(name, n - 1) {
        var k := TriedCounter(name, n - 1, Candidate(name, n));
        CandidatesDiffer(name, n, k);
      }
    }
  }

  /** A set that contains n candidates has at least n elements. */
  lemma Pigeonhole(name: string, n: nat, used: set<string>)
    requires Tried(name, n) <= used
    ensures n <= |used|
  {
    TriedSize(name, n);
    var tried := Tried(name, n);
    assert used == tried + (used - tried);
  }

  /** The first free name: the name itself, or its first candidate that is free. */
  ghost predicate IsFirstFree(name: string, used: set<string>, r: string, k: nat) {
    && r !in used && k <= |used| + 1
    && (k == 0 ==> r == name)
    && (k > 0 ==> name in used && r == Candidate(name, k) && Tried(name, k - 1) <= used)
  }

  /** Make a name unique. The loop ends after at most |used| + 1 suffixes. */
  method UniqueName(name: string, used: set<string>) returns (r: string, ghost k: nat)
    ensures r !in used && (name !in used ==> r == name)
    ensures IsFirstFree(name, used, r, k)
  {
    r := name;
    k := 0;
    var counter := 1;
    while r in used
      invariant counter == k + 1 && k <= |used| + 1
      invariant k == 0 ==> r == name
      invariant k > 0 ==> name in used && r == Candidate(name, k) && Tried(name, k - 1) <= used
      decreases |used| + 1 - k
    {
      if k > 0 { assert Tried(name, k) == Tried(name, k - 1) + {r}; }
      Pigeonhole(name, k, used);
      var suffix := "_" + Decimal(counter);
      r := PyTake(name, 31 - |suffix|) + suffix;
      k := counter;
      counter := counter + 1;
    }
  }

  ghost predicate PairwiseDistinct(names: seq<string>) {
    forall i, j :: 0 <= i < j < |names| ==> names[i] != names[j]
  }

  /** With fewer than 10^30 names in use there is room for the suffix. */
  lemma FreeNameFits(name: string, used: set<string>, r: string, k: nat)
    requires IsFirstFree(name, used, r, k) && |name| <= MAX && |used| + 1 < Pow10(30)
    ensures |r| <= MAX
  {
    if k > 0 {
      DecimalLength(k, 30);
      CandidateFits(name, k);
    }
  }

  /** How a table got its name: its title, unless an earlier table has that, or else a candidate. */
  ghost predicate NamedFor(names: seq<string>, i: nat, title: string)
    requires i < |names|
  {
    if title !in names[..i] then names[i] == title
    else exists k: nat :: 1 <= k <= i + 1 && names[i] == Candidate(title, k)
  }

  ghost predicate Short(names: seq<string>) { forall i :: 0 <= i < |names| ==> |names[i]| <= MAX }

  /** Every table gets its own name; a name nobody used before is kept; names stay within the limit. */
  method AllocateNames(titles: seq<string>) returns (names: seq<string>)
    ensures |names| == |titles| && PairwiseDistinct(names)
    ensures forall i :: 0 <= i < |titles| ==> NamedFor(names, i, titles[i])
    ensures |titles| < Pow10(30) && Short(titles) ==> Short(names)
  {
    names := [];
    var used: set<string> := {};
    for i := 0 to |titles|
      invariant |names| == i == |used| && PairwiseDistinct(names)
      invariant forall x :: x in used <==> x in names
      invariant forall j :: 0 <= j < i ==> NamedFor(names, j, titles[j])
      invariant |titles| < Pow10(30) && Short(titles) ==> Short(names)
    {
      var name, k := UniqueName(titles[i], used);
      if |titles| < Pow10(30) && Short(titles) { FreeNameFits(titles[i], used, name, k); }
      OneMoreName(names, used, name, k, titles, i);
      used := used + {name};
      names := names + [name];
    }
  }

  lemma OneMoreName(names: seq<string>, used: set<string>, name: string, k: nat, titles: seq<string>, n: nat)
    requires n == |names| < |titles| && forall j :: 0 <= j < n ==> NamedFor(names, j, titles[j])
    requires PairwiseDistinct(names) && |used| == |names| && (forall x :: x in used <==> x in names)
    requires IsFirstFree(titles[n], used, name, k)
    ensures forall j :: 0 <= j < n + 1 ==> NamedFor(names + [name], j, titles[j])
    ensures PairwiseDistinct(names + [name])
  {
    assert (names + [name])[..n] == names;
    assert NamedFor(names + [name], n, titles[n]);
    forall j | 0 <= j < n ensures NamedFor(names + [name], j, titles[j]) {
      assert NamedFor(names, j, titles[j]) && (names + [name])[..j] == names[..j];
    }
  }
}
