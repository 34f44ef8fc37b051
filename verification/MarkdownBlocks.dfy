/** The block scanner of `_parse_markdown_content`: which lines make up which element. */
module MarkdownBlocks {
  import opened Strings

  // ---------- lines ----------

  predicate StartsWith(s: string, prefix: string) { prefix <= s }

  predicate IsDigit(c: char) { '0' <= c <= '9' }

  /** The pattern `\d+\.\s` at the start of a line; `digits` counts the digits seen. */
  predicate NumberedFrom(s: string, digits: nat)
    decreases |s|
  {
    if s != "" && IsDigit(s[0]) then NumberedFrom(s[1..], digits + 1)
    else digits > 0 && |s| >= 2 && s[0] == '.' && IsSpace(s[1])
  }

  predicate IsBlank(line: string) { Strip(line) == "" }

  predicate IsRule(line: string) { Strip(line) == "---" || Strip(line) == "___" }

  predicate IsBullet(line: string) { StartsWith(Strip(line), "- ") || StartsWith(Strip(line), "* ") }

  predicate IsNumbered(line: string) { NumberedFrom(Strip(line), 0) }

  predicate IsFence(line: string) { StartsWith(Strip(line), "```") }

  /** A line that a table goes on with. */
  predicate HasBar(line: string) { !IsBlank(line) && '|' in line }

  /** A line that a table begins with. */
  predicate IsBarLine(line: string) { StartsWith(Strip(line), "|") && '|' in Strip(line) }

  /** A line that ends a paragraph: `_is_special_line`. */
  predicate IsSpecial(line: string) {
    || StartsWith(Strip(line), "#")
    || IsBullet(line)
    || IsNumbered(line)
    || IsRule(line)
    || IsFence(line)
    || '|' in Strip(line)
  }

  predicate Continues(line: string) { !IsBlank(line) && !IsSpecial(line) }

  // ---------- blocks ----------

  datatype Kind = Blank | Rule | Heading(level: nat) | Bullets | Numbers | Table | Code | Paragraph

  datatype Block = Block(kind: Kind, from: nat, to: nat)

  /** What a line begins, by the order of the tests. A bar line begins a table or, alone, a paragraph; it counts as
      `Table` here. */
  function Begins(line: string): Kind {
    var s := Strip(line);
    if s == "" then Blank
    else if IsRule(line) then Rule
    else if StartsWith(s, "# ") && !StartsWith(s, "## ") then Heading(1)
    else if StartsWith(s, "## ") && !StartsWith(s, "### ") then Heading(2)
    else if StartsWith(s, "### ") then Heading(3)
    else if IsBullet(line) then Bullets
    else if IsNumbered(line) then Numbers
    else if IsBarLine(line) then Table
    else if IsFence(line) then Code
    else Paragraph
  }

  // ---------- what the tests come to ----------

  function Hashes(k: nat): (r: string)
    ensures |r| == k && forall i :: 0 <= i < k ==> r[i] == '#'
  {
    seq(k, _ => '#')
  }

  /** A number sign of `k` digits, a dot and a space. */
  predicate NumberAt(s: string, k: nat) {
    k + 2 <= |s| && (forall i :: 0 <= i < k ==> IsDigit(s[i])) && s[k] == '.' && IsSpace(s[k + 1])
  }

  lemma {:induction false} NumberMeaning(s: string, digits: nat)
    ensures NumberedFrom(s, digits) <==> exists k: nat :: digits + k > 0 && NumberAt(s, k)
    decreases |s|
  {
    if s != "" && IsDigit(s[0]) {
      NumberMeaning(s[1..], digits + 1);
      if k: nat :| digits + 1 + k > 0 && NumberAt(s[1..], k) { NumberLater(s, k); }
      if k: nat :| digits + k > 0 && NumberAt(s, k) { NumberLater(s, k - 1); }
    } else if k: nat :| digits + k > 0 && NumberAt(s, k) {
      assert k == 0;
    } else if NumberedFrom(s, digits) {
      assert NumberAt(s, 0);
    }
  }

  lemma NumberLater(s: string, k: nat)
    requires s != "" && IsDigit(s[0])
    ensures NumberAt(s[1..], k) <==> NumberAt(s, k + 1)
  {
    if NumberAt(s, k + 1) {
      forall i | 0 <= i < k ensures IsDigit(s[1..][i]) { assert s[1..][i] == s[i + 1]; }
    }
  }

  /** What a line begins, each kind by itself: no line answers to two of them, so the order of the tests does not
      matter. */
  lemma BeginsMeaning(line: string)
    ensures var s := Strip(line);
            && (Begins(line).Blank? <==> AllSpace(line))
            && (Begins(line).Rule? <==> s == "---" || s == "___")
            && (forall k: nat :: Begins(line) == Heading(k) <==> 1 <= k <= 3 && Hashes(k) + " " <= s)
            && (Begins(line).Bullets? <==> "- " <= s || "* " <= s)
            && (Begins(line).Numbers? <==> exists k: nat :: k > 0 && NumberAt(s, k))
            && (Begins(line).Table? <==> "|" <= s)
            && (Begins(line).Code? <==> "```" <= s)
  {
    var s := Strip(line);
    BlankMeaning(line);
    NumberMeaning(s, 0);
    HeadingMeaning(s);
    Marks(s);
  }

  lemma BlankMeaning(line: string)
    ensures IsBlank(line) <==> AllSpace(line)
  {
    var a, b := StripMeaning(line);
    if Strip(line) != "" { assert Strip(line)[0] in line && !IsSpace(Strip(line)[0]); }
  }

  lemma HeadingMeaning(s: string)
    ensures Hashes(1) + " " <= s <==> "# " <= s
    ensures Hashes(2) + " " <= s <==> "## " <= s
    ensures Hashes(3) + " " <= s <==> "### " <= s
  {
    assert Hashes(1) == "#" && Hashes(2) == "##" && Hashes(3) == "###";
  }

  /** The marks, character by character. */
  lemma Marks(s: string)
    ensures "# " <= s <==> |s| >= 2 && s[0] == '#' && s[1] == ' '
    ensures "## " <= s <==> |s| >= 3 && s[0] == '#' && s[1] == '#' && s[2] == ' '
    ensures "### " <= s <==> |s| >= 4 && s[0] == '#' && s[1] == '#' && s[2] == '#' && s[3] == ' '
    ensures "- " <= s <==> |s| >= 2 && s[0] == '-' && s[1] == ' '
    ensures "* " <= s <==> |s| >= 2 && s[0] == '*' && s[1] == ' '
    ensures "|" <= s <==> |s| >= 1 && s[0] == '|'
    ensures "```" <= s <==> |s| >= 3 && s[0] == '`' && s[1] == '`' && s[2] == '`'
  {}

  /** A paragraph is ended by every line that begins something else, and by lines with a '#' in front or a bar inside.
      */
  lemma SpecialMeaning(line: string)
    ensures !Begins(line).Paragraph? && !Begins(line).Blank? ==> IsSpecial(line)
    ensures Begins(line).Paragraph? ==> (IsSpecial(line) <==> "#" <= Strip(line) || '|' in line)
    ensures HasBar(line) <==> '|' in line
  {
    StripKeeps(line, '|');
    BlankMeaning(line);
  }

  predicate Run(lines: seq<string>, from: nat, to: nat, p: string -> bool)
    requires from <= to <= |lines|
  {
    forall k :: from <= k < to ==> p(lines[k])
  }

  /** `to` is the end of the lines from `from` on that satisfy `p`. */
  predicate Maximal(lines: seq<string>, from: nat, to: nat, p: string -> bool)
    requires from <= to <= |lines|
  {
    Run(lines, from, to, p) && (to < |lines| ==> !p(lines[to]))
  }

  /** What a block of each kind is. */
  predicate IsBlock(lines: seq<string>, b: Block) {
    b.from < b.to <= |lines| &&
    match b.kind
    case Blank => Begins(lines[b.from]) == b.kind && b.to == b.from + 1
    case Rule => Begins(lines[b.from]) == b.kind && b.to == b.from + 1
    case Heading(_) => Begins(lines[b.from]) == b.kind && b.to == b.from + 1
    case Bullets => Begins(lines[b.from]) == Bullets && Maximal(lines, b.from, b.to, IsBullet)
    case Numbers => Begins(lines[b.from]) == Numbers && Maximal(lines, b.from, b.to, IsNumbered)
    case Table => Begins(lines[b.from]) == Table && b.to >= b.from + 2 && Maximal(lines, b.from, b.to, HasBar)
    case Code => Begins(lines[b.from]) == Code && IsCode(lines, b.from, b.to)
    case Paragraph =>
      && (|| Begins(lines[b.from]) == Paragraph
          || (Begins(lines[b.from]) == Table && (b.from + 1 < |lines| ==> !HasBar(lines[b.from + 1]))))
      && Maximal(lines, b.from + 1, b.to, Continues)
  }

  /** From a fence to the next one, or to the end when there is none. */
  predicate IsCode(lines: seq<string>, from: nat, to: nat)
    requires from < to <= |lines|
  {
    || (to >= from + 2 && IsFence(lines[to - 1]) && Run(lines, from + 1, to - 1, line => !IsFence(line)))
    || (to == |lines| && Run(lines, from + 1, to, line => !IsFence(line)))
  }

  /** The blocks cover the lines from `from` on, one after the other. */
  predicate Tiles(blocks: seq<Block>, from: nat, len: nat)
    decreases |blocks|
  {
    if blocks == [] then from == len
    else blocks[0].from == from && from < blocks[0].to <= len && Tiles(blocks[1..], blocks[0].to, len)
  }

  predicate AllBlocks(lines: seq<string>, blocks: seq<Block>) {
    blocks == [] || (IsBlock(lines, blocks[0]) && AllBlocks(lines, blocks[1..]))
  }

  lemma MaximalUnique(lines: seq<string>, from: nat, a: nat, b: nat, p: string -> bool)
    requires from <= a <= |lines| && from <= b <= |lines|
    requires Maximal(lines, from, a, p) && Maximal(lines, from, b, p)
    ensures a == b
  {}

  /** A bar line has a bar. */
  lemma BarLineHasBar(line: string)
    requires IsBarLine(line)
    ensures HasBar(line)
  {
    InStrip(line, '|');
  }

  /** At each position there is only one block. */
  lemma BlockUnique(lines: seq<string>, a: Block, b: Block)
    requires IsBlock(lines, a) && IsBlock(lines, b) && a.from == b.from
    ensures a == b
  {
    var line := lines[a.from];
    if Begins(line) == Table { BarLineHasBar(line); }
    if a.kind.Paragraph? && b.kind.Paragraph? { MaximalUnique(lines, a.from + 1, a.to, b.to, Continues); }
    if a.kind.Bullets? && b.kind.Bullets? { MaximalUnique(lines, a.from, a.to, b.to, IsBullet); }
    if a.kind.Numbers? && b.kind.Numbers? { MaximalUnique(lines, a.from, a.to, b.to, IsNumbered); }
    if a.kind.Table? && b.kind.Table? { MaximalUnique(lines, a.from, a.to, b.to, HasBar); }
    if a.kind.Code? && b.kind.Code? { CodeUnique(lines, a.from, a.to, b.to); }
  }

  lemma CodeUnique(lines: seq<string>, from: nat, a: nat, b: nat)
    requires from < a <= |lines| && from < b <= |lines| && IsCode(lines, from, a) && IsCode(lines, from, b)
    ensures a == b
  {}

  lemma {:induction false} AllBlocksSnoc(lines: seq<string>, blocks: seq<Block>, b: Block)
    requires AllBlocks(lines, blocks) && IsBlock(lines, b)
    ensures AllBlocks(lines, blocks + [b])
  {
    if blocks == [] {
      assert (blocks + [b])[1..] == [];
    } else {
      assert (blocks + [b])[1..] == blocks[1..] + [b];
      AllBlocksSnoc(lines, blocks[1..], b);
    }
  }

  /** A text has only one division into blocks, so whatever finds one finds the same. */
  lemma {:induction false} DivisionUnique(lines: seq<string>, a: seq<Block>, b: seq<Block>, from: nat)
    requires Tiles(a, from, |lines|) && Tiles(b, from, |lines|) && AllBlocks(lines, a) && AllBlocks(lines, b)
    ensures a == b
    decreases |a|
  {
    if a != [] && b != [] {
      BlockUnique(lines, a[0], b[0]);
      DivisionUnique(lines, a[1..], b[1..], a[0].to);
      assert a == [a[0]] + a[1..] && b == [b[0]] + b[1..];
    }
  }

  // ---------- the scanner ----------

  lemma {:induction false} TilesSnoc(blocks: seq<Block>, from: nat, mid: nat, b: Block, len: nat)
    requires Tiles(blocks, from, mid) && b.from == mid < b.to <= len
    ensures Tiles(blocks + [b], from, b.to)
    decreases |blocks|
  {
    if blocks != [] {
      assert (blocks + [b])[0] == blocks[0] && (blocks + [b])[1..] == blocks[1..] + [b];
      TilesSnoc(blocks[1..], blocks[0].to, mid, b, len);
      TilesWider(blocks + [b], from, b.to);
    } else {
      assert (blocks + [b])[1..] == [];
    }
  }

  lemma TilesWider(blocks: seq<Block>, from: nat, len: nat)
    requires blocks != [] && blocks[0].from == from < blocks[0].to && Tiles(blocks[1..], blocks[0].to, len)
    ensures Tiles(blocks, from, len)
  {
    TilesForward(blocks[1..], blocks[0].to, len);
  }

  lemma {:induction false} TilesForward(blocks: seq<Block>, from: nat, len: nat)
    requires Tiles(blocks, from, len)
    ensures from <= len
    decreases |blocks|
  {
    if blocks != [] { TilesForward(blocks[1..], blocks[0].to, len); }
  }

  /** The lines from `i` on that satisfy `p`. */
  method Collect(lines: seq<string>, i0: nat, p: string -> bool) returns (i: nat)
    requires i0 <= |lines|
    ensures i0 <= i <= |lines| && Maximal(lines, i0, i, p)
  {
    i := i0;
    while i < |lines| && p(lines[i])
      invariant i0 <= i <= |lines| && Run(lines, i0, i, p)
    {
      i := i + 1;
    }
  }

  /** One turn of the scanner: the block at `i`. In a lone table row the cursor runs forward and is set back. */
  method NextBlock(lines: seq<string>, i0: nat) returns (b: Block)
    requires i0 < |lines|
    ensures b.from == i0 && IsBlock(lines, b)
  {
    var i, line := i0, lines[i0];
    var kind := Begins(line);
    if kind.Blank? || kind.Rule? || kind.Heading? {
      return Block(kind, i, i + 1);
    }
    if kind.Bullets? {
      i := Collect(lines, i, IsBullet);
      return Block(Bullets, i0, i);
    }
    if kind.Numbers? {
      i := Collect(lines, i, IsNumbered);
      return Block(Numbers, i0, i);
    }
    if kind.Table? {
      BarLineHasBar(line);
      i := Collect(lines, i, HasBar);
      var rows := i - i0;
      if rows >= 2 {
        return Block(Table, i0, i);
      }
      i := i - rows;
    }
    if kind.Code? {
      i := i + 1;
      while i < |lines| && !IsFence(lines[i])
        invariant i0 < i <= |lines| && Run(lines, i0 + 1, i, l => !IsFence(l))
      {
        i := i + 1;
      }
      if i < |lines| {
        i := i + 1;
      }
      return Block(Code, i0, i);
    }
    i := Collect(lines, i + 1, Continues);
    return Block(Paragraph, i0, i);
  }

  /** The scanner ends on every text, and its blocks cover all lines in order, without gaps or overlaps, each of
      them being what its kind says. */
  method Scan(lines: seq<string>) returns (blocks: seq<Block>)
    ensures Tiles(blocks, 0, |lines|) && AllBlocks(lines, blocks)
  {
    blocks := [];
    var i := 0;
    while i < |lines|
      invariant i <= |lines| && Tiles(blocks, 0, i) && AllBlocks(lines, blocks)
      decreases |lines| - i
    {
      var b := NextBlock(lines, i);
      TilesSnoc(blocks, 0, i, b, |lines|);
      AllBlocksSnoc(lines, blocks, b);
      blocks := blocks + [b];
      i := b.to;
    }
  }
}
