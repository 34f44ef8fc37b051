/** Finding the markdown tables of a message: the flag-driven line scan of `_convert_content`. */
module TableScan {
  import opened Wrappers
  import opened Sequences
  import opened Strings
  import SheetNames

  // ---------- the kinds of a stripped line ----------

  predicate StartsWithBar(s: string) { s != "" && s[0] == '|' }

  predicate IsSeparator(s: string) { forall i :: 0 <= i < |s| ==> s[i] in [' ', '|', '-', ':'] }

  /** A line that looks like a table row; separators do too. */
  predicate LooksLikeRow(s: string) { StartsWithBar(s) && '|' in s[1..] }

  predicate IsRow(s: string) { LooksLikeRow(s) && !IsSeparator(s) }

  /** Only a line that does not start with a bar ends a table. */
  predicate EndsTable(s: string) { !StartsWithBar(s) }

  predicate LooksLikeTitle(s: string) {
    s != "" && !StartsWithBar(s) && ("table" <= Lower(s) || s[0] == '#' || ':' in s)
  }

  function TrimHashes(s: string): string { if s != "" && s[0] == '#' then TrimHashes(s[1..]) else s }

  function TitleText(s: string): string { Strip(TrimHashes(s)) }

  /** A table row begins with a bar and has another one. */
  lemma RowMeaning(s: string)
    ensures LooksLikeRow(s) <==> exists a, b :: s == "|" + a + "|" + b
  {
    if LooksLikeRow(s) {
      var k :| 0 <= k < |s[1..]| && s[1..][k] == '|';
      assert s == "|" + s[1..k + 1] + "|" + s[k + 2..];
    }
    if a, b :| s == "|" + a + "|" + b { assert s[1..][|a|] == '|'; }
  }

  /** A separator consists of bars, dashes, colons and blanks, and of nothing else. */
  lemma SeparatorMeaning(a: string, b: string)
    ensures IsSeparator("| :-") && IsSeparator("")
    ensures IsSeparator(a + b) <==> IsSeparator(a) && IsSeparator(b)
    ensures IsSeparator(a) ==> forall c <- a :: c in "| :-"
  {
    if IsSeparator(a + b) {
      forall i | 0 <= i < |a| ensures a[i] in [' ', '|', '-', ':'] { assert (a + b)[i] == a[i]; }
      forall i | 0 <= i < |b| ensures b[i] in [' ', '|', '-', ':'] { assert (a + b)[|a| + i] == b[i]; }
    }
  }

  /** Whether a line looks like a title does not depend on the case of its letters. */
  lemma TitlesIgnoreCase(s: string, t: string)
    requires Lower(s) == Lower(t)
    ensures LooksLikeTitle(s) <==> LooksLikeTitle(t)
  {
    assert |s| == |t|;
    forall i | 0 <= i < |s| ensures IsMark(s[i]) || IsMark(t[i]) ==> s[i] == t[i] {
      assert Lower(s)[i] == Lower(t)[i];
    }
    assert ':' in s <==> ':' in t by {
      if i :| 0 <= i < |s| && s[i] == ':' { assert t[i] == ':'; }
      if i :| 0 <= i < |t| && t[i] == ':' { assert s[i] == ':'; }
    }
  }

  predicate IsMark(c: char) { c in "|#:" }

  /** "Table", "#" or a colon makes a title. */
  lemma TitleMarks(s: string)
    ensures LooksLikeTitle("Table" + s) && LooksLikeTitle("#" + s)
    ensures !("|" <= s) && ':' in s ==> LooksLikeTitle(s)
    ensures "|" <= s || s == "" ==> !LooksLikeTitle(s)
  {
    LowerMeaning("Table", s);
    assert Lower("Table") == "table";
  }

  // ---------- the reference: split at the lines that end tables ----------

  datatype Table = Table(title: Option<string>, rows: seq<string>)

  function Rows(lines: seq<string>): seq<string> {
    if lines == [] then []
    else (if IsRow(lines[0]) then [lines[0]] else []) + Rows(lines[1..])
  }

  /** The lines from the first one that ends a table on. */
  function Rest(lines: seq<string>): (r: seq<string>)
    ensures |r| <= |lines|
  {
    if lines == [] || EndsTable(lines[0]) then lines else Rest(lines[1..])
  }

  /** The lines before that. */
  function Block(lines: seq<string>): seq<string> {
    if lines == [] || EndsTable(lines[0]) then [] else [lines[0]] + Block(lines[1..])
  }

  /** The title that the lines leave pending: the last one that looks like a title. */
  function PendingAfter(pending: Option<string>, line: string): Option<string> {
    if LooksLikeTitle(line) then Some(TitleText(line)) else pending
  }

  /** One table for each block of lines between table ends that has rows; its title is the last title-like line
      since the table before it. */
  function Tables(lines: seq<string>, pending: Option<string>): seq<Table>
    decreases |lines|
  {
    if lines == [] then []
    else if EndsTable(lines[0]) then Tables(lines[1..], PendingAfter(pending, lines[0]))
    else
      var rows := Rows(Block(lines));
      if rows == [] then Tables(Rest(lines), pending)
      else [Table(pending, rows)] + Tables(Rest(lines), None)
  }

  // ---------- what the reference means ----------

  function RowAt(lines: seq<string>): nat -> bool { (i: nat) => i < |lines| && IsRow(lines[i]) }

  lemma {:induction false} RowsFilter(lines: seq<string>)
    ensures IsFilter(Rows(lines), lines, RowAt(lines))
  {
    if lines == [] {
      FilterNothing<string>(RowAt(lines));
    } else {
      RowsFilter(lines[1..]);
      FilterSame(Rows(lines[1..]), lines[1..], RowAt(lines[1..]), Later(RowAt(lines)));
      FilterCons(Rows(lines[1..]), lines, RowAt(lines));
      assert Rows(lines) == if RowAt(lines)(0) then [lines[0]] + Rows(lines[1..]) else Rows(lines[1..]);
    }
  }

  /** The rows of all tables. */
  function AllRows(tables: seq<Table>): seq<string> {
    if tables == [] then [] else tables[0].rows + AllRows(tables[1..])
  }

  lemma {:induction false} RowsKept(lines: seq<string>, pending: Option<string>)
    ensures AllRows(Tables(lines, pending)) == Rows(lines)
    ensures forall t <- Tables(lines, pending) :: t.rows != []
    decreases |lines|
  {
    if lines != [] {
      if EndsTable(lines[0]) {
        RowsKept(lines[1..], PendingAfter(pending, lines[0]));
      } else {
        BlockAndRest(lines);
        RowsKept(Rest(lines), pending);
        RowsKept(Rest(lines), None);
      }
    }
  }

  lemma {:induction false} BlockAndRest(lines: seq<string>)
    ensures lines == Block(lines) + Rest(lines) && Rows(lines) == Rows(Block(lines)) + Rows(Rest(lines))
  {
    if lines != [] && !EndsTable(lines[0]) {
      BlockAndRest(lines[1..]);
      assert Block(lines)[1..] == Block(lines[1..]);
    } else {
      assert Rows([]) + Rows(lines) == Rows(lines);
    }
  }

  /** Every row lands in exactly one table, in order; no table is without rows. */
  lemma RowsLandOnce(lines: seq<string>, pending: Option<string>)
    ensures IsFilter(AllRows(Tables(lines, pending)), lines, RowAt(lines))
    ensures forall t <- Tables(lines, pending) :: t.rows != []
  {
    RowsKept(lines, pending);
    RowsFilter(lines);
  }

  /** The title that is pending behind `lines`. */
  function Left(pending: Option<string>, lines: seq<string>): Option<string>
    decreases |lines|
  {
    if lines == [] then pending
    else Left(if IsRow(lines[0]) then None else PendingAfter(pending, lines[0]), lines[1..])
  }

  /** Lines none of which ends a table hold one table when there are rows among them, and none otherwise. */
  lemma {:induction false} OneTable(lines: seq<string>, pending: Option<string>)
    requires forall line <- lines :: !EndsTable(line)
    ensures Tables(lines, pending) == if Rows(lines) == [] then [] else [Table(pending, Rows(lines))]
    ensures Left(pending, lines) == if Rows(lines) == [] then pending else None
  {
    if lines != [] {
      OneTable(lines[1..], pending);
      OneTable(lines[1..], None);
      WholeBlock(lines);
    }
  }

  lemma {:induction false} WholeBlock(lines: seq<string>)
    requires forall line <- lines :: !EndsTable(line)
    ensures Block(lines) == lines && Rest(lines) == []
  {
    if lines != [] { WholeBlock(lines[1..]); }
  }

  /** A line that ends a table divides the lines: the tables are those before it and those behind it. */
  lemma {:induction false} DividedTables(a: seq<string>, e: string, b: seq<string>, pending: Option<string>)
    requires EndsTable(e)
    ensures Tables(a + [e] + b, pending) == Tables(a, pending) + Tables(b, PendingAfter(Left(pending, a), e))
    decreases |a|
  {
    if a == [] {
      assert a + [e] + b == [e] + b && ([e] + b)[1..] == b;
    } else if EndsTable(a[0]) {
      assert (a + [e] + b)[1..] == a[1..] + [e] + b;
      DividedTables(a[1..], e, b, PendingAfter(pending, a[0]));
    } else {
      DividedBlock(a, e, b);
      LeftOfBlock(pending, a);
      var rows := Rows(Block(a));
      DividedTables(Rest(a), e, b, if rows == [] then pending else None);
      if rows != [] {
        Regroup([Table(pending, rows)], Tables(Rest(a), None), Tables(b, PendingAfter(Left(pending, a), e)));
      }
    }
  }

  lemma {:induction false} DividedBlock(a: seq<string>, e: string, b: seq<string>)
    requires EndsTable(e)
    ensures Block(a + [e] + b) == Block(a) && Rest(a + [e] + b) == Rest(a) + [e] + b
  {
    if a == [] {
      assert a + [e] + b == [e] + b;
    } else if !EndsTable(a[0]) {
      assert (a + [e] + b)[1..] == a[1..] + [e] + b;
      DividedBlock(a[1..], e, b);
    }
  }

  lemma {:induction false} LeftOfBlock(pending: Option<string>, lines: seq<string>)
    ensures Left(pending, lines) == Left(if Rows(Block(lines)) == [] then pending else None, Rest(lines))
    decreases |lines|
  {
    if lines != [] && !EndsTable(lines[0]) {
      BlockRows(lines);
      LeftOfBlock(if IsRow(lines[0]) then None else pending, lines[1..]);
    }
  }

  /** The title pending behind one more line: none behind a row, the text of a line that looks like a title, else what
      was pending before. */
  lemma {:induction false} LeftSnoc(pending: Option<string>, lines: seq<string>, line: string)
    ensures Left(pending, []) == pending
    ensures Left(pending, lines + [line])
            == if IsRow(line) then None
               else if LooksLikeTitle(line) then Some(TitleText(line)) else Left(pending, lines)
    decreases |lines|
  {
    if lines == [] {
      assert lines + [line] == [line];
    } else {
      assert (lines + [line])[0] == lines[0] && (lines + [line])[1..] == lines[1..] + [line];
      LeftSnoc(if IsRow(lines[0]) then None else PendingAfter(pending, lines[0]), lines[1..], line);
    }
  }

  predicate AllHashes(s: string) { forall c <- s :: c == '#' }

  lemma {:induction false} TrimHashesMeaning(s: string) returns (hashes: string)
    ensures s == hashes + TrimHashes(s) && AllHashes(hashes) && !("#" <= TrimHashes(s))
  {
    hashes := "";
    if s != "" && s[0] == '#' {
      var more := TrimHashesMeaning(s[1..]);
      hashes := ['#'] + more;
    }
  }

  /** The text of a title stands behind its '#' signs, without the spaces around it. */
  lemma TitleTextMeaning(s: string) returns (hashes: string, a: string, b: string)
    ensures s == hashes + (a + TitleText(s) + b)
    ensures AllHashes(hashes) && !("#" <= a + TitleText(s) + b)
    ensures AllSpace(a) && AllSpace(b) && Stripped(TitleText(s))
  {
    hashes := TrimHashesMeaning(s);
    a, b := StripMeaning(TrimHashes(s));
  }

  // ---------- the scan ----------

  /** The state of the scan between two lines. */
  datatype Scan = Scan(inTable: bool, rows: seq<string>, title: Option<string>, pending: Option<string>)

  /** What is still to come when the scan stands in front of `lines`. */
  function Remaining(s: Scan, lines: seq<string>): seq<Table> {
    if !s.inTable then Tables(lines, s.pending)
    else [Table(s.title, s.rows + Rows(Block(lines)))] + Tables(Rest(lines), None)
  }

  lemma SkipInBlock(lines: seq<string>, pending: Option<string>)
    requires lines != [] && !EndsTable(lines[0]) && !IsRow(lines[0])
    ensures Tables(lines, pending) == Tables(lines[1..], pending)
  {
    BlockRows(lines);
    var tail := lines[1..];
    var rows := Rows(Block(tail));
    assert Rows(Block(lines)) == [] + rows == rows;
    if tail == [] || EndsTable(tail[0]) {
      assert rows == [] && Rest(tail) == tail;
    }
  }

  lemma BlockRows(lines: seq<string>)
    requires lines != [] && !EndsTable(lines[0])
    ensures Rows(Block(lines)) == (if IsRow(lines[0]) then [lines[0]] else []) + Rows(Block(lines[1..]))
    ensures Rest(lines) == Rest(lines[1..])
  {
    assert Block(lines)[1..] == Block(lines[1..]);
  }

  /** The table a line completes. */
  function Found(s: Scan, line: string): seq<Table> {
    if s.inTable && EndsTable(line) then [Table(s.title, s.rows)] else []
  }

  /** What a line does to the scan. */
  function Next(s: Scan, line: string): Scan {
    if IsRow(line) then
      if s.inTable then s.(rows := s.rows + [line]) else Scan(true, [] + [line], s.pending, None)
    else if EndsTable(line) then
      if s.inTable then Scan(false, [], None, PendingAfter(s.pending, line))
      else s.(pending := PendingAfter(s.pending, line))
    else s
  }

  /** One line of the scan, seen from what is still to come. */
  lemma ScanStep(s: Scan, lines: seq<string>)
    requires lines != [] && (s.inTable ==> s.pending == None)
    ensures Remaining(s, lines) == Found(s, lines[0]) + Remaining(Next(s, lines[0]), lines[1..])
  {
    var s' := Next(s, lines[0]);
    var line := lines[0];
    if EndsTable(line) {
      assert s.rows + Rows(Block(lines)) == s.rows;
    } else {
      BlockRows(lines);
      if IsRow(line) {
        var tail := Rows(Block(lines[1..]));
        if s.inTable {
          assert s.rows + ([line] + tail) == s'.rows + tail;
        } else {
          assert [line] + tail == s'.rows + tail;
        }
      } else if !s.inTable {
        SkipInBlock(lines, s.pending);
      } else {
        assert Rows(Block(lines)) == Rows(Block(lines[1..]));
      }
    }
  }

  lemma ScanOn(all: seq<Table>, tables: seq<Table>, s: Scan, lines: seq<string>)
    requires lines != [] && (s.inTable ==> s.pending == None)
    requires all == tables + Remaining(s, lines)
    ensures all == (tables + Found(s, lines[0])) + Remaining(Next(s, lines[0]), lines[1..])
  {
    ScanStep(s, lines);
    Regroup(tables, Found(s, lines[0]), Remaining(Next(s, lines[0]), lines[1..]));
  }

  lemma Regroup(a: seq<Table>, b: seq<Table>, c: seq<Table>)
    ensures a + (b + c) == (a + b) + c
  {}

  lemma ScanEnd(s: Scan)
    ensures Remaining(s, []) == if s.inTable then [Table(s.title, s.rows)] else []
  {
    assert s.rows + Rows(Block([])) == s.rows;
  }

  /** The body of the scan. */
  method ScanLine(s: Scan, line: string) returns (s': Scan, found: seq<Table>)
    requires s.inTable ==> s.pending == None
    ensures s' == Next(s, line)
    ensures found == Found(s, line)
  {
    var inTable, rows, title, pending := s.inTable, s.rows, s.title, s.pending;
    found := [];
    if !inTable && LooksLikeTitle(line) { pending := Some(TitleText(line)); }
    if LooksLikeRow(line) {
      if !IsSeparator(line) {
        if !inTable {
          inTable, rows, title, pending := true, [], pending, None;
        }
        rows := rows + [line];
      }
    } else if inTable && !StartsWithBar(line) {
      found := [Table(title, rows)];
      inTable, rows, title := false, [], None;
      if LooksLikeTitle(line) { pending := Some(TitleText(line)); }
    }
    s' := Scan(inTable, rows, title, pending);
  }

  /** The scan finds the tables of the reference, rows, order and titles included: every row lands in exactly one
      table, a table goes on through separators and stray bars, and only a line without a leading bar ends it. */
  method FindTables(lines: seq<string>) returns (tables: seq<Table>)
    ensures tables == Tables(lines, None)
  {
    tables := [];
    var s := Scan(false, [], None, None);
    for i := 0 to |lines|
      invariant s.inTable ==> s.pending == None
      invariant Tables(lines, None) == tables + Remaining(s, lines[i..])
    {
      assert lines[i..][0] == lines[i] && lines[i..][1..] == lines[i + 1..];
      ScanOn(Tables(lines, None), tables, s, lines[i..]);
      var next, found := ScanLine(s, lines[i]);
      tables := tables + found;
      s := next;
    }
    ScanEnd(s);
    if s.inTable { tables := tables + [Table(s.title, s.rows)]; }
  }

  // ---------- from tables to sheet names ----------

  /** The characters a title may not carry into a sheet name: two become underscores, five are dropped. */
  function Clean(s: string): (r: string)
    ensures |r| <= |s|
    ensures forall i :: 0 <= i < |r| ==> r[i] !in ['/', '\\', '*', '?', '[', ']', ':']
  {
    if s == "" then ""
    else if s[0] in ['/', '\\'] then "_" + Clean(s[1..])
    else if s[0] in ['*', '?', '[', ']', ':'] then Clean(s[1..])
    else [s[0]] + Clean(s[1..])
  }

  /** The name a table asks for; `count` numbers the tables with contents. */
  function SheetTitle(title: Option<string>, count: nat): string {
    if title.Some? && title.value != "" then Clean(SheetNames.PyTake(title.value, SheetNames.MAX))
    else "Table_" + SheetNames.Decimal(count)
  }

  /** Cleaning works character by character: slashes become underscores, five others go, the rest stays. */
  lemma CleanMeaning(a: string, b: string)
    ensures Clean(a + b) == Clean(a) + Clean(b)
    ensures Clean("/") == "_" && Clean("\\") == "_" && Clean("*?[]:") == ""
    ensures (forall c <- a :: Allowed(c)) ==> Clean(a) == a
  {
    CleanJoined(a, b);
    DropsFive();
    if forall c <- a :: Allowed(c) { CleanKeeps(a); }
  }

  predicate Allowed(c: char) { c !in "/\\*?[]:" }

  lemma {:induction false} CleanKeeps(a: string)
    requires forall c <- a :: Allowed(c)
    ensures Clean(a) == a
  {
    if a != "" {
      CleanKeeps(a[1..]);
      assert Allowed(a[0]);
      assert [a[0]] + a[1..] == a;
    }
  }

  lemma {:induction false} CleanJoined(a: string, b: string)
    ensures Clean(a + b) == Clean(a) + Clean(b)
    decreases |a|
  {
    if a == "" {
      assert a + b == b;
    } else {
      assert (a + b)[0] == a[0] && (a + b)[1..] == a[1..] + b;
      CleanJoined(a[1..], b);
    }
  }

  lemma DropsFive()
    ensures Clean("*?[]:") == ""
  {
    assert "*?[]:"[1..] == "?[]:" && "?[]:"[1..] == "[]:" && "[]:"[1..] == "]:" && "]:"[1..] == ":" && ":"[1..] == "";
  }

  /** A title that fits and has no such characters is the name asked for; a table without a title asks for its number.
      */
  lemma SheetTitleMeaning(title: string, count: nat)
    ensures title != "" && |title| <= SheetNames.MAX && (forall c <- title :: Allowed(c)) ==>
              SheetTitle(Some(title), count) == title
    ensures |title| > SheetNames.MAX ==> SheetTitle(Some(title), count) == SheetTitle(Some(title[..31]), count)
    ensures SheetTitle(None, count) == SheetTitle(Some(""), count) == "Table_" + SheetNames.Decimal(count)
  {
    CleanMeaning(title, "");
  }

  lemma TitleFits(title: Option<string>, count: nat)
    requires count < SheetNames.Pow10(25)
    ensures |SheetTitle(title, count)| <= SheetNames.MAX
  {
    SheetNames.DecimalLength(count, 25);
  }

  /** The tables that have contents, as `parses` says. */
  function Filled(tables: seq<Table>, parses: seq<string> -> bool): seq<Table> {
    if tables == [] then []
    else (if parses(tables[0].rows) then [tables[0]] else []) + Filled(tables[1..], parses)
  }

  function FilledAt(tables: seq<Table>, parses: seq<string> -> bool): nat -> bool {
    (i: nat) => i < |tables| && parses(tables[i].rows)
  }

  /** Exactly the tables with contents are written, in order. */
  lemma {:induction false} FilledMeaning(tables: seq<Table>, parses: seq<string> -> bool)
    ensures IsFilter(Filled(tables, parses), tables, FilledAt(tables, parses))
  {
    if tables == [] {
      FilterNothing<Table>(FilledAt(tables, parses));
    } else {
      var rest := tables[1..];
      FilledMeaning(rest, parses);
      FilterSame(Filled(rest, parses), rest, FilledAt(rest, parses), Later(FilledAt(tables, parses)));
      FilterCons(Filled(rest, parses), tables, FilledAt(tables, parses));
      assert Filled(tables, parses)
          == if FilledAt(tables, parses)(0) then [tables[0]] + Filled(rest, parses) else Filled(rest, parses);
    }
  }

  lemma FilledSnoc(tables: seq<Table>, t: Table, parses: seq<string> -> bool)
    ensures Filled(tables + [t], parses) == Filled(tables, parses) + (if parses(t.rows) then [t] else [])
  {
    if tables == [] {
      assert [t][1..] == [];
    } else {
      FilledSnoc(tables[1..], t, parses);
      assert (tables + [t])[1..] == tables[1..] + [t];
    }
  }

  /** The names asked for, table by table. */
  ghost predicate Titled(titles: seq<string>, filled: seq<Table>) {
    |titles| == |filled| && forall i :: 0 <= i < |filled| ==> titles[i] == SheetTitle(filled[i].title, i + 1)
  }

  lemma TitledSnoc(titles: seq<string>, filled: seq<Table>, t: Table)
    requires Titled(titles, filled)
    ensures Titled(titles + [SheetTitle(t.title, |titles| + 1)], filled + [t])
  {}

  lemma TitledFits(titles: seq<string>, filled: seq<Table>)
    requires Titled(titles, filled) && |titles| < SheetNames.Pow10(25)
    ensures SheetNames.Short(titles)
  {
    forall i | 0 <= i < |titles| ensures |titles[i]| <= SheetNames.MAX { TitleFits(filled[i].title, i + 1); }
  }

  /** Number the tables with contents and name them. */
  method Titles(tables: seq<Table>, parses: seq<string> -> bool) returns (titles: seq<string>)
    ensures Titled(titles, Filled(tables, parses))
  {
    titles := [];
    for i := 0 to |tables|
      invariant Titled(titles, Filled(tables[..i], parses))
    {
      FilledSnoc(tables[..i], tables[i], parses);
      assert tables[..i] + [tables[i]] == tables[..i + 1];
      if parses(tables[i].rows) {
        TitledSnoc(titles, Filled(tables[..i], parses), tables[i]);
        titles := titles + [SheetTitle(tables[i].title, |titles| + 1)];
      }
    }
    assert tables[..|tables|] == tables;
  }

  /** The sheets written for a message: one for each table with contents, or one for the whole content; their names are
      pairwise distinct and, short of 10^25 tables, at most 31 characters long; every table has the name it asks for
      unless an earlier one took that. */
  method SheetsFor(lines: seq<string>, parses: seq<string> -> bool) returns (names: seq<string>)
    ensures SheetNames.PairwiseDistinct(names)
    ensures var filled := Filled(Tables(lines, None), parses);
            if filled == [] then names == ["Data"]
            else |names| == |filled|
                 && forall i :: 0 <= i < |names| ==> SheetNames.NamedFor(names, i, SheetTitle(filled[i].title, i + 1))
    ensures |names| < SheetNames.Pow10(25) ==> SheetNames.Short(names)
  {
    var tables := FindTables(lines);
    var titles := Titles(tables, parses);
    if |titles| < SheetNames.Pow10(25) { TitledFits(titles, Filled(tables, parses)); }
    if titles == [] { titles := ["Data"]; }
    PowGrows(25, 30);
    names := SheetNames.AllocateNames(titles);
    assert SheetNames.NamedFor(names, 0, titles[0]);
  }

  lemma PowGrows(a: nat, b: nat)
    requires a <= b
    ensures SheetNames.Pow10(a) <= SheetNames.Pow10(b)
  {
    if a < b { PowGrows(a, b - 1); }
  }
}
