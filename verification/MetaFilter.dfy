/** `meta_filter`: the documents selected by a list of metadata filters. */
module MetaFilter {

  type Doc = string

  /** A metadata value with the documents that carry it. */
  datatype Entry = Entry(value: string, docs: seq<Doc>)

  datatype Filter = Filter(key: string, op: string, value: string)

  /** Which entries of a filter's key match, by position: the comparison rebinds its operand while it walks the
      entries, so the answer may depend on where it stands. */
  type Matcher = (Filter, nat) -> bool

  /** The documents that filter `f` selects. */
  ghost function Selected(metas: map<string, seq<Entry>>, f: Filter, m: Matcher): set<Doc> {
    if f.key !in metas then {}
    else set i, d | 0 <= i < |metas[f.key]| && m(f, i) && d in metas[f.key][i].docs :: d
  }

  function Elements(ds: seq<Doc>): set<Doc> { set d | d in ds }

  /** `filter_out`: the documents of the matching entries, in order, with repetitions. */
  method FilterOut(entries: seq<Entry>, f: Filter, m: Matcher) returns (ids: seq<Doc>)
    ensures forall d :: d in ids <==> exists i :: 0 <= i < |entries| && m(f, i) && d in entries[i].docs
  {
    ids := [];
    for i := 0 to |entries|
      invariant forall d :: d in ids <==> exists j :: 0 <= j < i && m(f, j) && d in entries[j].docs
    {
      if m(f, i) { ids := ids + entries[i].docs; }
    }
  }

  // ---------- what the filters mean together ----------

  ghost function Union(sets: seq<set<Doc>>): set<Doc> {
    if sets == [] then {} else sets[0] + Union(sets[1..])
  }

  ghost function Intersection(sets: seq<set<Doc>>): set<Doc>
    requires sets != []
  {
    if |sets| == 1 then sets[0] else sets[0] * Intersection(sets[1..])
  }

  /** The filters from the first one on that selects anything. */
  ghost function FromFirstNonEmpty(sets: seq<set<Doc>>): seq<set<Doc>> {
    if sets == [] || sets[0] != {} then sets else FromFirstNonEmpty(sets[1..])
  }

  /** The meaning of a list of filters. */
  ghost function Meaning(sets: seq<set<Doc>>, conjunction: bool): set<Doc> {
    if !conjunction then Union(sets)
    else if FromFirstNonEmpty(sets) == [] then {}
    else Intersection(FromFirstNonEmpty(sets))
  }

  ghost function AllSelected(metas: map<string, seq<Entry>>, filters: seq<Filter>, m: Matcher): (r: seq<set<Doc>>)
    ensures |r| == |filters|
  {
    if filters == [] then [] else [Selected(metas, filters[0], m)] + AllSelected(metas, filters[1..], m)
  }

  lemma {:induction false} AllSelectedAt(metas: map<string, seq<Entry>>, filters: seq<Filter>, m: Matcher, i: nat)
    requires i < |filters|
    ensures AllSelected(metas, filters, m)[i] == Selected(metas, filters[i], m)
    decreases |filters|
  {
    if i > 0 { AllSelectedAt(metas, filters[1..], m, i - 1); }
  }

  lemma {:induction false} UnionSnoc(sets: seq<set<Doc>>, s: set<Doc>)
    ensures Union(sets + [s]) == Union(sets) + s
    decreases |sets|
  {
    if sets == [] {
      assert [s][1..] == [];
    } else {
      assert (sets + [s])[1..] == sets[1..] + [s];
      UnionSnoc(sets[1..], s);
    }
  }

  lemma {:induction false} IntersectionSnoc(sets: seq<set<Doc>>, s: set<Doc>)
    requires sets != []
    ensures Intersection(sets + [s]) == Intersection(sets) * s
    decreases |sets|
  {
    assert (sets + [s])[1..] == sets[1..] + [s];
    if |sets| == 1 {
      assert sets[1..] + [s] == [s];
    } else {
      IntersectionSnoc(sets[1..], s);
    }
  }

  lemma {:induction false} FirstNonEmptySnoc(sets: seq<set<Doc>>, s: set<Doc>)
    ensures FromFirstNonEmpty(sets) != [] ==> FromFirstNonEmpty(sets + [s]) == FromFirstNonEmpty(sets) + [s]
    ensures FromFirstNonEmpty(sets) == [] ==> FromFirstNonEmpty(sets + [s]) == if s == {} then [] else [s]
    decreases |sets|
  {
    if sets == [] {
      assert [s][1..] == [];
    } else {
      assert (sets + [s])[1..] == sets[1..] + [s];
      FirstNonEmptySnoc(sets[1..], s);
    }
  }

  /** One more filter, as the loop treats it: the first documents found are taken, later ones are combined. */
  lemma MeaningSnoc(sets: seq<set<Doc>>, s: set<Doc>, conjunction: bool)
    ensures !conjunction ==> Meaning(sets + [s], conjunction) == Meaning(sets, conjunction) + s
    ensures conjunction && Meaning(sets, conjunction) != {} ==>
              Meaning(sets + [s], conjunction) == Meaning(sets, conjunction) * s
    ensures conjunction && FromFirstNonEmpty(sets) == [] ==> Meaning(sets + [s], conjunction) == s
  {
    UnionSnoc(sets, s);
    FirstNonEmptySnoc(sets, s);
    if FromFirstNonEmpty(sets) != [] { IntersectionSnoc(FromFirstNonEmpty(sets), s); }
  }

  /** An intersection that has become empty stays empty. */
  lemma {:induction false} EmptyStays(sets: seq<set<Doc>>, more: seq<set<Doc>>)
    requires FromFirstNonEmpty(sets) != [] && Meaning(sets, true) == {}
    ensures Meaning(sets + more, true) == {}
    decreases |more|
  {
    if more == [] {
      assert sets + more == sets;
    } else {
      var s := more[0];
      FirstNonEmptySnoc(sets, s);
      IntersectionSnoc(FromFirstNonEmpty(sets), s);
      assert (sets + [s]) + more[1..] == sets + more;
      EmptyStays(sets + [s], more[1..]);
    }
  }

  /** `r` lists every element of `s` once, but for those in `rest`. */
  ghost predicate Listed(s: set<Doc>, r: seq<Doc>, rest: set<Doc>) {
    rest <= s && Elements(r) == s - rest && |r| == |Elements(r)|
  }

  lemma ListedOnce(s: set<Doc>, r: seq<Doc>, rest: set<Doc>, d: Doc)
    requires Listed(s, r, rest) && d in rest
    ensures Listed(s, r + [d], rest - {d})
  {
    ElementsSnoc(r, d);
    assert s - (rest - {d}) == (s - rest) + {d};
  }

  lemma ElementsSnoc(r: seq<Doc>, d: Doc)
    ensures Elements(r + [d]) == Elements(r) + {d}
  {}

  /** One turn of the loop over the filters. */
  lemma NextFilter(all: seq<set<Doc>>, i: nat, conjunction: bool, now: set<Doc>)
    requires i < |all| && now == Meaning(all[..i], conjunction)
    requires conjunction && now == {} ==> FromFirstNonEmpty(all[..i]) == []
    ensures !conjunction ==> Meaning(all[..i + 1], conjunction) == now + all[i]
    ensures conjunction && now == {} ==>
              Meaning(all[..i + 1], conjunction) == all[i] && (all[i] == {} ==> FromFirstNonEmpty(all[..i + 1]) == [])
    ensures conjunction && now != {} ==>
              Meaning(all[..i + 1], conjunction) == now * all[i]
              && (now * all[i] == {} ==> Meaning(all, conjunction) == {})
  {
    assert all[..i] + [all[i]] == all[..i + 1];
    MeaningSnoc(all[..i], all[i], conjunction);
    FirstNonEmptySnoc(all[..i], all[i]);
    if conjunction && now != {} && now * all[i] == {} {
      EmptyStays(all[..i + 1], all[i + 1..]);
      assert all[..i + 1] + all[i + 1..] == all;
    }
  }

  /** `list` of a set: every element once, in some order. */
  method ToList(s: set<Doc>) returns (r: seq<Doc>)
    ensures Elements(r) == s && |r| == |s|
  {
    r := [];
    var rest := s;
    while rest != {}
      invariant Listed(s, r, rest)
      decreases rest
    {
      var d :| d in rest;
      ListedOnce(s, r, rest, d);
      r := r + [d];
      rest := rest - {d};
    }
  }

  /** With "or" the result is the union of what the filters select; with "and" it is the intersection of all filters
      from the first one on that selects anything, which is that of all filters exactly when NothingSkipped holds. No
      document is listed twice. */
  method Apply(metas: map<string, seq<Entry>>, filters: seq<Filter>, conjunction: bool, m: Matcher)
    returns (r: seq<Doc>)
    ensures Elements(r) == Meaning(AllSelected(metas, filters, m), conjunction)
    ensures conjunction && filters != [] ==>
              var sets := AllSelected(metas, filters, m);
              Elements(r) == Intersection(sets) <==> NothingSkipped(sets)
    ensures |r| == |Elements(r)|
  {
    r := Combine(metas, filters, conjunction, m);
    if filters != [] { AndIsIntersectionIff(AllSelected(metas, filters, m)); }
  }

  /** The loop over the filters. */
  method Combine(metas: map<string, seq<Entry>>, filters: seq<Filter>, conjunction: bool, m: Matcher)
    returns (r: seq<Doc>)
    ensures Elements(r) == Meaning(AllSelected(metas, filters, m), conjunction) && |r| == |Elements(r)|
  {
    ghost var all := AllSelected(metas, filters, m);
    var docIds: set<Doc> := {};
    for i := 0 to |filters|
      invariant docIds == Meaning(all[..i], conjunction)
      invariant conjunction && docIds == {} ==> FromFirstNonEmpty(all[..i]) == []
    {
      var f := filters[i];
      var ids: seq<Doc> := [];
      if f.key in metas { ids := FilterOut(metas[f.key], f, m); }
      assert Elements(ids) == Selected(metas, f, m);
      AllSelectedAt(metas, filters, m, i);
      NextFilter(all, i, conjunction, docIds);
      if docIds == {} {
        docIds := Elements(ids);
      } else if conjunction {
        docIds := docIds * Elements(ids);
        if docIds == {} { return []; }
      } else {
        docIds := docIds + Elements(ids);
      }
    }
    assert all[..|filters|] == all;
    r := ToList(docIds);
  }

  // ---------- when "and" is the intersection of all filters ----------

  /** Filter `i` is the first that selects anything. */
  ghost predicate IsFirst(sets: seq<set<Doc>>, i: nat) {
    i < |sets| && sets[i] != {} && forall j :: 0 <= j < i ==> sets[j] == {}
  }

  /** `d` is selected by every filter from number `i` on. */
  ghost predicate InAllFrom(sets: seq<set<Doc>>, i: nat, d: Doc) { forall j :: i <= j < |sets| ==> d in sets[j] }

  lemma {:induction false} InIntersection(sets: seq<set<Doc>>, d: Doc)
    requires sets != []
    ensures d in Intersection(sets) <==> InAllFrom(sets, 0, d)
    decreases |sets|
  {
    if |sets| > 1 {
      InIntersection(sets[1..], d);
      assert InAllFrom(sets, 0, d) ==> InAllFrom(sets[1..], 0, d);
      if d in sets[0] && InAllFrom(sets[1..], 0, d) {
        forall j | 0 <= j < |sets| ensures d in sets[j] { if j > 0 { assert d in sets[1..][j - 1]; } }
      }
    }
  }

  /** The filters from the first one on that selects anything, by its position. */
  lemma {:induction false} FirstAt(sets: seq<set<Doc>>, i: nat)
    requires IsFirst(sets, i)
    ensures FromFirstNonEmpty(sets) == sets[i..]
    decreases |sets|
  {
    if i > 0 {
      assert sets[0] == {};
      forall j | 0 <= j < i - 1 ensures sets[1..][j] == {} { assert sets[1..][j] == sets[j + 1]; }
      FirstAt(sets[1..], i - 1);
      assert sets[1..][i - 1..] == sets[i..];
    }
  }

  lemma {:induction false} FirstOrNone(sets: seq<set<Doc>>) returns (i: nat)
    ensures IsFirst(sets, i) || (FromFirstNonEmpty(sets) == [] && forall j :: 0 <= j < |sets| ==> sets[j] == {})
    decreases |sets|
  {
    i := 0;
    if sets != [] && sets[0] == {} {
      var k := FirstOrNone(sets[1..]);
      i := k + 1;
      if IsFirst(sets[1..], k) {
        forall j | 0 <= j < i ensures sets[j] == {} { if j > 0 { assert sets[1..][j - 1] == sets[j]; } }
      } else {
        forall j | 0 <= j < |sets| ensures sets[j] == {} { if j > 0 { assert sets[1..][j - 1] == sets[j]; } }
      }
    }
  }

  lemma FirstIsUnique(sets: seq<set<Doc>>, i: nat, j: nat)
    requires IsFirst(sets, i) && IsFirst(sets, j)
    ensures i == j
  {}

  /** What "and" selects, document by document. */
  lemma InMeaning(sets: seq<set<Doc>>, d: Doc)
    ensures d in Meaning(sets, true) <==> exists i: nat :: IsFirst(sets, i) && InAllFrom(sets, i, d)
  {
    var i := FirstOrNone(sets);
    if IsFirst(sets, i) {
      FirstAt(sets, i);
      InIntersection(sets[i..], d);
      assert InAllFrom(sets[i..], 0, d) <==> InAllFrom(sets, i, d) by {
        if InAllFrom(sets[i..], 0, d) {
          forall j | i <= j < |sets| ensures d in sets[j] { assert d in sets[i..][j - i]; }
        }
      }
      forall k: nat | IsFirst(sets, k) ensures k == i { FirstIsUnique(sets, i, k); }
    }
  }

  /** What "or" selects, document by document. */
  lemma {:induction false} InUnion(sets: seq<set<Doc>>, d: Doc)
    ensures d in Meaning(sets, false) <==> exists i :: 0 <= i < |sets| && d in sets[i]
    decreases |sets|
  {
    if sets != [] {
      InUnion(sets[1..], d);
      if i :| 0 <= i < |sets| && d in sets[i] { assert i == 0 || d in sets[1..][i - 1]; }
    }
  }

  /** The first filter selects a document, or no document is selected by every filter from the first on that selects
      any; the latter is so when no filter selects anything. */
  ghost predicate NothingSkipped(sets: seq<set<Doc>>) {
    sets == [] || sets[0] != {} || forall i: nat, d :: IsFirst(sets, i) ==> !InAllFrom(sets, i, d)
  }

  /** "and" means the intersection of all filters exactly when the first filter selects something, or no document is
      selected by every filter from the first on that selects any: leading filters without a match are skipped
      instead of emptying the result. */
  lemma AndIsIntersectionIff(sets: seq<set<Doc>>)
    requires sets != []
    ensures Meaning(sets, true) == Intersection(sets) <==> NothingSkipped(sets)
  {
    if sets[0] == {} {
      forall d ensures d !in Intersection(sets) { InIntersection(sets, d); }
      assert Intersection(sets) == {};
      forall d ensures d in Meaning(sets, true) <==> exists i: nat :: IsFirst(sets, i) && InAllFrom(sets, i, d) {
        InMeaning(sets, d);
      }
    } else {
      assert IsFirst(sets, 0);
    }
  }

  lemma LeadingEmptyFilterIsSkipped()
    ensures var sets: seq<set<Doc>> := [{}, {"d"}]; Meaning(sets, true) == {"d"} && Intersection(sets) == {}
  {
    var sets: seq<set<Doc>> := [{}, {"d"}];
    assert sets[1..] == [{"d"}];
  }
}
