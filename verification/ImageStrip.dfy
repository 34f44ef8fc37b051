/** Extracting and removing inline images in nested values: `_extract_data_images` and `_remove_data_images`. */
module ImageStrip {
  import opened Wrappers
  import opened Strings

  /** Nested Python values. A set is given in the order in which it is walked; an atom is any other hashable value. */
  datatype Py =
    | Nothing
    | Str(s: string)
    | Atom(id: nat)
    | List(items: seq<Py>)
    | Tuple(items: seq<Py>)
    | PySet(items: seq<Py>)
    | Dict(entries: seq<Entry>)

  datatype Entry = Entry(key: string, value: Py)

  predicate IsImage(s: string) { "data:image/" <= Strip(s) }

  predicate HasKey(es: seq<Entry>, k: string) { exists i :: 0 <= i < |es| && es[i].key == k }

  /** `dict.get`. */
  function Get(es: seq<Entry>, k: string): Py
    decreases |es|
  {
    if es == [] then Nothing else if es[0].key == k then es[0].value else Get(es[1..], k)
  }

  /** The keys of every dictionary in a value are distinct. */
  predicate Proper(v: Py) {
    match v
    case List(items) => forall i :: 0 <= i < |items| ==> Proper(items[i])
    case Tuple(items) => forall i :: 0 <= i < |items| ==> Proper(items[i])
    case PySet(items) => forall i :: 0 <= i < |items| ==> Proper(items[i])
    case Dict(es) =>
      && (forall i :: 0 <= i < |es| ==> Proper(es[i].value))
      && DistinctKeys(es)
    case _ => true
  }

  predicate DistinctKeys(es: seq<Entry>) { forall i, j :: 0 <= i < j < |es| ==> es[i].key != es[j].key }

  // ---------- extraction ----------

  function Extract(v: Py): seq<string> {
    match v
    case Str(s) => if IsImage(s) then [Strip(s)] else []
    case List(items) => ExtractItems(items)
    case Tuple(items) => ExtractItems(items)
    case PySet(items) => ExtractItems(items)
    case Dict(es) => ExtractEntries(es, HasKey(es, "content"))
    case _ => []
  }

  function ExtractItems(items: seq<Py>): seq<string> {
    if items == [] then [] else Extract(items[0]) + ExtractItems(items[1..])
  }

  /** With a `content` key only that is looked at. */
  function ExtractEntries(es: seq<Entry>, contentOnly: bool): seq<string> {
    if es == [] then []
    else (if contentOnly && es[0].key != "content" then [] else Extract(es[0].value))
         + ExtractEntries(es[1..], contentOnly)
  }

  const MARK := "data:image/"

  /** A text is an image exactly when the mark follows its leading spaces. */
  lemma ImageMeaning(s: string)
    ensures IsImage(s) <==> exists a :: AllSpace(a) && a + MARK <= s
  {
    StripBegins(s, MARK);
  }

  /** What is extracted: the stripped text of each image, item by item in order; of a dictionary what is under
      `content`, or without that key what is under any key. */
  lemma ExtractMeaning(s: string, a: seq<Py>, b: seq<Py>, es: seq<Entry>)
    ensures Extract(Str(s)) == if MARK <= Strip(s) then [Strip(s)] else []
    ensures Extract(List(a)) == Extract(Tuple(a)) == Extract(PySet(a))
    ensures Extract(List(a + b)) == Extract(List(a)) + Extract(List(b))
    ensures |a| == 1 ==> Extract(List(a)) == Extract(a[0])
    ensures DistinctKeys(es) && HasKey(es, "content") ==> Extract(Dict(es)) == Extract(Get(es, "content"))
    ensures !HasKey(es, "content") ==> Extract(Dict(es)) == Extract(List(Values(es)))
  {
    ExtractJoined(a, b);
    if HasKey(es, "content") { if DistinctKeys(es) { ExtractContent(es); } } else { ExtractValues(es); }
  }

  function Values(es: seq<Entry>): (r: seq<Py>)
    ensures |r| == |es| && forall i :: 0 <= i < |es| ==> r[i] == es[i].value
  {
    seq(|es|, i requires 0 <= i < |es| => es[i].value)
  }

  lemma {:induction false} ExtractJoined(a: seq<Py>, b: seq<Py>)
    ensures ExtractItems(a + b) == ExtractItems(a) + ExtractItems(b)
    decreases |a|
  {
    if a == [] {
      assert a + b == b;
    } else {
      assert (a + b)[0] == a[0] && (a + b)[1..] == a[1..] + b;
      ExtractJoined(a[1..], b);
    }
  }

  lemma {:induction false} ExtractContent(es: seq<Entry>)
    requires DistinctKeys(es)
    ensures ExtractEntries(es, true) == if HasKey(es, "content") then Extract(Get(es, "content")) else []
    decreases |es|
  {
    if es != [] {
      var rest := es[1..];
      forall i | 0 <= i < |rest| ensures rest[i] == es[i + 1] {}
      ExtractContent(rest);
      if i :| 0 <= i < |es| && es[i].key == "content" { assert i == 0 || rest[i - 1].key == "content"; }
    }
  }

  lemma {:induction false} ExtractValues(es: seq<Entry>)
    ensures ExtractEntries(es, false) == ExtractItems(Values(es))
    decreases |es|
  {
    if es != [] {
      ExtractValues(es[1..]);
      assert Values(es)[1..] == Values(es[1..]);
    }
  }

  /** `_extract_data_images` as it walks: every image found is appended to one list. */
  class Collector {
    var imgs: seq<string>

    constructor ()
      ensures imgs == []
    {
      imgs := [];
    }

    method Walk(v: Py)
      modifies this
      ensures imgs == old(imgs) + Extract(v)
      decreases v, 1
    {
      match v {
        case Str(s) =>
          if IsImage(s) { imgs := imgs + [Strip(s)]; }
        case List(items) => WalkItems(items);
        case Tuple(items) => WalkItems(items);
        case PySet(items) => WalkItems(items);
        case Dict(es) => WalkEntries(es, HasKey(es, "content"));
        case _ =>
      }
    }

    method WalkItems(items: seq<Py>)
      modifies this
      ensures imgs == old(imgs) + ExtractItems(items)
      decreases items, 0
    {
      var i := 0;
      while i < |items|
        invariant i <= |items|
        invariant imgs + ExtractItems(items[i..]) == old(imgs) + ExtractItems(items)
      {
        assert items[i..][0] == items[i] && items[i..][1..] == items[i + 1..];
        ghost var before := imgs;
        Walk(items[i]);
        assert before + (Extract(items[i]) + ExtractItems(items[i + 1..])) == imgs + ExtractItems(items[i + 1..]);
        i := i + 1;
      }
    }

    method WalkEntries(es: seq<Entry>, contentOnly: bool)
      modifies this
      ensures imgs == old(imgs) + ExtractEntries(es, contentOnly)
      decreases es, 0
    {
      var i := 0;
      while i < |es|
        invariant i <= |es|
        invariant imgs + ExtractEntries(es[i..], contentOnly) == old(imgs) + ExtractEntries(es, contentOnly)
      {
        assert es[i..][0] == es[i] && es[i..][1..] == es[i + 1..];
        ghost var before, part := imgs, if contentOnly && es[i].key != "content" then [] else Extract(es[i].value);
        if !contentOnly || es[i].key == "content" { Walk(es[i].value); }
        assert before + (part + ExtractEntries(es[i + 1..], contentOnly))
            == imgs + ExtractEntries(es[i + 1..], contentOnly);
        i := i + 1;
      }
    }
  }

  // ---------- removal ----------

  predicate Hashable(v: Py) {
    match v
    case Tuple(items) => forall i :: 0 <= i < |items| ==> Hashable(items[i])
    case List(_) => false
    case PySet(_) => false
    case Dict(_) => false
    case _ => true
  }

  /** What Python can look up in a set: anything hashable, and a set, for which an equal frozenset is looked up. */
  predicate Comparable(v: Py) { Hashable(v) || v.PySet? }

  predicate IsEmpty(v: Py) {
    match v
    case List(items) => items == []
    case Tuple(items) => items == []
    case PySet(items) => items == []
    case Dict(es) => es == []
    case _ => false
  }

  /** A cleaned value that its container drops. */
  predicate Dropped(v: Py) { v == Nothing || IsEmpty(v) }

  predicate IsImageType(v: Py) { v.Str? && v.s in ["image_url", "input_image", "image"] }

  /** A dictionary that stands for an image. */
  predicate IsImagePart(es: seq<Entry>) { IsImageType(Get(es, "type")) && Extract(Dict(es)) != [] }

  /** Remove the images; a dictionary whose `type` cannot be looked up in a set raises. */
  function Remove(v: Py): Result<Py> {
    match v
    case Str(s) => Ok(if IsImage(s) then Nothing else v)
    case List(items) => (var r := RemoveItems(items); if r.Raise? then Raise else Ok(List(r.value)))
    case Tuple(items) => (var r := RemoveItems(items); if r.Raise? then Raise else Ok(Tuple(r.value)))
    case PySet(items) => (var r := RemoveItems(items); if r.Raise? then Raise else Ok(List(r.value)))
    case Dict(es) =>
      if !Comparable(Get(es, "type")) then Raise
      else if IsImagePart(es) then Ok(Nothing)
      else (var r := RemoveEntries(es); if r.Raise? then Raise else Ok(Dict(r.value)))
    case _ => Ok(v)
  }

  function RemoveItems(items: seq<Py>): Result<seq<Py>> {
    if items == [] then Ok([])
    else
      var head := Remove(items[0]);
      if head.Raise? then Raise
      else
        var tail := RemoveItems(items[1..]);
        if tail.Raise? then Raise else Ok((if Dropped(head.value) then [] else [head.value]) + tail.value)
  }

  function RemoveEntries(es: seq<Entry>): Result<seq<Entry>> {
    if es == [] then Ok([])
    else
      var head := Remove(es[0].value);
      if head.Raise? then Raise
      else
        var tail := RemoveEntries(es[1..]);
        if tail.Raise? then Raise
        else Ok((if Dropped(head.value) then [] else [Entry(es[0].key, head.value)]) + tail.value)
  }

  /** What removal takes away altogether: images, and dictionaries that say they are images and hold one. */
  lemma RemovedEntirely(v: Py)
    requires v != Nothing
    ensures Remove(v) == Ok(Nothing) <==>
              || (v.Str? && IsImage(v.s))
              || (v.Dict? && Get(v.entries, "type") in {Str("image_url"), Str("input_image"), Str("image")}
                  && Extract(v) != [])
  {}

  // ---------- no images are left ----------

  /** There is no image to extract from what removal leaves. */
  lemma {:induction false} RemovedHasNoImages(v: Py)
    requires Remove(v).Ok?
    ensures Extract(Remove(v).value) == []
    decreases v
  {
    match v
    case Nothing =>
    case Atom(_) =>
    case Str(_) =>
    case List(items) => RemovedItemsHaveNone(items);
    case Tuple(items) => RemovedItemsHaveNone(items);
    case PySet(items) => RemovedItemsHaveNone(items);
    case Dict(es) =>
      if !IsImagePart(es) { RemovedEntriesHaveNone(es, HasKey(RemoveEntries(es).value, "content")); }
  }

  lemma {:induction false} RemovedItemsHaveNone(items: seq<Py>)
    requires RemoveItems(items).Ok?
    ensures ExtractItems(RemoveItems(items).value) == []
    decreases items
  {
    if items != [] {
      RemovedHasNoImages(items[0]);
      RemovedItemsHaveNone(items[1..]);
      ItemsSplit(items);
    }
  }

  lemma {:induction false} RemovedEntriesHaveNone(es: seq<Entry>, contentOnly: bool)
    requires RemoveEntries(es).Ok?
    ensures ExtractEntries(RemoveEntries(es).value, contentOnly) == []
    decreases es
  {
    if es != [] {
      RemovedHasNoImages(es[0].value);
      RemovedEntriesHaveNone(es[1..], contentOnly);
      EntriesSplit(es);
    }
  }

  /** The first item is dropped, or comes first. */
  lemma ItemsSplit(items: seq<Py>)
    requires items != [] && RemoveItems(items).Ok?
    ensures Remove(items[0]).Ok? && RemoveItems(items[1..]).Ok?
    ensures var ws, w, tail := RemoveItems(items).value, Remove(items[0]).value, RemoveItems(items[1..]).value;
            if Dropped(w) then ws == tail else ws == [w] + tail && ws[0] == w && ws[1..] == tail
  {}

  lemma EntriesSplit(es: seq<Entry>)
    requires es != [] && RemoveEntries(es).Ok?
    ensures Remove(es[0].value).Ok? && RemoveEntries(es[1..]).Ok?
    ensures var ws, w, tail := RemoveEntries(es).value, Remove(es[0].value).value, RemoveEntries(es[1..]).value;
            if Dropped(w) then ws == tail
            else ws == [Entry(es[0].key, w)] + tail && ws[0] == Entry(es[0].key, w) && ws[1..] == tail
  {}

  // ---------- nothing else is lost ----------

  /** A scalar with the dictionary keys on the way to it. */
  datatype Leaf = Leaf(keys: seq<string>, value: Py)

  /** Everything in a value but images, image dictionaries and empty parts, in order. */
  function Leaves(v: Py, keys: seq<string>): seq<Leaf> {
    match v
    case Nothing => []
    case Str(s) => if IsImage(s) then [] else [Leaf(keys, v)]
    case Atom(_) => [Leaf(keys, v)]
    case List(items) => LeavesOfItems(items, keys)
    case Tuple(items) => LeavesOfItems(items, keys)
    case PySet(items) => LeavesOfItems(items, keys)
    case Dict(es) => if IsImagePart(es) then [] else LeavesOfEntries(es, keys)
  }

  function LeavesOfItems(items: seq<Py>, keys: seq<string>): seq<Leaf> {
    if items == [] then [] else Leaves(items[0], keys) + LeavesOfItems(items[1..], keys)
  }

  function LeavesOfEntries(es: seq<Entry>, keys: seq<string>): seq<Leaf> {
    if es == [] then [] else Leaves(es[0].value, keys + [es[0].key]) + LeavesOfEntries(es[1..], keys)
  }

  /** Removal keeps every other scalar, in order and under the same keys; what is dropped held none, and what is
      kept holds one. */
  lemma {:induction false} RemovalKeepsLeaves(v: Py, keys: seq<string>)
    requires Remove(v).Ok?
    ensures Leaves(Remove(v).value, keys) == Leaves(v, keys)
    ensures Dropped(Remove(v).value) <==> Leaves(v, keys) == []
    decreases v
  {
    match v
    case Nothing =>
    case Atom(_) =>
    case Str(_) =>
    case List(items) => RemovalKeepsItems(items, keys);
    case Tuple(items) => RemovalKeepsItems(items, keys);
    case PySet(items) => RemovalKeepsItems(items, keys);
    case Dict(es) =>
      if !IsImagePart(es) {
        RemovalKeepsEntries(es, keys);
        RemovedHasNoImages(v);
      }
  }

  lemma {:induction false} RemovalKeepsItems(items: seq<Py>, keys: seq<string>)
    requires RemoveItems(items).Ok?
    ensures LeavesOfItems(RemoveItems(items).value, keys) == LeavesOfItems(items, keys)
    ensures RemoveItems(items).value == [] <==> LeavesOfItems(items, keys) == []
    decreases items
  {
    if items != [] {
      RemovalKeepsLeaves(items[0], keys);
      RemovalKeepsItems(items[1..], keys);
      ItemsSplit(items);
    }
  }

  lemma {:induction false} RemovalKeepsEntries(es: seq<Entry>, keys: seq<string>)
    requires RemoveEntries(es).Ok?
    ensures LeavesOfEntries(RemoveEntries(es).value, keys) == LeavesOfEntries(es, keys)
    ensures RemoveEntries(es).value == [] <==> LeavesOfEntries(es, keys) == []
    decreases es
  {
    if es != [] {
      RemovalKeepsLeaves(es[0].value, keys + [es[0].key]);
      RemovalKeepsEntries(es[1..], keys);
      EntriesSplit(es);
    }
  }

  // ---------- removing twice ----------

  /** The `type` that is left is the cleaned type, or none. */
  lemma {:induction false} TypeAfterRemoval(es: seq<Entry>)
    requires RemoveEntries(es).Ok? && DistinctKeys(es)
    ensures Remove(Get(es, "type")).Ok?
    ensures var t := Remove(Get(es, "type")).value;
            Get(RemoveEntries(es).value, "type") == if Dropped(t) then Nothing else t
    decreases |es|
  {
    if es != [] {
      var rest := es[1..];
      forall i | 0 <= i < |rest| ensures rest[i] == es[i + 1] {}
      TypeAfterRemoval(rest);
      EntriesSplit(es);
      if es[0].key == "type" { GetMissing(rest, "type"); }
    }
  }

  lemma {:induction false} GetMissing(es: seq<Entry>, k: string)
    requires forall i :: 0 <= i < |es| ==> es[i].key != k
    ensures Get(es, k) == Nothing
    decreases |es|
  {
    if es != [] { GetMissing(es[1..], k); }
  }

  lemma {:induction false} HashableRemoved(v: Py)
    requires Hashable(v)
    ensures Remove(v).Ok? && Hashable(Remove(v).value)
    decreases v
  {
    if v.Tuple? { HashableItems(v.items); }
  }

  lemma {:induction false} HashableItems(items: seq<Py>)
    requires forall i :: 0 <= i < |items| ==> Hashable(items[i])
    ensures RemoveItems(items).Ok?
    ensures forall i :: 0 <= i < |RemoveItems(items).value| ==> Hashable(RemoveItems(items).value[i])
    decreases items
  {
    if items != [] {
      HashableRemoved(items[0]);
      HashableItems(items[1..]);
    }
  }

  /** A `type` that is a set with anything but images in it: removal turns it into a list, which cannot be looked up
      in a set. */
  predicate IsSetType(t: Py) { t.PySet? && Leaves(t, []) != [] }

  /** No dictionary that removal keeps has such a `type`. */
  predicate Stable(v: Py) {
    match v
    case List(items) => AllStable(items)
    case Tuple(items) => AllStable(items)
    case PySet(items) => AllStable(items)
    case Dict(es) => IsImagePart(es) || (!IsSetType(Get(es, "type")) && AllStableIn(es))
    case _ => true
  }

  predicate AllStable(items: seq<Py>) { items == [] || (Stable(items[0]) && AllStable(items[1..])) }

  predicate AllStableIn(es: seq<Entry>) { es == [] || (Stable(es[0].value) && AllStableIn(es[1..])) }

  /** After removal the `type` can be looked up again exactly when it was not such a set. */
  lemma TypeStaysComparable(es: seq<Entry>)
    requires RemoveEntries(es).Ok? && DistinctKeys(es) && Comparable(Get(es, "type"))
    ensures Comparable(Get(RemoveEntries(es).value, "type")) <==> !IsSetType(Get(es, "type"))
  {
    var t := Get(es, "type");
    TypeAfterRemoval(es);
    RemovalKeepsLeaves(t, []);
    if Hashable(t) { HashableRemoved(t); }
  }

  /** What removal leaves holds no image, for every value. Removing again succeeds, and then changes nothing, exactly
      when no dictionary that is kept has a set with anything but images in it as its `type`. */
  lemma {:induction false} RemovedIsClean(v: Py)
    requires Proper(v) && Remove(v).Ok?
    ensures var w := Remove(v).value;
            && Extract(w) == []
            && (Remove(w).Ok? <==> Stable(v))
            && (Remove(w).Ok? ==> Remove(w).value == w)
    decreases v
  {
    RemovedHasNoImages(v);
    match v
    case Nothing =>
    case Atom(_) =>
    case Str(_) =>
    case List(items) => ItemsRemovedTwice(items);
    case Tuple(items) => ItemsRemovedTwice(items);
    case PySet(items) => ItemsRemovedTwice(items);
    case Dict(es) =>
      if !IsImagePart(es) {
        EntriesRemovedTwice(es);
        TypeStaysComparable(es);
      }
  }

  lemma {:induction false} ItemsRemovedTwice(items: seq<Py>)
    requires (forall i :: 0 <= i < |items| ==> Proper(items[i])) && RemoveItems(items).Ok?
    ensures var ws := RemoveItems(items).value;
            (RemoveItems(ws).Ok? <==> AllStable(items)) && (RemoveItems(ws).Ok? ==> RemoveItems(ws).value == ws)
    decreases items
  {
    if items != [] {
      RemovedIsClean(items[0]);
      ItemsRemovedTwice(items[1..]);
      ItemsSplit(items);
    }
  }

  lemma {:induction false} EntriesRemovedTwice(es: seq<Entry>)
    requires (forall i :: 0 <= i < |es| ==> Proper(es[i].value)) && RemoveEntries(es).Ok?
    ensures var ws := RemoveEntries(es).value;
            && (RemoveEntries(ws).Ok? <==> AllStableIn(es))
            && (RemoveEntries(ws).Ok? ==> RemoveEntries(ws).value == ws)
    decreases es
  {
    if es != [] {
      RemovedIsClean(es[0].value);
      EntriesRemovedTwice(es[1..]);
      EntriesSplit(es);
    }
  }

  /** The dictionary {"type": {"x"}} becomes {"type": ["x"]}, on which removal raises. */
  lemma SetTypeIsNotStable()
    ensures var v := Dict([Entry("type", PySet([Str("x")]))]);
            && Remove(v) == Ok(Dict([Entry("type", List([Str("x")]))]))
            && Remove(Remove(v).value) == Raise
            && !Stable(v)
  {
    var x, items := Str("x"), [Str("x")];
    var es, ws := [Entry("type", PySet(items))], [Entry("type", List(items))];
    assert es[1..] == [] && items[1..] == [] && ws[1..] == [];
    assert Remove(x) == Ok(x) && RemoveItems([]) == Ok([]) && items + [] == items;
    assert RemoveItems(items) == Ok(items);
    assert Remove(PySet(items)) == Ok(List(items)) && RemoveEntries([]) == Ok([]) && ws + [] == ws;
    assert RemoveEntries(es) == Ok(ws);
    assert LeavesOfItems(items, []) == [Leaf([], x)] + [];
  }
}
