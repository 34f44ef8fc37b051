/** What `output_collation` does to the outputs of an iteration. */
module CollationEffect {
  import opened WorkflowGraph
  import opened Components

  // ---------- what collation does ----------

  function AsList(v: Value): seq<Value> { if v.List? then v.items else [] }

  /** An output that values can be appended to. */
  predicate Collectable(v: Value) { !Truthy(v) || v.List? }

  ghost predicate AllCollectable(mem: Memory, p: Id, collects: seq<Collect>) {
    forall i :: 0 <= i < |collects| ==> Collectable(GetOut(mem, p, collects[i].key))
  }

  /** `mem'` differs from `mem` only in outputs of `p`. */
  ghost predicate OnlyOutputsOf(mem: Memory, mem': Memory, p: Id) {
    forall id, key :: id != p ==> GetOut(mem', id, key) == GetOut(mem, id, key)
  }

  ghost predicate KeepsErrors(mem: Memory, mem': Memory, p: Id) {
    forall id :: id != p ==> HasError(mem', id) == HasError(mem, id)
  }

  lemma CollateOneEffect(mem: Memory, p: Id, c: Collect)
    requires Collectable(GetOut(mem, p, c.key))
    ensures var r := CollateOne(mem, p, c);
            && !r.raised && OnlyOutputsOf(mem, r.mem, p) && KeepsErrors(mem, r.mem, p)
            && GetOut(r.mem, p, c.key) == List(AsList(GetOut(mem, p, c.key)) + [GetOut(mem, c.source, c.variable)])
            && forall key :: key != c.key ==> GetOut(r.mem, p, key) == GetOut(mem, p, key)
  {
    assert [] + [GetOut(mem, c.source, c.variable)] == [GetOut(mem, c.source, c.variable)];
  }

  /** What one output becomes when the values of the sources in `cids` are collected. */
  function Grown(mem: Memory, p: Id, c: Collect, collected: bool): Value {
    if collected then List(AsList(GetOut(mem, p, c.key)) + [GetOut(mem, c.source, c.variable)])
    else GetOut(mem, p, c.key)
  }

  /** Collecting from one source appends to exactly the outputs that refer to it. */
  lemma {:induction false} CollateFromEffect(mem: Memory, p: Id, collects: seq<Collect>, cid: Id)
    requires DistinctKeys(collects) && AllCollectable(mem, p, collects) && cid != p
    ensures var r := CollateFrom(mem, p, collects, cid);
            && !r.raised && OnlyOutputsOf(mem, r.mem, p) && KeepsErrors(mem, r.mem, p)
            && (forall i :: 0 <= i < |collects| ==>
                  GetOut(r.mem, p, collects[i].key) == Grown(mem, p, collects[i], collects[i].source == cid))
            && (forall key :: (forall i :: 0 <= i < |collects| ==> collects[i].key != key) ==>
                  GetOut(r.mem, p, key) == GetOut(mem, p, key))
    decreases |collects|
  {
    if collects != [] {
      var c, rest := collects[0], collects[1..];
      var mem1 := if c.source == cid then CollateOne(mem, p, c).mem else mem;
      if c.source == cid { CollateOneEffect(mem, p, c); }
      assert AllCollectable(mem1, p, rest) by {
        forall i | 0 <= i < |rest| ensures Collectable(GetOut(mem1, p, rest[i].key)) {
          assert rest[i] == collects[i + 1];
        }
      }
      CollateFromEffect(mem1, p, rest, cid);
      var r := CollateFrom(mem, p, collects, cid);
      assert r == CollateFrom(mem1, p, rest, cid);
      forall i | 0 <= i < |collects|
        ensures GetOut(r.mem, p, collects[i].key) == Grown(mem, p, collects[i], collects[i].source == cid)
      {
        if i == 0 {
          forall j | 0 <= j < |rest| ensures rest[j].key != c.key { assert rest[j] == collects[j + 1]; }
        } else {
          assert rest[i - 1] == collects[i];
        }
      }
      forall key | forall i :: 0 <= i < |collects| ==> collects[i].key != key
        ensures GetOut(r.mem, p, key) == GetOut(mem, p, key)
      {
        assert collects[0].key != key;
        forall i | 0 <= i < |rest| ensures rest[i].key != key { assert rest[i] == collects[i + 1]; }
      }
    }
  }

  ghost predicate Distinct(ids: seq<Id>) { forall i, j :: 0 <= i < j < |ids| ==> ids[i] != ids[j] }

  /** A whole collation appends, to each output that refers to a component of the block, that component's
      value, once; the other outputs stay. */
  lemma {:induction false} CollateAllEffect(g: Graph, mem: Memory, p: Id, collects: seq<Collect>, cids: seq<Id>)
    requires DistinctKeys(collects) && AllCollectable(mem, p, collects) && !HasParent(g, p, p) && Distinct(cids)
    ensures var r := CollateAll(g, mem, p, collects, cids);
            && !r.raised && OnlyOutputsOf(mem, r.mem, p) && KeepsErrors(mem, r.mem, p)
            && (forall i :: 0 <= i < |collects| ==>
                  GetOut(r.mem, p, collects[i].key)
                  == Grown(mem, p, collects[i], collects[i].source in cids && HasParent(g, collects[i].source, p)))
    decreases |cids|
  {
    if cids != [] {
      var cid, rest := cids[0], cids[1..];
      var mem1 := if HasParent(g, cid, p) then CollateFrom(mem, p, collects, cid).mem else mem;
      if HasParent(g, cid, p) { CollateFromEffect(mem, p, collects, cid); }
      assert AllCollectable(mem1, p, collects);
      forall x | x in rest ensures x != cid {}
      CollateAllEffect(g, mem1, p, collects, rest);
      var r := CollateAll(g, mem, p, collects, cids);
      assert r == CollateAll(g, mem1, p, collects, rest);
      forall i | 0 <= i < |collects|
        ensures GetOut(r.mem, p, collects[i].key)
             == Grown(mem, p, collects[i], collects[i].source in cids && HasParent(g, collects[i].source, p))
      {
        var c := collects[i];
        assert cids == [cid] + rest;
        assert c.source in cids <==> c.source == cid || c.source in rest;
        if c.source in cids && HasParent(g, c.source, p) && c.source != cid {
          assert GetOut(mem1, c.source, c.variable) == GetOut(mem, c.source, c.variable);
        }
      }
    }
  }

  // ---------- collation that raises ----------

  /** What a collation keeps whether it raises or not: what cannot be collected stays, and lists stay lists. */
  ghost predicate KeepsShape(mem: Memory, mem': Memory, p: Id) {
    && mem'.globals == mem.globals && OnlyOutputsOf(mem, mem', p) && KeepsErrors(mem, mem', p)
    && (forall key :: GetOut(mem, p, key).List? ==> GetOut(mem', p, key).List?)
    && (forall key :: if Collectable(GetOut(mem, p, key)) then Collectable(GetOut(mem', p, key))
                      else GetOut(mem', p, key) == GetOut(mem, p, key))
  }

  /** The output collects from a component in `cids` and is neither empty nor a list. */
  ghost predicate IsBad(mem: Memory, p: Id, collects: seq<Collect>, cids: set<Id>, i: nat) {
    i < |collects| && collects[i].source in cids && !Collectable(GetOut(mem, p, collects[i].key))
  }

  lemma CollateOneShape(mem: Memory, p: Id, c: Collect)
    ensures var r := CollateOne(mem, p, c);
            KeepsShape(mem, r.mem, p) && (r.raised <==> !Collectable(GetOut(mem, p, c.key)))
  {}

  lemma {:induction false} CollateFromShape(mem: Memory, p: Id, collects: seq<Collect>, cid: Id)
    ensures var r := CollateFrom(mem, p, collects, cid);
            KeepsShape(mem, r.mem, p) && (r.raised <==> exists i: nat :: IsBad(mem, p, collects, {cid}, i))
    decreases |collects|
  {
    if collects != [] {
      var c, rest := collects[0], collects[1..];
      var mem1 := if c.source == cid then CollateOne(mem, p, c).mem else mem;
      CollateOneShape(mem, p, c);
      CollateFromShape(mem1, p, rest, cid);
      forall i: nat ensures IsBad(mem1, p, rest, {cid}, i) <==> IsBad(mem, p, collects, {cid}, i + 1) {}
      if i: nat :| IsBad(mem1, p, rest, {cid}, i) { assert IsBad(mem, p, collects, {cid}, i + 1); }
      if i: nat :| IsBad(mem, p, collects, {cid}, i) {
        if i > 0 { assert IsBad(mem1, p, rest, {cid}, i - 1); }
      }
      if c.source == cid && !Collectable(GetOut(mem, p, c.key)) { assert IsBad(mem, p, collects, {cid}, 0); }
    }
  }

  /** The components of the block among `cids`. */
  function Members(g: Graph, p: Id, cids: seq<Id>): set<Id> { set cid | cid in cids && HasParent(g, cid, p) }

  /** A collation raises exactly when some output that collects from a component of the block is neither empty nor
      a list. */
  lemma {:induction false} CollateAllRaisesIff(g: Graph, mem: Memory, p: Id, collects: seq<Collect>, cids: seq<Id>)
    ensures var r := CollateAll(g, mem, p, collects, cids);
            KeepsShape(mem, r.mem, p)
            && (r.raised <==> exists i: nat :: IsBad(mem, p, collects, Members(g, p, cids), i))
    decreases |cids|
  {
    if cids != [] {
      var cid, rest := cids[0], cids[1..];
      assert forall x :: x in cids <==> x == cid || x in rest;
      if HasParent(g, cid, p) {
        var mem1 := CollateFrom(mem, p, collects, cid).mem;
        CollateFromShape(mem, p, collects, cid);
        CollateAllRaisesIff(g, mem1, p, collects, rest);
        assert Members(g, p, cids) == {cid} + Members(g, p, rest);
        forall i: nat
          ensures IsBad(mem, p, collects, Members(g, p, cids), i)
             <==> IsBad(mem, p, collects, {cid}, i) || IsBad(mem1, p, collects, Members(g, p, rest), i) {}
        if i: nat :| IsBad(mem, p, collects, {cid}, i) { assert IsBad(mem, p, collects, Members(g, p, cids), i); }
        if i: nat :| IsBad(mem1, p, collects, Members(g, p, rest), i) {
          assert IsBad(mem, p, collects, Members(g, p, cids), i);
        }
      } else {
        assert Members(g, p, cids) == Members(g, p, rest);
        CollateAllRaisesIff(g, mem, p, collects, rest);
      }
    }
  }
}
