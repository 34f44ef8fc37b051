/** Layers of chunks, each summarising the one before, as a tree. */
module SummaryTree {

  /** Chunks lo .. hi of the common list. */
  datatype Layer = Layer(lo: nat, hi: nat)

  function Size(l: Layer): int { l.hi - l.lo }

  /** Contiguous layers that cover the first `total` chunks. */
  ghost predicate Covers(layers: seq<Layer>, total: nat) {
    && layers != [] && layers[0].lo == 0 && layers[|layers| - 1].hi == total
    && (forall i :: 0 <= i < |layers| ==> layers[i].lo <= layers[i].hi)
    && (forall i :: 0 <= i < |layers| - 1 ==> layers[i].hi == layers[i + 1].lo)
  }

  /** `kids[j]` lists the chunks that chunk `j` summarises; chunk `i` has the one parent `j`. */
  ghost predicate IsParent(kids: seq<seq<nat>>, i: nat, j: nat) { j < |kids| && i in kids[j] }

  ghost predicate OneParent(kids: seq<seq<nat>>, i: nat, next: Layer) {
    && (exists j :: next.lo <= j < next.hi && IsParent(kids, i, j))
    && (forall j, k :: next.lo <= j < next.hi && next.lo <= k < next.hi && IsParent(kids, i, j) && IsParent(kids, i, k)
                       ==> j == k)
  }

  /** Every chunk of a layer has one parent in the next, and every chunk of the next has children, all of them
      in this layer. */
  ghost predicate Summarises(kids: seq<seq<nat>>, layer: Layer, next: Layer) {
    && (forall i :: layer.lo <= i < layer.hi ==> OneParent(kids, i, next))
    && (forall j :: next.lo <= j < next.hi && j < |kids| ==>
          kids[j] != [] && forall i <- kids[j] :: layer.lo <= i < layer.hi)
  }

  /** The layers up to `n` summarise each other; the first layer has no children. */
  ghost predicate Forest(layers: seq<Layer>, kids: seq<seq<nat>>, n: int) {
    && Covers(layers, |kids|) && n < |layers|
    && (forall j :: layers[0].lo <= j < layers[0].hi && j < |kids| ==> kids[j] == [])
    && (forall i :: 0 <= i < n ==> Summarises(kids, layers[i], layers[i + 1]))
  }

  ghost predicate Reaches(kids: seq<seq<nat>>, root: nat, i: nat)
    decreases root
  {
    root == i || (root < |kids| && exists k :: k in kids[root] && k < root && Reaches(kids, k, i))
  }

  /** What is reached from a child's parent is reached through the parent. */
  lemma {:induction false} ReachesChild(kids: seq<seq<nat>>, root: nat, j: nat, i: nat)
    requires Reaches(kids, root, j) && IsParent(kids, i, j) && i < j
    ensures Reaches(kids, root, i)
    decreases root
  {
    if root == j {
      assert i in kids[root] && i < root && Reaches(kids, i, i);
    } else {
      var k :| k in kids[root] && k < root && Reaches(kids, k, j);
      ReachesChild(kids, k, j, i);
    }
  }

  lemma {:induction false} LayersOrdered(layers: seq<Layer>, total: nat, i: nat, j: nat)
    requires Covers(layers, total) && i <= j < |layers|
    ensures layers[i].lo <= layers[j].lo && layers[i].hi <= layers[j].hi <= total
    ensures i < j ==> layers[i].hi <= layers[j].lo
    decreases |layers| - i
  {
    if i < j {
      LayersOrdered(layers, total, i + 1, j);
    } else if j + 1 < |layers| {
      LayersOrdered(layers, total, j + 1, j + 1);
    }
  }

  /** Every chunk lies in one of the layers. */
  lemma {:induction false} LayerOf(layers: seq<Layer>, total: nat, i: nat, l: nat) returns (k: nat)
    requires Covers(layers, total) && i < total && l < |layers| && layers[l].lo <= i
    ensures l <= k < |layers| && layers[k].lo <= i < layers[k].hi
    decreases |layers| - l
  {
    if i < layers[l].hi { k := l; } else { k := LayerOf(layers, total, i, l + 1); }
  }

  /** From the root every chunk of a layer is reached, going down layer by layer. */
  lemma {:induction false} RootReaches(layers: seq<Layer>, kids: seq<seq<nat>>, l: nat, i: nat)
    requires layers != [] && Forest(layers, kids, |layers| - 1) && Size(layers[|layers| - 1]) == 1
    requires l < |layers| && layers[l].lo <= i < layers[l].hi
    ensures Reaches(kids, |kids| - 1, i)
    decreases |layers| - l
  {
    if l + 1 < |layers| {
      assert Summarises(kids, layers[l], layers[l + 1]) && OneParent(kids, i, layers[l + 1]);
      var j :| layers[l + 1].lo <= j < layers[l + 1].hi && IsParent(kids, i, j);
      RootReaches(layers, kids, l + 1, j);
      ReachesChild(kids, |kids| - 1, j, i);
    } else {
      assert i == |kids| - 1;
    }
  }

  /** The children of a chunk lie in the layer just before its own. */
  lemma ParentIsInNextLayer(layers: seq<Layer>, kids: seq<seq<nat>>, l: nat, i: nat, j: nat)
    requires Forest(layers, kids, |layers| - 1)
    requires l < |layers| && layers[l].lo <= i < layers[l].hi && IsParent(kids, i, j)
    ensures l + 1 < |layers| && layers[l + 1].lo <= j < layers[l + 1].hi
  {
    var k := LayerOf(layers, |kids|, j, 0);
    if k == 0 { assert false; }
    assert Summarises(kids, layers[k - 1], layers[k]);
    if k - 1 < l {
      LayersOrdered(layers, |kids|, k - 1, l);
    } else if l < k - 1 {
      LayersOrdered(layers, |kids|, l, k - 1);
    }
  }

  ghost predicate IsOnlyParent(kids: seq<seq<nat>>, i: nat, j: nat) {
    IsParent(kids, i, j) && forall k: nat :: IsParent(kids, i, k) ==> k == j
  }

  /** A forest whose last layer is a single chunk is a tree: the root reaches every chunk, every chunk but the
      root has exactly one parent, and that parent lies in the next layer. */
  lemma ForestIsTree(layers: seq<Layer>, kids: seq<seq<nat>>, l: nat, i: nat)
    requires layers != [] && Forest(layers, kids, |layers| - 1) && Size(layers[|layers| - 1]) == 1
    requires l < |layers| && layers[l].lo <= i < layers[l].hi
    ensures Reaches(kids, |kids| - 1, i)
    ensures l + 1 < |layers| ==>
              exists j: nat :: layers[l + 1].lo <= j < layers[l + 1].hi && IsOnlyParent(kids, i, j)
    ensures l + 1 == |layers| ==> i == |kids| - 1 && forall j: nat :: !IsParent(kids, i, j)
  {
    RootReaches(layers, kids, l, i);
    forall j: nat | IsParent(kids, i, j) ensures l + 1 < |layers| && layers[l + 1].lo <= j < layers[l + 1].hi {
      ParentIsInNextLayer(layers, kids, l, i, j);
    }
    if l + 1 < |layers| {
      assert Summarises(kids, layers[l], layers[l + 1]) && OneParent(kids, i, layers[l + 1]);
      var j :| layers[l + 1].lo <= j < layers[l + 1].hi && IsParent(kids, i, j);
      assert IsOnlyParent(kids, i, j);
    }
  }

  /** k - 1 + k - 2 + ... + 0: what a layer of `k` chunks can still add. */
  function Triangle(k: nat): nat { if k == 0 then 0 else Triangle(k - 1) + (k - 1) }

  lemma {:induction false} TriangleFormula(k: nat)
    ensures Triangle(k) == k * (k - 1) / 2
  {
    if k > 0 {
      TriangleFormula(k - 1);
      assert k * (k - 1) == (k - 1) * (k - 2) + 2 * (k - 1);
    }
  }

  lemma {:induction false} TriangleMonotone(j: nat, k: nat)
    requires j <= k
    ensures Triangle(j) <= Triangle(k)
    decreases k
  {
    if j < k { TriangleMonotone(j, k - 1); }
  }
}
