/** `rag/raptor.py`: clustering chunks layer by layer and summarising the clusters. What the models answer, which
    calls fail, when the task is canceled and in which order the concurrent summaries finish is left open. */
module Raptor {
  import opened Wrappers
  import opened Sequences
  import opened SummaryTree

  datatype Chunk = Chunk(text: string, embedding: Option<seq<real>>)

  predicate Usable(c: Chunk) { c.text != "" && c.embedding.Some? && c.embedding.value != [] }

  /** The chunks a call starts from. */
  function Filtered(chunks: seq<Chunk>): (r: seq<Chunk>)
    ensures |r| <= |chunks|
  {
    if chunks == [] then []
    else if Usable(chunks[0]) then [chunks[0]] + Filtered(chunks[1..])
    else Filtered(chunks[1..])
  }

  /** They are exactly the usable ones, in order. */
  lemma {:induction false} FilteredMeaning(chunks: seq<Chunk>)
    ensures IsFilter(Filtered(chunks), chunks, UsableAt(chunks))
    decreases |chunks|
  {
    if chunks == [] {
      FilterNothing<Chunk>(UsableAt(chunks));
    } else {
      var rest := chunks[1..];
      FilteredMeaning(rest);
      FilterSame(Filtered(rest), rest, UsableAt(rest), Later(UsableAt(chunks)));
      FilterCons(Filtered(rest), chunks, UsableAt(chunks));
    }
  }

  function UsableAt(chunks: seq<Chunk>): nat -> bool {
    (i: nat) => i < |chunks| && chunks[i].text != "" && chunks[i].embedding.Some? && chunks[i].embedding.value != []
  }

  function Min(a: int, b: int): int { if a < b then a else b }

  /** The members of cluster `c`, as positions in the common list. */
  function Members(labels: seq<nat>, c: nat, start: nat): (ms: seq<nat>)
    ensures forall i: nat :: i in ms <==> start <= i < start + |labels| && labels[i - start] == c
  {
    if labels == [] then []
    else
      var rest := Members(labels[1..], c, start + 1);
      if labels[0] == c then [start] + rest else rest
  }

  ghost predicate Increasing(at: seq<nat>) { forall j, k :: 0 <= j < k < |at| ==> at[j] < at[k] }

  /** Every member once, in order. */
  lemma {:induction false} MembersIncrease(labels: seq<nat>, c: nat, start: nat)
    ensures Increasing(Members(labels, c, start))
    decreases |labels|
  {
    if labels != [] {
      MembersIncrease(labels[1..], c, start + 1);
      var rest := Members(labels[1..], c, start + 1);
      forall k | 0 <= k < |rest| ensures start < rest[k] { assert rest[k] in rest; }
    }
  }

  /** The clusters whose summaries have been appended after position `end`, in order of completion. */
  ghost predicate Appended(kids: seq<seq<nat>>, end: nat, done: seq<nat>, labels: seq<nat>, start: nat) {
    && |kids| == end + |done|
    && (forall q :: 0 <= q < |done| ==> kids[end + q] == Members(labels, done[q], start))
    && (forall q, r :: 0 <= q < r < |done| ==> done[q] != done[r])
  }

  /** When every cluster has its summary, whatever the order, the layer is summarised. */
  lemma AppendedSummarises(kids: seq<seq<nat>>, end: nat, done: seq<nat>, labels: seq<nat>, start: nat, n: nat)
    requires Appended(kids, end, done, labels, start) && start + |labels| == end
    requires forall c :: 0 <= c < n ==> c in done
    requires forall c <- done :: c < n
    requires forall l <- labels :: l < n
    requires forall c :: 0 <= c < n ==> Members(labels, c, start) != []
    ensures Summarises(kids, Layer(start, end), Layer(end, |kids|))
  {
    forall i | start <= i < end ensures OneParent(kids, i, Layer(end, |kids|)) {
      var l := labels[i - start];
      assert l in labels && l in done;
      var q :| 0 <= q < |done| && done[q] == l;
      assert IsParent(kids, i, end + q);
      forall j | end <= j < |kids| && IsParent(kids, i, j) ensures j == end + q {
        assert kids[end + (j - end)] == Members(labels, done[j - end], start);
      }
    }
    forall j | end <= j < |kids| ensures kids[j] != [] && forall i <- kids[j] :: start <= i < end {
      var c := done[j - end];
      assert kids[end + (j - end)] == Members(labels, c, start) && c in done;
    }
  }

  /** What the models make of some texts, call by call: a summary with its embedding, or an exception. */
  type Models = (seq<string>, nat) -> Result<Chunk>

  function Texts(chunks: seq<Chunk>, at: seq<nat>): seq<string>
    requires forall i <- at :: i < |chunks|
  {
    if at == [] then []
    else
      assert at[0] in at && forall i <- at[1..] :: i in at;
      [chunks[at[0]].text] + Texts(chunks, at[1..])
  }

  /** The texts are those of the chunks at these positions, one for each, in order. */
  lemma {:induction false} TextsMeaning(chunks: seq<Chunk>, at: seq<nat>)
    requires forall i <- at :: i < |chunks|
    ensures AreTexts(Texts(chunks, at), chunks, at)
    decreases |at|
  {
    if at != [] {
      assert at[0] in at && forall i <- at[1..] :: i in at;
      TextsMeaning(chunks, at[1..]);
    }
  }

  ghost predicate AreTexts(texts: seq<string>, chunks: seq<Chunk>, at: seq<nat>) {
    |texts| == |at| && forall k :: 0 <= k < |at| ==> at[k] < |chunks| && texts[k] == chunks[at[k]].text
  }

  /** Chunk `j` is what the models made, in one of their calls, of the texts of its children, each given once and in
      order. */
  ghost predicate Made(models: Models, chunks: seq<Chunk>, kids: seq<seq<nat>>, j: nat)
    requires j < |chunks| == |kids|
  {
    && Increasing(kids[j])
    && exists call, texts :: AreTexts(texts, chunks, kids[j]) && models(texts, call) == Ok(chunks[j])
  }

  /** So is every chunk that is not a leaf. */
  ghost predicate AllMade(models: Models, chunks: seq<Chunk>, kids: seq<seq<nat>>, leaves: nat) {
    |chunks| == |kids| && forall j: nat :: leaves <= j < |kids| ==> Made(models, chunks, kids, j)
  }

  lemma OneMoreMade(models: Models, chunks: seq<Chunk>, kids: seq<seq<nat>>, leaves: nat, at: seq<nat>, c: Chunk,
                    call: nat)
    requires AllMade(models, chunks, kids, leaves) && Increasing(at)
    requires (forall i <- at :: i < |chunks|) && models(Texts(chunks, at), call) == Ok(c)
    ensures AllMade(models, chunks + [c], kids + [at], leaves)
  {
    TextsMeaning(chunks, at);
    assert AreTexts(Texts(chunks, at), chunks + [c], at);
    forall j: nat | leaves <= j < |kids| ensures Made(models, chunks + [c], kids + [at], j) {
      assert Made(models, chunks, kids, j);
      var n, texts :| AreTexts(texts, chunks, kids[j]) && models(texts, n) == Ok(chunks[j]);
      assert AreTexts(texts, chunks + [c], kids[j]);
    }
  }

  /** `np.argmin`: the first place of the least value; it raises on nothing. */
  method FirstArgMin(xs: seq<real>) returns (r: Result<nat>)
    ensures r.Raise? <==> xs == []
    ensures r.Ok? ==>
              && r.value < |xs|
              && (forall j :: 0 <= j < |xs| ==> xs[r.value] <= xs[j])
              && (forall j :: 0 <= j < r.value ==> xs[r.value] < xs[j])
  {
    if xs == [] { return Raise; }
    var best := 0;
    for i := 1 to |xs|
      invariant best < i
      invariant forall j :: 0 <= j < i ==> xs[best] <= xs[j]
      invariant forall j :: 0 <= j < best ==> xs[best] < xs[j]
    {
      if xs[i] < xs[best] { best := i; }
    }
    return Ok(best);
  }

  /** The first label whose probability exceeds the threshold; there may be none, which raises. */
  method FirstAbove(row: seq<real>, threshold: real) returns (r: Result<nat>)
    ensures r.Ok? ==> r.value < |row| && row[r.value] > threshold
                      && forall j :: 0 <= j < r.value ==> row[j] <= threshold
    ensures r.Raise? <==> forall j :: 0 <= j < |row| ==> row[j] <= threshold
  {
    for i := 0 to |row|
      invariant forall j :: 0 <= j < i ==> row[j] <= threshold
    {
      if row[i] > threshold { return Ok(i); }
    }
    return Raise;
  }

  class Raptor {
    const maxCluster: int
    const threshold: real
    const maxErrors: int
    const models: Models
    const cancelable: bool
    var errorCount: int
    var calls: nat

    constructor (maxCluster: int, threshold: real, maxErrors: int, models: Models, cancelable: bool)
      ensures this.maxCluster == maxCluster && this.threshold == threshold && errorCount == 0
      ensures this.models == models && this.cancelable == cancelable && calls == 0
      ensures this.maxErrors == if maxErrors < 1 then 1 else maxErrors
    {
      this.maxCluster, this.threshold, this.models, errorCount, calls := maxCluster, threshold, models, 0, 0;
      this.cancelable := cancelable;
      this.maxErrors := if maxErrors < 1 then 1 else maxErrors;
    }

    /** Whether the task is found canceled. */
    method IsCanceled() returns (c: bool)
      ensures c ==> cancelable
    {
      c := *;
      c := c && cancelable;
    }

    /** The next summary, of the two chunks at the end, is going to fail, which is tolerated. */
    predicate PairFails(chunks: seq<Chunk>)
      reads this
    {
      && !cancelable && errorCount + 1 < maxErrors
      && |chunks| >= 2 && models([chunks[|chunks| - 2].text, chunks[|chunks| - 1].text], calls).Raise?
    }

    /** Score every admissible number of clusters and take the best; with none admissible, or on
        cancellation, it raises. */
    method OptimalClusters(count: nat) returns (r: Result<nat>)
      ensures r.Ok? ==> 1 <= r.value < Min(maxCluster, count)
      ensures Min(maxCluster, count) <= 1 ==> r.Raise?
    {
      var most := Min(maxCluster, count);
      var scores: seq<real> := [];
      var n := 1;
      while n < most
        invariant |scores| == n - 1
        invariant 1 < most ==> n <= most
        invariant most <= 1 ==> n == 1
      {
        var canceled := IsCanceled();
        if canceled { return Raise; }
        var score: real := *;
        scores := scores + [score];
        n := n + 1;
      }
      var best := FirstArgMin(scores);
      if best.Raise? { return Raise; }
      return Ok(best.value + 1);
    }

    /** Give every chunk of the layer a label below `n`, or raise. */
    method Label(count: nat, n: nat) returns (r: Result<seq<nat>>)
      requires n >= 1
      ensures r.Ok? ==> |r.value| == count && forall l <- r.value :: l < n
    {
      if n == 1 { return Ok(seq(count, _ => 0)); }
      var labels: seq<nat> := [];
      while |labels| < count
        invariant |labels| <= count && forall l <- labels :: l < n
      {
        var row: seq<real> := [];
        while |row| < n
          invariant |row| <= n
        {
          var prob: real := *;
          row := row + [prob];
        }
        var found := FirstAbove(row, threshold);
        if found.Raise? { return Raise; }
        labels := labels + [found.value];
      }
      return Ok(labels);
    }

    /** One summary of the chunks at `members`: it appends what the models make of their texts, or is skipped
        after an error, or raises. */
    method Summarize(chunks: seq<Chunk>, members: seq<nat>, ghost kids: seq<seq<nat>>, ghost leaves: nat)
      returns (r: Result<seq<Chunk>>)
      requires members != [] && Increasing(members) && (forall i <- members :: i < |chunks|)
      requires AllMade(models, chunks, kids, leaves)
      modifies this`errorCount, this`calls
      ensures r.Ok? ==> (r.value == chunks && errorCount == old(errorCount) + 1 && errorCount < maxErrors)
                        || (|r.value| == |chunks| + 1 && chunks <= r.value && errorCount == old(errorCount)
                            && AllMade(models, r.value, kids + [members], leaves))
      ensures r.Raise? ==> errorCount == old(errorCount) || errorCount == old(errorCount) + 1 >= maxErrors
      ensures members == [|chunks| - 2, |chunks| - 1] && old(PairFails(chunks)) ==> r == Ok(chunks)
    {
      var canceled := IsCanceled();
      if canceled { return Raise; }
      var texts := Texts(chunks, members);
      TextsMeaning(chunks, members);
      assert members == [|chunks| - 2, |chunks| - 1] ==>
          texts == [chunks[|chunks| - 2].text, chunks[|chunks| - 1].text];
      var summary := models(texts, calls);
      calls := calls + 1;
      if summary.Raise? {
        errorCount := errorCount + 1;
        if errorCount >= maxErrors { return Raise; }
        return Ok(chunks);
      }
      OneMoreMade(models, chunks, kids, leaves, members, summary.value, calls - 1);
      return Ok(chunks + [summary.value]);
    }

    /** Summarise the clusters of a layer concurrently: the tasks end in any order, each appending to the common
        list. It raises when a cluster is empty, when a task raises, and when a summary is missing at the end. */
    method SummarizeClusters(chunks0: seq<Chunk>, start: nat, labels: seq<nat>, n: nat, ghost kids0: seq<seq<nat>>,
                             ghost leaves: nat)
      returns (r: Result<seq<Chunk>>, ghost kids: seq<seq<nat>>)
      requires start + |labels| == |chunks0| && AllMade(models, chunks0, kids0, leaves)
      requires forall l <- labels :: l < n
      modifies this`errorCount, this`calls
      ensures errorCount >= old(errorCount)
      ensures r.Ok? ==>
                && errorCount == old(errorCount)
                && chunks0 <= r.value && |r.value| == |chunks0| + n == |kids|
                && kids0 <= kids && AllMade(models, r.value, kids, leaves)
                && Summarises(kids, Layer(start, |chunks0|), Layer(|chunks0|, |kids|))
    {
      var chunks := chunks0;
      kids := kids0;
      var pending: set<nat> := {};
      var c := 0;
      while c < n
        invariant 0 <= c <= n && |pending| == c && errorCount == old(errorCount)
        invariant forall d :: 0 <= d < c <==> d in pending
        invariant forall d :: 0 <= d < c ==> Members(labels, d, start) != []
      {
        var canceled := IsCanceled();
        if canceled || Members(labels, c, start) == [] { return Raise, kids; }
        pending := pending + {c};
        c := c + 1;
      }
      ghost var done: seq<nat>, skipped: set<nat> := [], {};
      while pending != {}
        invariant chunks0 <= chunks && |chunks| == |chunks0| + |done| && kids0 <= kids
        invariant Appended(kids, |chunks0|, done, labels, start) && AllMade(models, chunks, kids, leaves)
        invariant forall d :: 0 <= d < n <==> d in pending || d in done || d in skipped
        invariant forall d <- done :: d !in pending && d !in skipped
        invariant pending !! skipped
        invariant |done| + |skipped| + |pending| == n
        invariant errorCount == old(errorCount) + |skipped|
        decreases pending
      {
        var d :| d in pending;
        MembersIncrease(labels, d, start);
        var outcome := Summarize(chunks, Members(labels, d, start), kids, leaves);
        if outcome.Raise? {
          var more: int := *;  // errors of tasks that end while the others are canceled
          if more > 0 { errorCount := errorCount + more; }
          return Raise, kids;
        }
        pending := pending - {d};
        if |outcome.value| == |chunks| {
          skipped := skipped + {d};
        } else {
          kids := kids + [Members(labels, d, start)];
          done := done + [d];
        }
        chunks := outcome.value;
      }
      if |chunks| - |chunks0| != n { return Raise, kids; }
      assert skipped == {};
      AppendedSummarises(kids, |chunks0|, done, labels, start, n);
      return Ok(chunks), kids;
    }

    /** The two chunks of a layer of two become one, or the error is tolerated and none. */
    method SummarizePair(chunks0: seq<Chunk>, start: nat, ghost kids0: seq<seq<nat>>, ghost leaves: nat)
      returns (r: Result<seq<Chunk>>, ghost kids: seq<seq<nat>>)
      requires start + 2 == |chunks0| && AllMade(models, chunks0, kids0, leaves)
      modifies this`errorCount, this`calls
      ensures old(PairFails(chunks0)) ==> r == Ok(chunks0)
      ensures errorCount >= old(errorCount)
      ensures r.Ok? ==>
                && chunks0 <= r.value && kids0 <= kids && |r.value| <= |chunks0| + 1
                && AllMade(models, r.value, kids, leaves)
                && (|kids| == |kids0| + 1 ==> Summarises(kids, Layer(start, |kids0|), Layer(|kids0|, |kids|)))
                && errorCount == old(errorCount) + (if |kids| == |kids0| then 1 else 0)
    {
      kids := kids0;
      r := Summarize(chunks0, [start, start + 1], kids0, leaves);
      if r.Ok? && |r.value| == |chunks0| + 1 {
        kids := kids0 + [[start, start + 1]];
        assert kids[|kids0|] == [start, start + 1];
        forall i | start <= i < start + 2 ensures OneParent(kids, i, Layer(|kids0|, |kids|)) {
          assert IsParent(kids, i, |kids0|);
        }
      }
    }

    /** One pass of the loop: from the layer start .. |chunks0| to the next. */
    method SummarizeLayer(chunks0: seq<Chunk>, start: nat, ghost kids0: seq<seq<nat>>, ghost leaves: nat)
      returns (r: Result<seq<Chunk>>, labels: seq<nat>, ghost kids: seq<seq<nat>>)
      requires start + 2 <= |chunks0| && AllMade(models, chunks0, kids0, leaves)
      modifies this`errorCount, this`calls
      ensures start + 2 == |chunks0| && old(PairFails(chunks0)) ==> r == Ok(chunks0)
      ensures errorCount >= old(errorCount)
      ensures r.Ok? ==>
                && chunks0 <= r.value && kids0 <= kids && AllMade(models, r.value, kids, leaves)
                && |labels| == |chunks0| - start
                && Layered(start, |chunks0|, kids)
                && (|kids| == |kids0| ==> |chunks0| - start == 2)
                && errorCount == old(errorCount) + (if |kids| == |kids0| then 1 else 0)
                && (maxCluster >= 2 ==> |r.value| - |chunks0| < maxCluster)
    {
      if |chunks0| - start == 2 {
        r, kids := SummarizePair(chunks0, start, kids0, leaves);
        return r, [0, 0], kids;
      }
      kids, labels := kids0, [];
      var n := OptimalClusters(|chunks0| - start);
      if n.Raise? { return Raise, [], kids; }
      var labelled := Label(|chunks0| - start, n.value);
      if labelled.Raise? { return Raise, [], kids; }
      labels := labelled.value;
      r, kids := SummarizeClusters(chunks0, start, labels, n.value, kids0, leaves);
    }

    /** One turn of the loop: summarise the last layer and record the new one. */
    method Ascend(chunks0: seq<Chunk>, start: nat, ghost b: Tree)
      returns (r: Result<seq<Chunk>>, labels: seq<nat>, ghost b': Tree)
      requires b.Built() && !b.skipped && AllMade(models, chunks0, b.kids, b.leaves)
      requires b.Top() == Layer(start, |chunks0|)
      requires start + 2 <= |chunks0|
      modifies this`errorCount, this`calls
      ensures start + 2 == |chunks0| && old(PairFails(chunks0)) ==> r == Ok(chunks0)
      ensures errorCount >= old(errorCount)
      ensures r.Ok? ==>
                && chunks0 <= r.value && |labels| == |chunks0| - start
                && b'.Built() && b'.leaves == b.leaves && AllMade(models, r.value, b'.kids, b.leaves)
                && b'.Top() == Layer(|chunks0|, |r.value|)
                && |b'.layers| == |b.layers| + 1 && |r.value| - |chunks0| < |chunks0| - start
                && errorCount == old(errorCount) + (if b'.skipped then 1 else 0)
                && (maxCluster >= 2 ==> |r.value| - |chunks0| < maxCluster)
    {
      ghost var kids;
      r, labels, kids := SummarizeLayer(chunks0, start, b.kids, b.leaves);
      b' := b;
      if r.Ok? {
        BuiltNext(b, kids);
        b' := Tree(b.leaves, b.layers + [Layer(|b.kids|, |kids|)], kids, |kids| == |b.kids|);
      }
    }

    /** The loop of the call, over the usable chunks. In the end every chunk below the last layer has its label. */
    method Climb(leaves: seq<Chunk>) returns (r: Result<seq<Chunk>>, labels: seq<nat>, ghost b: Tree)
      modifies this`errorCount, this`calls
      ensures |leaves| == 2 && old(PairFails(leaves)) ==> r == Ok(leaves)
      ensures errorCount >= old(errorCount)
      ensures r.Ok? ==> IsResult(leaves, r.value, labels, b)
                        && errorCount == old(errorCount) + (if b.skipped then 1 else 0)
    {
      var chunks := leaves;
      var start: nat, end: nat := 0, |chunks|;
      labels := [];
      ghost var fails := |leaves| == 2 && PairFails(leaves);
      b := ClimbBegins(leaves);
      while end - start > 1
        invariant end == |chunks| && start <= end && Climbed(leaves, chunks, labels, start, b)
        invariant errorCount == old(errorCount) + (if b.skipped then 1 else 0)
        invariant fails ==> chunks == leaves && (start < end ==> start == 0 && PairFails(leaves))
        decreases end - start
      {
        var canceled := IsCanceled();
        if canceled { return Raise, labels, b; }
        var next;
        next, labels, b := ClimbOnce(leaves, chunks, labels, start, b);
        if next.Raise? { return Raise, labels, b; }
        chunks := next.value;
        start := end;
        end := |chunks|;
      }
      ClimbEnds(leaves, chunks, labels, start, b);
      return Ok(chunks), labels, b;
    }

    /** What the loop returns: the leaves and the summaries above them, in layers down to at most one chunk, with a
        label for each chunk below the last layer, and not too many. */
    ghost predicate IsResult(leaves: seq<Chunk>, chunks: seq<Chunk>, labels: seq<nat>, b: Tree) {
      && leaves <= chunks && AllMade(models, chunks, b.kids, b.leaves) && b.leaves == |leaves|
      && b.Built() && Size(b.Top()) <= 1 && |labels| == b.Top().lo
      && (maxCluster >= 2 ==> |chunks| <= |leaves| + Triangle(maxCluster))
    }

    lemma ClimbBegins(leaves: seq<Chunk>) returns (b: Tree)
      ensures Climbed(leaves, leaves, [], 0, b) && !b.skipped
    {
      b := FirstTree(|leaves|);
    }

    lemma ClimbEnds(leaves: seq<Chunk>, chunks: seq<Chunk>, labels: seq<nat>, start: nat, b: Tree)
      requires Climbed(leaves, chunks, labels, start, b) && |chunks| - start <= 1
      ensures IsResult(leaves, chunks, labels, b)
    {
      BoundedEnd(|leaves|, maxCluster, |b.layers|, |chunks| - start, |chunks|);
    }

    /** The state of the loop: layers, labels and summaries are those of the chunks, and the size bound holds. */
    ghost predicate Climbed(leaves: seq<Chunk>, chunks: seq<Chunk>, labels: seq<nat>, start: nat, b: Tree) {
      && leaves <= chunks && |labels| == start <= |chunks| && AllMade(models, chunks, b.kids, b.leaves)
      && b.leaves == |leaves| && b.Built() && b.Top() == Layer(start, |chunks|)
      && (maxCluster >= 2 ==> Bounded(|leaves|, maxCluster, |b.layers|, |chunks| - start, |chunks|))
    }

    /** One turn of the loop. */
    method ClimbOnce(leaves: seq<Chunk>, chunks0: seq<Chunk>, labels0: seq<nat>, start: nat, ghost b: Tree)
      returns (r: Result<seq<Chunk>>, labels: seq<nat>, ghost b': Tree)
      requires Climbed(leaves, chunks0, labels0, start, b) && |chunks0| - start > 1
      modifies this`errorCount, this`calls
      ensures start + 2 == |chunks0| && old(PairFails(chunks0)) ==> r == Ok(chunks0)
      ensures errorCount >= old(errorCount)
      ensures r.Ok? ==>
                && Climbed(leaves, r.value, labels, |chunks0|, b') && |r.value| - |chunks0| < |chunks0| - start
                && errorCount == old(errorCount) + (if b'.skipped then 1 else 0)
    {
      var lbls;
      r, lbls, b' := Ascend(chunks0, start, b);
      labels := labels0 + lbls;
      if r.Ok? {
        StillBounded(|leaves|, maxCluster, |b.layers|, |chunks0| - start, |chunks0|, |r.value| - |chunks0|);
      }
    }

    /** The whole call. With at most one chunk it returns nothing. Otherwise, when it returns, the usable input
        chunks come first, and every other chunk is what the models made of the texts of its children; the layers are
        contiguous, cover the result and shrink strictly; if no error was counted during the call they form a
        forest that ends in a single chunk, and if one was, the last summary is missing; and with at least two
        clusters allowed the result is bounded. */
    method Call(input: seq<Chunk>) returns (r: Result<seq<Chunk>>, ghost b: Tree)
      modifies this`errorCount, this`calls
      ensures |Filtered(input)| == 2 && old(PairFails(Filtered(input))) ==> r == Ok(Filtered(input))
      ensures errorCount >= old(errorCount)
      ensures |input| <= 1 ==> r == Ok([])
      ensures r.Ok? && |input| > 1 ==>
                var leaves := Filtered(input);
                && IsFilter(leaves, input, UsableAt(input))
                && leaves <= r.value && AllMade(models, r.value, b.kids, b.leaves) && b.leaves == |leaves|
                && b.Built() && Size(b.Top()) <= 1
                && errorCount == old(errorCount) + (if b.skipped then 1 else 0)
                && (maxCluster >= 2 ==> |r.value| <= |leaves| + maxCluster * (maxCluster - 1) / 2)
    {
      b := Tree(0, [], [], false);
      if |input| <= 1 { return Ok([]), b; }
      var labels;
      FilteredMeaning(input);
      r, labels, b := Climb(Filtered(input));
      if maxCluster >= 2 { TriangleFormula(maxCluster); }
    }
  }

  /** Two chunks whose summary fails, with two errors allowed: the call returns them, and there is no root. */
  method RootlessPair(a: Chunk, b: Chunk, maxCluster: int, threshold: real) returns (r: Result<seq<Chunk>>)
    requires Usable(a) && Usable(b)
    ensures r == Ok([a, b])
  {
    var raptor := new Raptor(maxCluster, threshold, 2, (_, _) => Raise, false);
    assert [a, b][1..] == [b] && [b][1..] == [] && Filtered([b]) == [b] + [];
    assert Filtered([a, b]) == [a] + [b] == [a, b];
    assert raptor.PairFails([a, b]);
    ghost var tree;
    r, tree := raptor.Call([a, b]);
  }

  /** What one pass makes of the layer start .. end: either nothing, or summaries of it. */
  ghost predicate Layered(start: nat, end: nat, kids: seq<seq<nat>>) {
    && end <= |kids| && |kids| - end < end - start
    && (|kids| > end ==> Summarises(kids, Layer(start, end), Layer(end, |kids|)))
  }

  ghost predicate Shrinks(layers: seq<Layer>) {
    forall i :: 0 <= i < |layers| - 1 ==> Size(layers[i + 1]) < Size(layers[i])
  }

  /** The layers over `leaves` chunks, and the children of every chunk. */
  datatype Tree = Tree(leaves: nat, layers: seq<Layer>, kids: seq<seq<nat>>, skipped: bool) {

    function Top(): Layer { if layers == [] then Layer(0, 0) else layers[|layers| - 1] }

    /** The layers cover the list and shrink. They form a forest with at least one chunk in each layer, except that
        a skipped summary leaves an empty layer behind one of two. */
    ghost predicate Built() {
      && Covers(layers, |kids|) && layers[0] == Layer(0, leaves) && Shrinks(layers)
      && (if skipped then
            && |layers| >= 2 && Size(Top()) == 0 && Size(layers[|layers| - 2]) == 2
            && Forest(layers, kids, |layers| - 2)
          else
            Forest(layers, kids, |layers| - 1) && (Size(Top()) == 0 ==> leaves == 0))
    }
  }

  /** The chunks a call starts from. */
  lemma FirstTree(leaves: nat) returns (b: Tree)
    ensures b.Built() && !b.skipped && b.leaves == leaves && b.Top() == Layer(0, leaves)
    ensures |b.layers| == 1 && |b.kids| == leaves
  {
    b := Tree(leaves, [Layer(0, leaves)], seq(leaves, _ => []), false);
  }

  lemma BuiltNext(b: Tree, kids: seq<seq<nat>>)
    requires b.Built() && !b.skipped && Size(b.Top()) > 1 && b.kids <= kids
    requires Layered(b.Top().lo, b.Top().hi, kids)
    requires |kids| == |b.kids| ==> Size(b.Top()) == 2
    ensures Tree(b.leaves, b.layers + [Layer(|b.kids|, |kids|)], kids, |kids| == |b.kids|).Built()
  {
    NextForest(b.layers, b.kids, kids);
    assert (b.layers + [Layer(|b.kids|, |kids|)])[|b.layers| - 1] == b.Top();
  }

  /** What a call without errors returns, from at least one usable chunk, is a tree: its last chunk reaches
      every chunk, and every other chunk has exactly one parent, which lies in the layer after its own. */
  lemma CallBuildsTree(b: Tree, l: nat, i: nat)
    requires b.Built() && !b.skipped && Size(b.Top()) <= 1 && b.leaves > 0
    requires l < |b.layers| && b.layers[l].lo <= i < b.layers[l].hi
    ensures Reaches(b.kids, |b.kids| - 1, i)
    ensures i < |b.kids| - 1 ==>
              l + 1 < |b.layers|
              && exists j: nat :: b.layers[l + 1].lo <= j < b.layers[l + 1].hi && IsOnlyParent(b.kids, i, j)
    ensures forall j: nat :: i == |b.kids| - 1 ==> !IsParent(b.kids, i, j)
  {
    ForestIsTree(b.layers, b.kids, l, i);
    LayersOrdered(b.layers, |b.kids|, l, |b.layers| - 1);
  }

  /** The size bound carried through the loop: what is there, plus what the last layer can still add. */
  ghost predicate Bounded(leaves: nat, most: int, passes: nat, size: int, total: nat) {
    && passes >= 1 && size >= 0
    && (passes == 1 ==> size == total == leaves)
    && (passes > 1 ==> total + Triangle(size) <= leaves + Triangle(if most < 0 then 0 else most))
  }

  lemma BoundedEnd(leaves: nat, most: int, passes: nat, size: int, total: nat)
    requires size <= 1 && (most >= 2 ==> Bounded(leaves, most, passes, size, total))
    ensures most >= 2 ==> total <= leaves + Triangle(most)
  {}

  lemma StillBounded(leaves: nat, most: int, passes: nat, size: int, total: nat, added: int)
    requires 0 <= added < size && (most >= 2 ==> added < most && Bounded(leaves, most, passes, size, total))
    ensures most >= 2 ==> Bounded(leaves, most, passes + 1, added, total + added)
  {
    if most >= 2 { TriangleMonotone(added + 1, if passes == 1 then most else size); }
  }

  /** A forest grows by a layer that summarises its last one. */
  lemma NextForest(layers: seq<Layer>, kids: seq<seq<nat>>, kids': seq<seq<nat>>)
    requires layers != [] && Forest(layers, kids, |layers| - 1) && kids <= kids'
    requires var last := layers[|layers| - 1]; Layered(last.lo, last.hi, kids')
    ensures var layers' := layers + [Layer(|kids|, |kids'|)];
            && Forest(layers', kids', |layers| - 1)
            && (|kids'| > |kids| ==> Forest(layers', kids', |layers|))
  {
    var layers' := layers + [Layer(|kids|, |kids'|)];
    forall i | 0 <= i < |layers| - 1 ensures Summarises(kids', layers'[i], layers'[i + 1]) {
      LayersOrdered(layers, |kids|, i + 1, |layers| - 1);
      SummarisesMore(kids, kids', layers[i], layers[i + 1]);
    }
    assert layers'[|layers| - 1] == layers[|layers| - 1];
    LayersOrdered(layers, |kids|, 0, |layers| - 1);
  }

  lemma SummarisesMore(kids: seq<seq<nat>>, kids': seq<seq<nat>>, layer: Layer, next: Layer)
    requires kids <= kids' && next.hi <= |kids| && Summarises(kids, layer, next)
    ensures Summarises(kids', layer, next)
  {
    forall j | next.lo <= j < next.hi ensures kids'[j] == kids[j] {}
    forall i | layer.lo <= i < layer.hi ensures OneParent(kids', i, next) {
      assert OneParent(kids, i, next);
      var j :| next.lo <= j < next.hi && IsParent(kids, i, j);
      assert IsParent(kids', i, j);
      forall a, b | next.lo <= a < next.hi && next.lo <= b < next.hi && IsParent(kids', i, a) && IsParent(kids', i, b)
        ensures a == b
      {
        assert IsParent(kids, i, a) && IsParent(kids, i, b);
      }
    }
  }
}
