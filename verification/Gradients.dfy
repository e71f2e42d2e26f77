/** One training step: the workers' local gradients, the coordinator's fan-in
    and weighted average, and SGD on the flat vector. Numbers are reals. */
module Gradients {
  import opened Numbers
  import opened Sums
  import opened Sharding

  type Vec = seq<real>

  const LEARNING_RATE := 0.1
  const L2_LAMBDA := 0.01

  /** A network seen from outside: the derivative of one row's loss in each
      coordinate of the flat vector, and which coordinates belong to weight
      matrices (2-D tensors) and so carry the L2 penalty. */
  datatype Net = Net(rowGrad: (Vec, nat) -> Row -> real, decayed: nat -> bool)

  function Decay(net: Net, w: Vec, j: nat): real
    requires j < |w|
  {
    if net.decayed(j) then L2_LAMBDA * w[j] else 0.0
  }

  /** What a sidecar answers for a non-empty shard: the mean of its rows'
      gradients plus the gradient of (L2_LAMBDA / 2) * sum of squared weights. */
  function LocalGradient(net: Net, w: Vec, shard: seq<Row>): (g: Vec)
    requires shard != []
    ensures |g| == |w|
  {
    seq(|w|, j requires 0 <= j < |w| => Over(Total(shard, net.rowGrad(w, j)), |shard| as real) + Decay(net, w, j))
  }

  // --- aggregateGradients ---

  function CountTotal(counts: seq<nat>): nat {
    if counts == [] then 0 else CountTotal(counts[..|counts| - 1]) + counts[|counts| - 1]
  }

  /** What one gradient adds to coordinate j of the result. */
  function Term(g: Vec, j: nat, count: nat, total: nat): real
    requires j < |g| && total > 0
  {
    Times(g[j], Over(count as real, total as real))
  }

  /** Coordinate j of the weighted sum of the first k gradients. */
  function Weighted(gs: seq<Vec>, counts: seq<nat>, total: nat, j: nat, k: nat): real
    requires k <= |gs| == |counts| && total > 0 && forall g :: g in gs ==> j < |g|
  {
    if k == 0 then 0.0
    else Weighted(gs, counts, total, j, k - 1) + Term(gs[k - 1], j, counts[k - 1], total)
  }

  /** The average as a value. */
  function Aggregate(gs: seq<Vec>, counts: seq<nat>): (g: Vec)
    requires |gs| == |counts| > 0 && CountTotal(counts) > 0
    requires forall g :: g in gs ==> |g| == |gs[0]|
    ensures |g| == |gs[0]|
  {
    seq(|gs[0]|, j requires 0 <= j < |gs[0]| => Weighted(gs, counts, CountTotal(counts), j, |gs|))
  }

  /** One turn of the outer loop: `result[j] += v * weight` along one gradient. */
  method AddScaled(result: array<real>, g: Vec, weight: real)
    requires result.Length == |g|
    modifies result
    ensures forall q :: 0 <= q < |g| ==> result[q] == old(result[q]) + Times(g[q], weight)
  {
    var j := 0;
    while j < |g|
      invariant j <= |g|
      invariant forall q :: 0 <= q < j ==> result[q] == old(result[q]) + Times(g[q], weight)
      invariant forall q :: j <= q < |g| ==> result[q] == old(result[q])
    {
      result[j] := result[j] + Times(g[j], weight);
      j := j + 1;
    }
  }

  method CountRows(rowCounts: seq<nat>) returns (totalRows: nat)
    ensures totalRows == CountTotal(rowCounts)
  {
    totalRows := 0;
    var r := 0;
    while r < |rowCounts|
      invariant r <= |rowCounts| && totalRows == CountTotal(rowCounts[..r])
    {
      totalRows := totalRows + rowCounts[r];
      assert rowCounts[..r + 1][..r] == rowCounts[..r];
      r := r + 1;
    }
    assert rowCounts[..|rowCounts|] == rowCounts;
  }

  method AggregateGradients(gradients: seq<Vec>, rowCounts: seq<nat>) returns (result: array<real>)
    requires |gradients| == |rowCounts| > 0 && CountTotal(rowCounts) > 0
    requires forall g :: g in gradients ==> |g| == |gradients[0]|
    ensures fresh(result) && result[..] == Aggregate(gradients, rowCounts)
  {
    var totalRows := CountRows(rowCounts);
    var size := |gradients[0]|;
    result := new real[size](_ => 0.0);
    var i := 0;
    while i < |gradients|
      invariant i <= |gradients|
      invariant forall j :: 0 <= j < size ==> result[j] == Weighted(gradients, rowCounts, totalRows, j, i)
    {
      assert gradients[i] in gradients;
      AddScaled(result, gradients[i], Over(rowCounts[i] as real, totalRows as real));
      i := i + 1;
    }
  }

  // --- Sharded equals centralised ---

  /** These are the workers' answers, in order of arrival; `parts[k]` is the data
      of the k-th one. */
  ghost predicate Answers(net: Net, w: Vec, parts: seq<seq<Row>>, gs: seq<Vec>, counts: seq<nat>) {
    && |gs| == |counts| == |parts|
    && forall k :: 0 <= k < |parts| ==>
         parts[k] != [] && counts[k] == |parts[k]| && gs[k] == LocalGradient(net, w, parts[k])
  }

  lemma AddOver(x: real, y: real, c: real)
    requires c > 0.0
    ensures Over(x, c) + Over(y, c) == Over(x + y, c)
  {
  }

  lemma MeanTimesShare(t: real, c: real, d: real, total: real)
    requires c > 0.0 && total > 0.0
    ensures Times(Over(t, c) + d, Over(c, total)) == Over(t + Times(d, c), total)
  {
    var m := t / c + d;
    assert m * c == t / c * c + d * c;
    assert t / c * c == t;
    assert m * (c / total) == m * c / total;
  }

  /** The row derivatives of some data, and the L2 term d once per row. */
  function Mass(data: seq<Row>, f: Row -> real, d: real): real {
    Total(data, f) + Times(d, |data| as real)
  }

  lemma MassAppend(xs: seq<Row>, ys: seq<Row>, f: Row -> real, d: real)
    ensures Mass(xs + ys, f, d) == Mass(xs, f, d) + Mass(ys, f, d)
  {
    TotalAppend(xs, ys, f);
    Distribute(d, |xs| as real, |ys| as real);
    assert |xs + ys| as real == |xs| as real + |ys| as real;
  }

  lemma Distribute(d: real, x: real, y: real)
    ensures Times(d, x + y) == Times(d, x) + Times(d, y)
  {
  }

  lemma AnswerTerm(net: Net, w: Vec, part: seq<Row>, total: nat, j: nat)
    requires total > 0 && j < |w| && part != []
    ensures Term(LocalGradient(net, w, part), j, |part|, total)
         == Over(Mass(part, net.rowGrad(w, j), Decay(net, w, j)), total as real)
  {
    MeanTimesShare(Total(part, net.rowGrad(w, j)), |part| as real, Decay(net, w, j), total as real);
  }

  lemma {:induction false} WeightedIsMass(net: Net, w: Vec, parts: seq<seq<Row>>, gs: seq<Vec>, counts: seq<nat>,
                                          total: nat, j: nat, k: nat)
    requires Answers(net, w, parts, gs, counts) && forall g :: g in gs ==> |g| == |w|
    requires total > 0 && j < |w| && k <= |parts|
    ensures Weighted(gs, counts, total, j, k)
         == Over(Mass(Concat(parts[..k]), net.rowGrad(w, j), Decay(net, w, j)), total as real)
  {
    if k > 0 {
      WeightedIsMass(net, w, parts, gs, counts, total, j, k - 1);
      AnswerTerm(net, w, parts[k - 1], total, j);
      assert parts[..k][..k - 1] == parts[..k - 1];
      MassAppend(Concat(parts[..k - 1]), parts[k - 1], net.rowGrad(w, j), Decay(net, w, j));
      AddOver(Mass(Concat(parts[..k - 1]), net.rowGrad(w, j), Decay(net, w, j)),
              Mass(parts[k - 1], net.rowGrad(w, j), Decay(net, w, j)), total as real);
    }
  }

  lemma {:induction false} CountsAreRows(parts: seq<seq<Row>>, counts: seq<nat>)
    requires |counts| == |parts| && forall k :: 0 <= k < |parts| ==> counts[k] == |parts[k]|
    ensures CountTotal(counts) == |Concat(parts)|
  {
    if parts != [] {
      CountsAreRows(parts[..|parts| - 1], counts[..|counts| - 1]);
    }
  }

  lemma MeanPlus(t: real, c: real, d: real)
    requires c > 0.0
    ensures Over(t + Times(d, c), c) == Over(t, c) + d
  {
    AddOver(t, d * c, c);
    assert d * c / c == d;
  }

  lemma CoordinateIsCentral(net: Net, w: Vec, rows: seq<Row>, parts: seq<seq<Row>>, gs: seq<Vec>,
                            counts: seq<nat>, j: nat)
    requires rows != [] && j < |w| && Answers(net, w, parts, gs, counts)
    requires multiset(Concat(parts)) == multiset(rows) && |Concat(parts)| == |rows|
    requires forall g :: g in gs ==> |g| == |w|
    ensures Weighted(gs, counts, |rows|, j, |gs|) == LocalGradient(net, w, rows)[j]
  {
    WeightedIsMass(net, w, parts, gs, counts, |rows|, j, |parts|);
    assert parts[..|parts|] == parts;
    TotalOrderFree(Concat(parts), rows, net.rowGrad(w, j));
    MeanPlus(Total(rows, net.rowGrad(w, j)), |rows| as real, Decay(net, w, j));
  }

  /** Sharded training is centralised training. However the rows are dealt to the
      workers, and in whatever order their local means come in, the weighted
      average is the mean gradient over all rows plus the L2 term: exactly what
      one sidecar would answer for the whole dataset. */
  lemma PartsAreCentral(net: Net, w: Vec, rows: seq<Row>, parts: seq<seq<Row>>, gs: seq<Vec>, counts: seq<nat>)
    requires rows != [] && Answers(net, w, parts, gs, counts)
    requires multiset(Concat(parts)) == multiset(rows)
    ensures |gs| == |counts| > 0 && CountTotal(counts) == |rows| && forall g :: g in gs ==> |g| == |w|
    ensures Aggregate(gs, counts) == LocalGradient(net, w, rows)
  {
    assert |multiset(Concat(parts))| == |multiset(rows)|;
    CountsAreRows(parts, counts);
    forall j | 0 <= j < |w|
      ensures Weighted(gs, counts, |rows|, j, |gs|) == LocalGradient(net, w, rows)[j]
    {
      CoordinateIsCentral(net, w, rows, parts, gs, counts, j);
    }
  }

  /** In particular for the round-robin shards, with every worker in. */
  lemma ShardedIsCentral(net: Net, w: Vec, rows: seq<Row>, n: nat, order: seq<nat>, parts: seq<seq<Row>>,
                         gs: seq<Vec>, counts: seq<nat>)
    requires n > 0 && rows != [] && Answers(net, w, parts, gs, counts)
    requires multiset(order) == multiset(Range(n))
    requires |parts| == |order| && forall k :: 0 <= k < |order| ==> parts[k] == Shard(rows, n, order[k])
    ensures |gs| == |counts| > 0 && CountTotal(counts) > 0 && forall g :: g in gs ==> |g| == |w|
    ensures Aggregate(gs, counts) == LocalGradient(net, w, rows)
  {
    GatherIsConcat(order, ShardOf(rows, n), parts);
    ShardsCover(rows, n, order);
    PartsAreCentral(net, w, rows, parts, gs, counts);
  }

  // --- The step ---

  /** writeParams' update: element-wise SGD on the flat vector. */
  function Sgd(w: Vec, g: Vec): (r: Vec)
    requires |g| == |w|
    ensures |r| == |w|
  {
    seq(|w|, i requires 0 <= i < |w| => w[i] - LEARNING_RATE * g[i])
  }

  /** One full-batch gradient step on the whole dataset. */
  function FullStep(net: Net, rows: seq<Row>, w: Vec): (r: Vec)
    requires rows != []
    ensures |r| == |w|
  {
    Sgd(w, LocalGradient(net, w, rows))
  }

  // --- delegateAll ---

  /** What one worker's goroutine puts on the channel. */
  datatype Result = Result(nodeID: nat, gradients: Vec, rowCount: nat, loss: real, failed: bool)

  function Successes(rs: seq<Result>): seq<Result> {
    if rs == [] then []
    else
      var last := rs[|rs| - 1];
      Successes(rs[..|rs| - 1]) + if last.failed then [] else [last]
  }

  function Ids(rs: seq<Result>): seq<nat> {
    seq(|rs|, i requires 0 <= i < |rs| => rs[i].nodeID)
  }

  lemma SuccessesOne(r: Result)
    ensures Successes([r]) == if r.failed then [] else [r]
  {
    assert [r][..0] == [];
  }

  /** Answers keep their order of arrival. */
  lemma {:induction false} SuccessesAppend(xs: seq<Result>, ys: seq<Result>)
    ensures Successes(xs + ys) == Successes(xs) + Successes(ys)
  {
    if ys == [] {
      assert xs + ys == xs;
    } else {
      assert (xs + ys)[..|xs + ys| - 1] == xs + ys[..|ys| - 1];
      SuccessesAppend(xs, ys[..|ys| - 1]);
    }
  }

  function Set(ids: seq<nat>): set<nat> { set i | i in ids }

  ghost predicate NoRepeats(ids: seq<nat>) {
    forall i, j :: 0 <= i < j < |ids| ==> ids[i] != ids[j]
  }

  function Silent(workerList: seq<nat>, responded: set<nat>): seq<nat> {
    if workerList == [] then []
    else
      var last := workerList[|workerList| - 1];
      Silent(workerList[..|workerList| - 1], responded) + if last in responded then [] else [last]
  }

  lemma {:induction false} OnceEach(ids: seq<nat>, x: nat)
    requires NoRepeats(ids)
    ensures multiset(ids)[x] == if x in ids then 1 else 0
  {
    if ids != [] {
      var front := ids[..|ids| - 1];
      assert ids == front + [ids[|ids| - 1]];
      OnceEach(front, x);
    }
  }

  lemma {:induction false} SilentCount(workerList: seq<nat>, responded: set<nat>, x: nat)
    ensures multiset(Silent(workerList, responded))[x] == if x in responded then 0 else multiset(workerList)[x]
  {
    if workerList != [] {
      var front, last := workerList[..|workerList| - 1], workerList[|workerList| - 1];
      assert workerList == front + [last];
      SilentCount(front, responded, x);
    }
  }

  lemma SilentOne(id: nat, responded: set<nat>)
    ensures Silent([id], responded) == if id in responded then [] else [id]
  {
    assert [id][..0] == [];
  }

  /** Stragglers keep the order of the worker list. */
  lemma {:induction false} SilentAppend(xs: seq<nat>, ys: seq<nat>, responded: set<nat>)
    ensures Silent(xs + ys, responded) == Silent(xs, responded) + Silent(ys, responded)
  {
    if ys == [] {
      assert xs + ys == xs;
    } else {
      assert (xs + ys)[..|xs + ys| - 1] == xs + ys[..|ys| - 1];
      SilentAppend(xs, ys[..|ys| - 1], responded);
    }
  }

  lemma SilentCompleteAt(workerList: seq<nat>, ids: seq<nat>, x: nat)
    requires NoRepeats(workerList) && NoRepeats(ids) && forall x :: x in ids ==> x in workerList
    ensures multiset(ids)[x] + multiset(Silent(workerList, Set(ids)))[x] == multiset(workerList)[x]
  {
    OnceEach(ids, x);
    OnceEach(workerList, x);
    SilentCount(workerList, Set(ids), x);
  }

  /** Heard from or silent: each worker is exactly one of the two. */
  lemma SilentComplete(workerList: seq<nat>, ids: seq<nat>)
    requires NoRepeats(workerList) && NoRepeats(ids) && forall x :: x in ids ==> x in workerList
    ensures multiset(ids) + multiset(Silent(workerList, Set(ids))) == multiset(workerList)
    ensures |ids| + |Silent(workerList, Set(ids))| == |workerList|
  {
    var heard, silent := multiset(ids), multiset(Silent(workerList, Set(ids)));
    forall x: nat
      ensures heard[x] + silent[x] == multiset(workerList)[x]
    {
      SilentCompleteAt(workerList, ids, x);
    }
    assert heard + silent == multiset(workerList);
    assert |multiset(ids) + multiset(Silent(workerList, Set(ids)))| == |multiset(workerList)|;
  }

  lemma {:induction false} SetSize(ids: seq<nat>)
    requires NoRepeats(ids)
    ensures |Set(ids)| == |ids|
  {
    if ids != [] {
      var front, last := ids[..|ids| - 1], ids[|ids| - 1];
      SetSize(front);
      assert Set(ids) == Set(front) + {last};
    }
  }

  /** The three lists hold the answers, in order of arrival. */
  ghost predicate Aligned(ok: seq<Result>, gradients: seq<Vec>, rowCounts: seq<nat>, losses: seq<real>) {
    && |gradients| == |rowCounts| == |losses| == |ok|
    && forall i :: 0 <= i < |ok| ==>
         gradients[i] == ok[i].gradients && rowCounts[i] == ok[i].rowCount && losses[i] == ok[i].loss
  }

  /** Everyone heard from is among the answers or among the failures. */
  ghost predicate Sorted(rs: seq<Result>, failedIDs: seq<nat>) {
    multiset(Ids(Successes(rs))) + multiset(failedIDs) == multiset(Ids(rs))
  }

  lemma IdsSnoc(rs: seq<Result>, r: Result)
    ensures Ids(rs + [r]) == Ids(rs) + [r.nodeID]
    ensures Successes(rs + [r]) == Successes(rs) + (if r.failed then [] else [r])
  {
    assert (rs + [r])[..|rs|] == rs;
  }

  lemma SetSnoc(ids: seq<nat>, id: nat)
    ensures Set(ids + [id]) == Set(ids) + {id}
  {
  }

  lemma BagSnoc<T>(xs: seq<T>, ys: seq<T>, zs: seq<T>, x: T)
    requires multiset(xs) + multiset(ys) == multiset(zs)
    ensures multiset(xs + [x]) + multiset(ys) == multiset(zs + [x])
    ensures multiset(xs) + multiset(ys + [x]) == multiset(zs + [x])
  {
  }

  lemma OneFailure(rs: seq<Result>, r: Result, failedIDs: seq<nat>)
    requires r.failed && Sorted(rs, failedIDs)
    ensures Successes(rs + [r]) == Successes(rs)
    ensures Sorted(rs + [r], failedIDs + [r.nodeID])
  {
    IdsSnoc(rs, r);
    assert Successes(rs) + [] == Successes(rs);
    BagSnoc(Ids(Successes(rs)), failedIDs, Ids(rs), r.nodeID);
  }

  lemma OneAnswer(rs: seq<Result>, r: Result, failedIDs: seq<nat>)
    requires !r.failed && Sorted(rs, failedIDs)
    ensures Successes(rs + [r]) == Successes(rs) + [r]
    ensures Sorted(rs + [r], failedIDs)
  {
    IdsSnoc(rs, r);
    IdsSnoc(Successes(rs), r);
    BagSnoc(Ids(Successes(rs)), failedIDs, Ids(rs), r.nodeID);
  }

  method AppendSilent(workerList: seq<nat>, responded: set<nat>, failed: seq<nat>) returns (failedIDs: seq<nat>)
    ensures failedIDs == failed + Silent(workerList, responded)
  {
    failedIDs := failed;
    var i := 0;
    while i < |workerList|
      invariant i <= |workerList|
      invariant failedIDs == failed + Silent(workerList[..i], responded)
    {
      assert workerList[..i + 1][..i] == workerList[..i];
      if workerList[i] !in responded {
        failedIDs := failedIDs + [workerList[i]];
      }
      i := i + 1;
    }
    assert workerList[..|workerList|] == workerList;
  }

  method Record(ghost rs: seq<Result>, r: Result, gs: seq<Vec>, cs: seq<nat>, ls: seq<real>, fs: seq<nat>)
    returns (gradients: seq<Vec>, rowCounts: seq<nat>, losses: seq<real>, failedIDs: seq<nat>)
    requires Aligned(Successes(rs), gs, cs, ls) && Sorted(rs, fs)
    ensures Aligned(Successes(rs + [r]), gradients, rowCounts, losses) && Sorted(rs + [r], failedIDs)
  {
    if r.failed {
      OneFailure(rs, r, fs);
      return gs, cs, ls, fs + [r.nodeID];
    } else {
      OneAnswer(rs, r, fs);
      return gs + [r.gradients], cs + [r.rowCount], ls + [r.loss], fs;
    }
  }

  /** Collects results in order of arrival until every worker has answered or
      the timeout strikes; `arrivals` are the results that come before it. Every
      worker ends up exactly once among the answers or among the failures. */
  method DelegateAll(workerList: seq<nat>, arrivals: seq<Result>)
    returns (gradients: seq<Vec>, rowCounts: seq<nat>, losses: seq<real>, failedIDs: seq<nat>)
    requires NoRepeats(workerList) && NoRepeats(Ids(arrivals))
    requires forall id :: id in Ids(arrivals) ==> id in workerList
    ensures Aligned(Successes(arrivals), gradients, rowCounts, losses)
    ensures multiset(Ids(Successes(arrivals))) + multiset(failedIDs) == multiset(workerList)
  {
    gradients, rowCounts, losses, failedIDs := [], [], [], [];
    var responded: set<nat> := {};
    var next := 0;
    SilentComplete(workerList, Ids(arrivals));
    SetSize(Ids(arrivals));
    while |responded| < |workerList|
      invariant next <= |arrivals|
      invariant responded == Set(Ids(arrivals[..next]))
      invariant Aligned(Successes(arrivals[..next]), gradients, rowCounts, losses)
      invariant Sorted(arrivals[..next], failedIDs)
      decreases |arrivals| - next
    {
      if next == |arrivals| {
        assert arrivals[..next] == arrivals;
        failedIDs := AppendSilent(workerList, responded, failedIDs);
        return;
      }
      assert arrivals[..next + 1] == arrivals[..next] + [arrivals[next]];
      IdsSnoc(arrivals[..next], arrivals[next]);
      SetSnoc(Ids(arrivals[..next]), arrivals[next].nodeID);
      responded := responded + {arrivals[next].nodeID};
      gradients, rowCounts, losses, failedIDs :=
        Record(arrivals[..next], arrivals[next], gradients, rowCounts, losses, failedIDs);
      next := next + 1;
    }
    AllHeard(workerList, arrivals, next);
  }

  lemma AllHeard(workerList: seq<nat>, arrivals: seq<Result>, next: nat)
    requires NoRepeats(workerList) && NoRepeats(Ids(arrivals)) && next <= |arrivals|
    requires forall id :: id in Ids(arrivals) ==> id in workerList
    requires |Set(Ids(arrivals[..next]))| >= |workerList|
    ensures arrivals[..next] == arrivals
    ensures multiset(Ids(arrivals)) == multiset(workerList)
  {
    assert Ids(arrivals[..next]) == Ids(arrivals)[..next];
    SetSize(Ids(arrivals[..next]));
    SilentComplete(workerList, Ids(arrivals));
    assert Silent(workerList, Set(Ids(arrivals))) == [];
  }

  /** What delegateAll collects from truthful workers, when nobody failed, averages
      to the gradient over the whole dataset. */
  lemma CollectedIsCentral(net: Net, w: Vec, rows: seq<Row>, n: nat, arrivals: seq<Result>,
                           gradients: seq<Vec>, rowCounts: seq<nat>, losses: seq<real>)
    requires 0 < n <= |rows|
    requires Aligned(Successes(arrivals), gradients, rowCounts, losses)
    requires multiset(Ids(Successes(arrivals))) == multiset(Range(n))
    requires var ok := Successes(arrivals);
             forall k :: 0 <= k < |ok| ==>
               var part := Shard(rows, n, ok[k].nodeID);
               part != [] && ok[k].rowCount == |part| && ok[k].gradients == LocalGradient(net, w, part)
    ensures |gradients| == |rowCounts| > 0 && CountTotal(rowCounts) > 0 && forall g :: g in gradients ==> |g| == |w|
    ensures Aggregate(gradients, rowCounts) == LocalGradient(net, w, rows)
  {
    var ok := Successes(arrivals);
    var parts := seq(|ok|, k requires 0 <= k < |ok| => Shard(rows, n, ok[k].nodeID));
    ShardedIsCentral(net, w, rows, n, Ids(ok), parts, gradients, rowCounts);
  }
}
