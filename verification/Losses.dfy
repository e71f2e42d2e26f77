/** The unweighted average of the workers' losses, and how far it can be from the
    loss over all rows. */
module Losses {
  import opened Numbers
  import opened Sums
  import opened Sharding

  // --- averageLoss ---

  function ListTotal(ls: seq<real>): real {
    if ls == [] then 0.0 else ListTotal(ls[..|ls| - 1]) + ls[|ls| - 1]
  }

  method AverageLoss(losses: seq<real>) returns (avg: real)
    ensures avg == if losses == [] then 0.0 else Mean(losses)
  {
    if |losses| == 0 {
      return 0.0;
    }
    var sum := 0.0;
    var i := 0;
    while i < |losses|
      invariant i <= |losses| && sum == ListTotal(losses[..i])
    {
      assert losses[..i + 1][..i] == losses[..i];
      sum := sum + losses[i];
      i := i + 1;
    }
    assert losses[..|losses|] == losses;
    return sum / |losses| as real;
  }

  ghost predicate Within(ls: seq<real>, lo: real, hi: real) {
    forall i :: 0 <= i < |ls| ==> lo <= ls[i] <= hi
  }

  lemma {:induction false} ListBounds(ls: seq<real>, lo: real, hi: real)
    requires Within(ls, lo, hi)
    ensures Times(|ls| as real, lo) <= ListTotal(ls) <= Times(|ls| as real, hi)
  {
    if ls != [] {
      var front := ls[..|ls| - 1];
      ListBounds(front, lo, hi);
      OneLess(|ls|, lo);
      OneLess(|ls|, hi);
    }
  }

  lemma {:induction false} ListAppend(xs: seq<real>, ys: seq<real>)
    ensures ListTotal(xs + ys) == ListTotal(xs) + ListTotal(ys)
  {
    if ys == [] {
      assert xs + ys == xs;
    } else {
      assert (xs + ys)[..|xs + ys| - 1] == xs + ys[..|ys| - 1];
      ListAppend(xs, ys[..|ys| - 1]);
    }
  }

  function Same(x: real): real { x }

  lemma {:induction false} ListIsTotal(ls: seq<real>)
    ensures ListTotal(ls) == Total(ls, Same)
  {
    if ls != [] {
      ListIsTotal(ls[..|ls| - 1]);
    }
  }

  /** The average does not depend on the order in which the workers answered. */
  lemma MeanInAnyOrder(ls: seq<real>, reported: seq<real>)
    requires ls != [] && multiset(reported) == multiset(ls)
    ensures reported != [] && Mean(reported) == Mean(ls)
  {
    assert |multiset(reported)| == |multiset(ls)|;
    ListIsTotal(ls);
    ListIsTotal(reported);
    TotalOrderFree(reported, ls, Same);
  }

  /** The losses of the first k nodes, each weighted by the size of its shard. */
  function RowWeighted(rows: seq<Row>, ls: seq<real>, k: nat): real
    requires k <= |ls|
  {
    if k == 0 then 0.0
    else RowWeighted(rows, ls, k - 1) + Times(|Shard(rows, |ls|, k - 1)| as real, ls[k - 1])
  }

  function Mean(ls: seq<real>): real
    requires ls != []
  {
    Over(ListTotal(ls), |ls| as real)
  }

  /** The mean lies between the least and the greatest loss; of equal losses it is that
      loss. */
  lemma MeanIsBetween(ls: seq<real>, lo: real, hi: real)
    requires ls != [] && Within(ls, lo, hi)
    ensures lo <= Mean(ls) <= hi
  {
    ListBounds(ls, lo, hi);
    BetweenOver(|ls| as real, ListTotal(ls), lo, hi);
  }

  lemma BetweenOver(n: real, x: real, lo: real, hi: real)
    requires n > 0.0 && Times(n, lo) <= x <= Times(n, hi)
    ensures lo <= Over(x, n) <= hi
  {
    assert n * (x / n) == x;
  }

  function RowMean(rows: seq<Row>, ls: seq<real>): real
    requires rows != []
  {
    Over(RowWeighted(rows, ls, |ls|), |rows| as real)
  }

  lemma WeightStep(q: real, e: real, x: real, l: real)
    ensures Times(q, x) + Times(q + e, l) == Times(q, x + l) + Times(e, l)
  {
  }

  function Cut(k: nat, s: nat): nat { if k < s then k else s }

  /** Every node weighs |rows| / n, and the first |rows| mod n nodes one more. */
  lemma {:induction false} WeightsSplit(rows: seq<Row>, ls: seq<real>, k: nat)
    requires ls != [] && k <= |ls|
    ensures RowWeighted(rows, ls, k)
         == Times((|rows| / |ls|) as real, ListTotal(ls[..k])) + ListTotal(ls[..Cut(k, |rows| % |ls|)])
  {
    var n := |ls|;
    var q, s := |rows| / n, |rows| % n;
    if k > 0 {
      WeightsSplit(rows, ls, k - 1);
      ShardSize(rows, n, k - 1);
      assert ls[..k][..k - 1] == ls[..k - 1];
      WeightStep(q as real, if k - 1 < s then 1.0 else 0.0, ListTotal(ls[..k - 1]), ls[k - 1]);
      if k - 1 < s {
        assert |Shard(rows, n, k - 1)| as real == q as real + 1.0;
      }
    }
  }

  /** S/n - (q S + A)/T, with T = q n + s, S = A + B. */
  lemma DifferenceIs(n: real, q: real, s: real, t: real, a: real, b: real)
    requires n > 0.0 && t > 0.0 && t == q * n + s
    ensures n * t > 0.0
    ensures Over(a + b, n) - Over(Times(q, a + b) + a, t) == Over(s * b - (n - s) * a, n * t)
  {
    var x := a + b;
    var nt := n * t;
    assert x / n == (x * t) / nt;
    assert (q * x + a) / t == ((q * x + a) * n) / nt;
    assert x * t == x * q * n + x * s;
    assert (q * x + a) * n == x * q * n + a * n;
    assert x * t - (q * x + a) * n == s * b - (n - s) * a;
  }

  lemma SpreadBound(s: real, r: real, a: real, b: real, lo: real, hi: real)
    requires s >= 0.0 && r >= 0.0
    requires Times(s, lo) <= a <= Times(s, hi) && Times(r, lo) <= b <= Times(r, hi)
    ensures -(s * r * (hi - lo)) <= s * b - r * a <= s * r * (hi - lo)
  {
    MulOrder(s, b, r * hi);
    MulOrder(s, r * lo, b);
    MulOrder(r, a, s * hi);
    MulOrder(r, s * lo, a);
  }

  /** (hi - lo) s (n - s) / (n T). */
  function ErrorBound(n: real, t: real, s: real, spread: real): real
    requires n * t > 0.0
  {
    Over(s * (n - s) * spread, n * t)
  }

  lemma ErrorOf(n: real, q: real, s: real, t: real, a: real, b: real, lo: real, hi: real)
    requires n > 0.0 && t > 0.0 && t == q * n + s && 0.0 <= s <= n
    requires Times(s, lo) <= a <= Times(s, hi) && Times(n - s, lo) <= b <= Times(n - s, hi)
    ensures n * t > 0.0
    ensures -ErrorBound(n, t, s, hi - lo) <= Over(a + b, n) - Over(Times(q, a + b) + a, t)
                                          <= ErrorBound(n, t, s, hi - lo)
  {
    DifferenceIs(n, q, s, t, a, b);
    SpreadBound(s, n - s, a, b, lo, hi);
    DivideBound(s * b - (n - s) * a, s * (n - s) * (hi - lo), n * t);
  }

  lemma DivideBound(x: real, y: real, c: real)
    requires c > 0.0 && -y <= x <= y
    ensures -Over(y, c) <= Over(x, c) <= Over(y, c)
  {
  }

  lemma RealDivMod(t: nat, n: nat)
    requires n > 0
    ensures t as real == (t / n) as real * n as real + (t % n) as real
  {
    assert t == (t / n) * n + t % n;
    assert ((t / n) * n) as real == (t / n) as real * n as real;
  }

  /** Both means in terms of the two groups of nodes: those with an extra row,
      and the others. */
  lemma MeansSplit(rows: seq<Row>, ls: seq<real>)
    requires ls != [] && rows != []
    ensures var s := |rows| % |ls|;
            var a, b := ListTotal(ls[..s]), ListTotal(ls[s..]);
            && Mean(ls) == Over(a + b, |ls| as real)
            && RowMean(rows, ls) == Over(Times((|rows| / |ls|) as real, a + b) + a, |rows| as real)
  {
    var s := |rows| % |ls|;
    assert ls[..|ls|] == ls && ls == ls[..s] + ls[s..];
    ListAppend(ls[..s], ls[s..]);
    WeightsSplit(rows, ls, |ls|);
  }

  lemma GroupFacts(rows: seq<Row>, ls: seq<real>, lo: real, hi: real)
    requires ls != [] && rows != [] && Within(ls, lo, hi)
    ensures var s := |rows| % |ls|; var n := |ls| as real;
            && Times(s as real, lo) <= ListTotal(ls[..s]) <= Times(s as real, hi)
            && Times(n - s as real, lo) <= ListTotal(ls[s..]) <= Times(n - s as real, hi)
            && 0.0 <= s as real <= n
            && |rows| as real == (|rows| / |ls|) as real * n + s as real
  {
    var s := |rows| % |ls|;
    ListBounds(ls[..s], lo, hi);
    ListBounds(ls[s..], lo, hi);
    assert |ls[s..]| as real == |ls| as real - s as real;
    RealDivMod(|rows|, |ls|);
  }

  /** The error of averaging shard losses without weights: with losses in [lo, hi],
      node i's being ls[i], and s = |rows| mod n, it is at most
      (hi - lo) s (n - s) / (n |rows|), in whatever order they were reported. */
  lemma UnweightedError(rows: seq<Row>, ls: seq<real>, reported: seq<real>, lo: real, hi: real)
    requires ls != [] && rows != [] && Within(ls, lo, hi) && multiset(reported) == multiset(ls)
    ensures reported != [] && |ls| as real * |rows| as real > 0.0
    ensures var bound := ErrorBound(|ls| as real, |rows| as real, (|rows| % |ls|) as real, hi - lo);
            -bound <= Mean(reported) - RowMean(rows, ls) <= bound
  {
    var s := |rows| % |ls|;
    MeanInAnyOrder(ls, reported);
    MeansSplit(rows, ls);
    GroupFacts(rows, ls, lo, hi);
    ErrorOf(|ls| as real, (|rows| / |ls|) as real, s as real, |rows| as real,
            ListTotal(ls[..s]), ListTotal(ls[s..]), lo, hi);
  }

  /** (hi - lo) n / (4 T). */
  function WorstError(n: real, t: real, spread: real): real
    requires t > 0.0
  {
    Over(spread * n, 4.0 * t)
  }

  lemma QuarterBound(n: real, t: real, s: real, d: real)
    requires n > 0.0 && t > 0.0 && d >= 0.0 && n * t > 0.0
    ensures ErrorBound(n, t, s, d) <= WorstError(n, t, d)
    ensures s == 0.0 ==> ErrorBound(n, t, s, d) == 0.0
  {
    assert (n - 2.0 * s) * (n - 2.0 * s) >= 0.0;
    assert s * (n - s) <= n * n / 4.0;
    MulOrder(d, s * (n - s), n * n / 4.0);
    assert d * n / (4.0 * t) == (d * (n * n / 4.0)) / (n * t);
  }

  /** So the average is exact when the nodes divide the rows evenly, and is never
      off by more than (hi - lo) n / (4 |rows|). */
  lemma UnweightedErrorIsSmall(rows: seq<Row>, ls: seq<real>, reported: seq<real>, lo: real, hi: real)
    requires ls != [] && rows != [] && Within(ls, lo, hi) && multiset(reported) == multiset(ls)
    ensures reported != []
    ensures |rows| % |ls| == 0 ==> Mean(reported) == RowMean(rows, ls)
    ensures var worst := WorstError(|ls| as real, |rows| as real, hi - lo);
            -worst <= Mean(reported) - RowMean(rows, ls) <= worst
  {
    UnweightedError(rows, ls, reported, lo, hi);
    assert lo <= ls[0] <= hi;
    QuarterBound(|ls| as real, |rows| as real, (|rows| % |ls|) as real, hi - lo);
  }

  // --- Exactly when the plain mean is right ---

  /** s B - (n - s) A, for the loss totals A and B of the two groups of nodes. */
  function Gap(n: real, s: real, a: real, b: real): real { Times(s, b) - Times(n - s, a) }

  lemma DifferenceIsGap(n: real, q: real, s: real, t: real, a: real, b: real)
    requires n > 0.0 && t > 0.0 && t == q * n + s
    ensures Times(n, t) > 0.0
    ensures Over(a + b, n) - Over(Times(q, a + b) + a, t) == Over(Gap(n, s, a, b), Times(n, t))
  {
    DifferenceIs(n, q, s, t, a, b);
  }

  lemma ErrorIs(rows: seq<Row>, ls: seq<real>)
    requires ls != [] && rows != []
    ensures Times(|ls| as real, |rows| as real) > 0.0
    ensures var s := |rows| % |ls|;
            Mean(ls) - RowMean(rows, ls)
            == Over(Gap(|ls| as real, s as real, ListTotal(ls[..s]), ListTotal(ls[s..])),
                    Times(|ls| as real, |rows| as real))
  {
    var s := |rows| % |ls|;
    MeansSplit(rows, ls);
    RealDivMod(|rows|, |ls|);
    DifferenceIsGap(|ls| as real, (|rows| / |ls|) as real, s as real, |rows| as real,
                    ListTotal(ls[..s]), ListTotal(ls[s..]));
    hide *;
  }

  lemma ZeroOver(x: real, c: real)
    requires c > 0.0
    ensures Over(x, c) == 0.0 <==> x == 0.0
  {
  }

  /** For these losses the plain mean is the loss over all rows if and only if the
      s nodes with an extra row and the n - s others have the same mean loss. */
  lemma ExactForTheseLosses(rows: seq<Row>, ls: seq<real>, reported: seq<real>)
    requires ls != [] && rows != [] && multiset(reported) == multiset(ls)
    ensures reported != []
    ensures var s := |rows| % |ls|;
            Mean(reported) == RowMean(rows, ls)
            <==> Times(s as real, ListTotal(ls[s..])) == Times(|ls| as real - s as real, ListTotal(ls[..s]))
  {
    hide Times, Over, Mean, RowMean;
    var s := |rows| % |ls|;
    MeanInAnyOrder(ls, reported);
    ErrorIs(rows, ls);
    ZeroOver(Gap(|ls| as real, s as real, ListTotal(ls[..s]), ListTotal(ls[s..])),
             Times(|ls| as real, |rows| as real));
  }

  lemma {:induction false} ConstantTotal(ls: seq<real>, x: real)
    requires forall i :: 0 <= i < |ls| ==> ls[i] == x
    ensures ListTotal(ls) == Times(|ls| as real, x)
  {
    if ls != [] {
      ConstantTotal(ls[..|ls| - 1], x);
      OneLess(|ls|, x);
    }
  }

  /** The nodes with an extra row report one loss, all others another. */
  function TwoLosses(n: nat, s: nat, few: real, many: real): seq<real>
    requires s <= n
  {
    seq(n, i requires 0 <= i < n => if i < s then few else many)
  }

  lemma GapOfTwo(n: real, t: real, s: real, lo: real, hi: real)
    requires Times(n, t) > 0.0
    ensures n * t > 0.0
    ensures Over(Gap(n, s, Times(s, lo), Times(n - s, hi)), Times(n, t)) == ErrorBound(n, t, s, hi - lo)
  {
    assert s * ((n - s) * hi) == s * (n - s) * hi;
    assert (n - s) * (s * lo) == s * (n - s) * lo;
  }

  /** The bound is reached. With lo > hi it is reached from below. */
  lemma BoundIsReached(rows: seq<Row>, n: nat, lo: real, hi: real)
    requires n > 0 && rows != []
    ensures n as real * |rows| as real > 0.0
    ensures var ls := TwoLosses(n, |rows| % n, lo, hi);
            Mean(ls) - RowMean(rows, ls) == ErrorBound(n as real, |rows| as real, (|rows| % n) as real, hi - lo)
  {
    var s := |rows| % n;
    var ls := TwoLosses(n, s, lo, hi);
    ConstantTotal(ls[..s], lo);
    ConstantTotal(ls[s..], hi);
    assert |ls[s..]| as real == n as real - s as real;
    ErrorIs(rows, ls);
    GapOfTwo(n as real, |rows| as real, s as real, lo, hi);
    hide *;
  }

  lemma NothingTimes(ls: seq<real>)
    ensures Times(0.0, ListTotal(ls[0..])) == Times(|ls| as real, ListTotal(ls[..0]))
  {
    assert ls[..0] == [];
  }

  lemma ProperShare(n: real, t: real, s: real)
    requires 0.0 < s < n && n * t > 0.0
    ensures ErrorBound(n, t, s, 1.0) > 0.0
  {
    assert s * (n - s) * 1.0 > 0.0;
  }

  /** So the plain mean is right for whatever losses n nodes report if and only if n
      divides the number of rows. */
  lemma ExactForAllLosses(rows: seq<Row>, n: nat)
    requires n > 0 && rows != []
    ensures (forall ls: seq<real> :: |ls| == n ==> Mean(ls) == RowMean(rows, ls)) <==> |rows| % n == 0
  {
    hide Mean, RowMean, ErrorBound;
    if |rows| % n == 0 {
      forall ls: seq<real> | |ls| == n
        ensures Mean(ls) == RowMean(rows, ls)
      {
        ExactForTheseLosses(rows, ls, ls);
        NothingTimes(ls);
      }
    } else {
      BoundIsReached(rows, n, 0.0, 1.0);
      ProperShare(n as real, |rows| as real, (|rows| % n) as real);
      assert |TwoLosses(n, |rows| % n, 0.0, 1.0)| == n;
    }
  }
}
