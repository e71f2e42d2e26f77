/** What the training step does to a loss: it moves against the gradient, and on a
    least-squares problem it closes in on the minimum by a fixed factor. */
module Convergence {
  import opened Numbers
  import opened Sums
  import opened Sharding
  import opened Gradients
  import opened ParamProtocol
  import opened ParamInvariant

  // --- Against the gradient ---

  function Dot(x: Vec, y: Vec): real
    requires |x| == |y|
  {
    if x == [] then 0.0 else Dot(x[..|x| - 1], y[..|y| - 1]) + Times(x[|x| - 1], y[|y| - 1])
  }

  function Minus(x: Vec, y: Vec): (r: Vec)
    requires |x| == |y|
    ensures |r| == |x|
  {
    seq(|x|, i requires 0 <= i < |x| => x[i] - y[i])
  }

  lemma StepTerm(w: real, g: real, square: real)
    ensures -0.1 * square + Times((w - 0.1 * g) - w, g) == -0.1 * (square + Times(g, g))
  {
  }

  /** The step is -0.1 times the gradient: its scalar product with the gradient is
      -0.1 times the gradient's squared length, so it never goes uphill. */
  lemma {:induction false} StepOpposesGradient(w: Vec, g: Vec)
    requires |w| == |g|
    ensures Dot(Minus(Sgd(w, g), w), g) == -0.1 * Dot(g, g)
    ensures Dot(g, g) >= 0.0
  {
    if w != [] {
      var k := |w| - 1;
      StepOpposesGradient(w[..k], g[..k]);
      assert Sgd(w, g)[..k] == Sgd(w[..k], g[..k]);
      assert Minus(Sgd(w, g), w)[..k] == Minus(Sgd(w[..k], g[..k]), w[..k]);
      StepTerm(w[k], g[k], Dot(g[..k], g[..k]));
      SquarePositive(g[k]);
    }
  }

  lemma SquarePositive(x: real)
    ensures Times(x, x) >= 0.0
  {
  }

  // --- Least squares ---

  /** Coordinate j is fitted to target(j) of every row: the loss of a row is the sum of
      (w_j - target(j)(row))^2 / 2. */
  function LeastSquares(targets: nat -> Row -> real, decayed: nat -> bool): Net {
    Net((w, j) => Residual(w, j, targets(j)), decayed)
  }

  function Residual(w: Vec, j: nat, target: Row -> real): Row -> real {
    (row: Row) => (if j < |w| then w[j] else 0.0) - target(row)
  }

  lemma {:induction false} ResidualTotal(rows: seq<Row>, w: Vec, j: nat, target: Row -> real)
    requires j < |w|
    ensures Total(rows, Residual(w, j, target)) == Times(|rows| as real, w[j]) - Total(rows, target)
  {
    if rows != [] {
      ResidualTotal(rows[..|rows| - 1], w, j, target);
      OneLess(|rows|, w[j]);
    }
  }

  /** The mean of the target over the dataset. */
  function MeanTarget(rows: seq<Row>, target: Row -> real): real
    requires rows != []
  {
    Over(Total(rows, target), |rows| as real)
  }

  lemma MeanResidual(c: real, x: real, total: real)
    requires c > 0.0
    ensures Over(Times(c, x) - total, c) == x - Over(total, c)
  {
    assert Times(c, x) / c == x;
  }

  /** One full-batch step on coordinate j. */
  lemma StepAt(net: Net, targets: nat -> Row -> real, rows: seq<Row>, w: Vec, j: nat)
    requires rows != [] && j < |w| && net == LeastSquares(targets, net.decayed)
    ensures FullStep(net, rows, w)[j]
         == w[j] - 0.1 * (w[j] - MeanTarget(rows, targets(j)) + if net.decayed(j) then 0.01 * w[j] else 0.0)
  {
    ResidualTotal(rows, w, j, targets(j));
    MeanResidual(|rows| as real, w[j], Total(rows, targets(j)));
    assert net.rowGrad(w, j) == Residual(w, j, targets(j));
  }

  function Power(x: real, d: nat): real {
    if d == 0 then 1.0 else Times(x, Power(x, d - 1))
  }

  /** The curvature of the loss in coordinate j: 1, and the weight decay if any. */
  function Curvature(net: Net, j: nat): real { if net.decayed(j) then 1.01 else 1.0 }

  /** Where the loss plus the penalty 0.01 w_j^2 / 2 is least. */
  function Minimum(net: Net, rows: seq<Row>, target: Row -> real, j: nat): real
    requires rows != []
  {
    Over(MeanTarget(rows, target), Curvature(net, j))
  }

  lemma Contract(k: real, m: real, x: real, p: real, y: real)
    requires x == m + Times(p, y - m)
    ensures x - 0.1 * (k * x - k * m) == m + Times(Times(1.0 - 0.1 * k, p), y - m)
  {
    assert x - 0.1 * (k * x - k * m) == m + (1.0 - 0.1 * k) * (x - m);
    assert (1.0 - 0.1 * k) * (p * (y - m)) == (1.0 - 0.1 * k) * p * (y - m);
  }

  lemma CurvatureTimesMinimum(c: real, k: real)
    requires k != 0.0
    ensures k * Over(c, k) == c
  {
  }

  lemma {:induction false} DeepSize(t: Tenure, d: nat)
    requires t.Valid()
    ensures |Deep(t, d)| == |t.start|
  {
    if d > 0 {
      DeepSize(t, d - 1);
    }
  }

  /** Training converges: on a least-squares problem, for any data, the params that are
      d steps deep are at the minimum of the regularised loss but for the initial
      distance times 0.9^d, or 0.899^d where there is weight decay. */
  lemma {:induction false} TrainingConverges(t: Tenure, targets: nat -> Row -> real, j: nat, d: nat)
    requires t.Valid() && j < |t.start| && t.net == LeastSquares(targets, t.net.decayed)
    ensures |Deep(t, d)| == |t.start|
    ensures var m := Minimum(t.net, t.rows, targets(j), j);
            Deep(t, d)[j] == m + Times(Power(1.0 - 0.1 * Curvature(t.net, j), d), t.start[j] - m)
  {
    DeepSize(t, d);
    var k, m := Curvature(t.net, j), Minimum(t.net, t.rows, targets(j), j);
    if d > 0 {
      var w := Deep(t, d - 1);
      DeepSize(t, d - 1);
      TrainingConverges(t, targets, j, d - 1);
      StepAt(t.net, targets, t.rows, w, j);
      CurvatureTimesMinimum(MeanTarget(t.rows, targets(j)), k);
      Contract(k, m, w[j], Power(1.0 - 0.1 * k, d - 1), t.start[j]);
    }
  }

  // --- The loss ---

  function HalfSquare(x: real): real { x * x / 2.0 }

  function RowLoss(x: real, target: Row -> real): Row -> real { (row: Row) => HalfSquare(x - target(row)) }

  /** Coordinate j's part of the regularised loss: the mean over the rows, plus the L2
      penalty where it applies. */
  function Loss(net: Net, rows: seq<Row>, target: Row -> real, j: nat, x: real): real
    requires rows != []
  {
    Over(Total(rows, RowLoss(x, target)), |rows| as real) + if net.decayed(j) then 0.01 * HalfSquare(x) else 0.0
  }

  lemma HalfSquares(x: real, y: real, t: real)
    ensures HalfSquare(x - t) - HalfSquare(y - t) == HalfSquare(x) - HalfSquare(y) - Times(x - y, t)
  {
    var u := x - y;
    assert (x - t) * (x - t) == x * x - 2.0 * (x * t) + t * t;
    assert (y - t) * (y - t) == y * y - 2.0 * (y * t) + t * t;
    assert u * t == x * t - y * t;
  }

  lemma SumStep(n: real, d: real, u: real, total: real, t: real)
    ensures Times(n - 1.0, d) - Times(u, total) + (d - Times(u, t)) == Times(n, d) - Times(u, total + t)
  {
  }

  lemma {:induction false} LossTotals(rows: seq<Row>, target: Row -> real, x: real, y: real)
    ensures Total(rows, RowLoss(x, target)) - Total(rows, RowLoss(y, target))
         == Times(|rows| as real, HalfSquare(x) - HalfSquare(y)) - Times(x - y, Total(rows, target))
  {
    if rows != [] {
      var front, last := rows[..|rows| - 1], rows[|rows| - 1];
      LossTotals(front, target, x, y);
      HalfSquares(x, y, target(last));
      SumStep(|rows| as real, HalfSquare(x) - HalfSquare(y), x - y, Total(front, target), target(last));
      assert |front| as real == |rows| as real - 1.0;
    }
  }

  lemma MeanDifference(n: real, a: real, b: real, d: real, u: real, total: real)
    requires n > 0.0 && a - b == Times(n, d) - Times(u, total)
    ensures Over(a, n) - Over(b, n) == d - Times(u, Over(total, n))
  {
    assert n * d / n == d;
    assert u * total / n == u * (total / n);
    assert (a - b) / n == n * d / n - u * total / n;
  }

  lemma Parabola(k: real, m: real, c: real, x: real, decay: real)
    requires k == 1.0 + decay && k * m == c
    ensures HalfSquare(x) - HalfSquare(m) - Times(x - m, c) + decay * (HalfSquare(x) - HalfSquare(m))
         == k * HalfSquare(x - m)
  {
    assert (x - m) * (x - m) == x * x - 2.0 * (x * m) + m * m;
    assert (x - m) * (k * m) == k * (x * m) - k * (m * m);
  }

  /** Minimum is where the loss is least, and the loss is a parabola around it. */
  lemma LossGap(net: Net, rows: seq<Row>, target: Row -> real, j: nat, x: real)
    requires rows != []
    ensures var m := Minimum(net, rows, target, j);
            && Loss(net, rows, target, j, x) - Loss(net, rows, target, j, m) == Curvature(net, j) * HalfSquare(x - m)
            && Loss(net, rows, target, j, m) <= Loss(net, rows, target, j, x)
  {
    var c, k, m := MeanTarget(rows, target), Curvature(net, j), Minimum(net, rows, target, j);
    LossTotals(rows, target, x, m);
    MeanDifference(|rows| as real, Total(rows, RowLoss(x, target)), Total(rows, RowLoss(m, target)),
                   HalfSquare(x) - HalfSquare(m), x - m, Total(rows, target));
    CurvatureTimesMinimum(c, k);
    Parabola(k, m, c, x, k - 1.0);
    GapPositive(k, x - m);
  }

  lemma GapPositive(k: real, x: real)
    requires k > 0.0
    ensures k * HalfSquare(x) >= 0.0
  {
    assert x * x >= 0.0;
  }

  lemma ScaledSquare(k: real, r: real, y: real)
    ensures k * HalfSquare(Times(r, y)) == Times(r * r, k * HalfSquare(y))
  {
    assert (r * y) * (r * y) == (r * r) * (y * y);
  }

  lemma NextPower(r: real, p: real, y: real)
    ensures Times(Times(r, p), y) == Times(r, Times(p, y))
  {
  }

  /** Every step shrinks what the loss is above its minimum, by the same factor:
      0.81 without weight decay, and 0.899 squared with it. */
  lemma LossFalls(t: Tenure, targets: nat -> Row -> real, j: nat, d: nat)
    requires t.Valid() && j < |t.start| && t.net == LeastSquares(targets, t.net.decayed)
    ensures |Deep(t, d)| == |Deep(t, d + 1)| == |t.start|
    ensures var k := Curvature(t.net, j); var r := 1.0 - 0.1 * k;
            var least := Loss(t.net, t.rows, targets(j), j, Minimum(t.net, t.rows, targets(j), j));
            Loss(t.net, t.rows, targets(j), j, Deep(t, d + 1)[j]) - least
            == Times(r * r, Loss(t.net, t.rows, targets(j), j, Deep(t, d)[j]) - least)
  {
    hide Deep, Loss, Minimum;
    var k, m := Curvature(t.net, j), Minimum(t.net, t.rows, targets(j), j);
    var r := 1.0 - 0.1 * k;
    TrainingConverges(t, targets, j, d);
    TrainingConverges(t, targets, j, d + 1);
    var x, y := Deep(t, d)[j], Deep(t, d + 1)[j];
    NextPower(r, Power(r, d), t.start[j] - m);
    assert y - m == Times(r, x - m);
    LossGap(t.net, t.rows, targets(j), j, x);
    LossGap(t.net, t.rows, targets(j), j, y);
    ScaledSquare(k, r, x - m);
  }
}
