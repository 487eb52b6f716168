/**
 * The arithmetic and the trajectory of LogitBoost as used by logistic model
 * trees: the clipped working response and weight, the centered update of
 * the committee values F, the sequence of states a boosting run goes
 * through, the early-stopping rule, the first-minimum rule, and the linear
 * model the fitted simple regressions add up to.
 *
 * Floating-point values are modelled as reals.  The simple-regression fitter
 * and the softmax are given functions (oracles).
 */
module LogitBoost {

  /** Threshold on the working response (Z_MAX). */
  const ZMax: real := 3.0

  /** Float.MAX_VALUE, the starting value of the running minimum. */
  const FloatMax: real := 340282346638528859811704183484516925440.0

  /** Utils.SMALL, the tolerance of Utils.eq. */
  const Small: real := 0.000001

  /** The number of cross-validation folds used to choose the iteration count. */
  const NumFoldsBoosting: nat := 5

  /**
   * A fitted simple linear regression: intercept + slope * x[attribute].
   * An attribute below 0 means no useful attribute was found.
   */
  datatype Regression = Regression(attribute: int, slope: real, intercept: real)
  {
    predicate Found() { attribute >= 0 }
  }

  /** A regression that has not been fitted (initRegressions). */
  const Blank: Regression := Regression(-1, 0.0, 0.0)

  /** classifyInstance of a simple linear regression. */
  function Classify(r: Regression, x: seq<real>): real
  {
    if 0 <= r.attribute < |x| then r.intercept + r.slope * x[r.attribute] else r.intercept
  }

  // ---------------------------------------------------------------------
  // Working response and weight

  /**
   * getZ: 1/p for the true class, -1/(1-p) otherwise, clipped to Z_MAX in
   * absolute value.  A zero denominator gives an infinity in floating
   * point, which the clipping turns into the threshold.
   */
  function GetZ(actual: real, p: real): (z: real)
    ensures z != 0.0
  {
    if actual == 1.0 then
      if p == 0.0 then ZMax
      else if 1.0 / p > ZMax then ZMax else 1.0 / p
    else
      if p == 1.0 then -ZMax
      else if -1.0 / (1.0 - p) < -ZMax then -ZMax else -1.0 / (1.0 - p)
  }

  lemma GetZBounds(actual: real, p: real)
    ensures actual == 1.0 && 0.0 < p <= 1.0 ==> 1.0 <= GetZ(actual, p) <= ZMax
    ensures actual != 1.0 && 0.0 <= p < 1.0 ==> -ZMax <= GetZ(actual, p) <= -1.0
  {
    if actual == 1.0 && 0.0 < p <= 1.0 {
      ReciprocalAtLeastOne(p);
    }
    if actual != 1.0 && 0.0 <= p < 1.0 {
      ReciprocalAtLeastOne(1.0 - p);
      assert -1.0 / (1.0 - p) == -(1.0 / (1.0 - p));
    }
  }

  lemma ReciprocalAtLeastOne(d: real)
    requires 0.0 < d <= 1.0
    ensures 1.0 / d >= 1.0
  {
    var q := 1.0 / d;
    assert d * q == 1.0;
  }

  /**
   * The working weight (y - p) / z of getWs and performIteration: positive
   * for a 0/1 label and a probability strictly between 0 and 1.
   */
  function WorkingWeight(actual: real, p: real): (w: real)
    ensures (actual == 0.0 || actual == 1.0) && 0.0 < p < 1.0 ==> w > 0.0
  {
    GetZBounds(actual, p);
    var z := GetZ(actual, p);
    assert actual == 1.0 && 0.0 < p < 1.0 ==> actual - p > 0.0 && z > 0.0;
    assert actual == 0.0 && 0.0 < p < 1.0 ==> actual - p < 0.0 && z < 0.0;
    (actual - p) / z
  }

  /**
   * Away from the clipping, z is the Newton step (y - p) / (p (1 - p)) of
   * LogitBoost and the working weight is p (1 - p).
   */
  lemma UnclippedNewtonStep(actual: real, p: real)
    requires actual == 0.0 || actual == 1.0
    requires 0.0 < p < 1.0
    requires -ZMax < GetZ(actual, p) < ZMax
    ensures GetZ(actual, p) * (p * (1.0 - p)) == actual - p
    ensures WorkingWeight(actual, p) == p * (1.0 - p)
  {
    var z := GetZ(actual, p);
    if actual == 1.0 {
      assert z == 1.0 / p;
      assert z * p == 1.0;
      assert z * (p * (1.0 - p)) == (z * p) * (1.0 - p);
    } else {
      assert z == -1.0 / (1.0 - p);
      assert z * (1.0 - p) == -1.0;
      assert z * (p * (1.0 - p)) == (z * (1.0 - p)) * p;
    }
  }

  // ---------------------------------------------------------------------
  // Sums and centering

  function Sum(s: seq<real>): real
  {
    if |s| == 0 then 0.0 else Sum(s[..|s| - 1]) + s[|s| - 1]
  }

  lemma SumSnoc(s: seq<real>, j: nat)
    requires j < |s|
    ensures Sum(s[..j + 1]) == Sum(s[..j]) + s[j]
  {
    assert s[..j + 1][..j] == s[..j];
  }

  lemma {:induction false} SumAdd(a: seq<real>, b: seq<real>, c: seq<real>)
    requires |a| == |b| == |c|
    requires forall j :: 0 <= j < |c| ==> c[j] == a[j] + b[j]
    ensures Sum(c) == Sum(a) + Sum(b)
  {
    if |c| > 0 {
      var n := |c| - 1;
      SumAdd(a[..n], b[..n], c[..n]);
    }
  }

  /** One centered entry: (v - mean) * (k - 1) / k. */
  function Center(v: real, mean: real, k: real): real
    requires k != 0.0
  {
    (v - mean) * (k - 1.0) / k
  }

  /** The increment of one iteration: each prediction minus the mean, times (K - 1) / K. */
  function Centered(pred: seq<real>): (c: seq<real>)
    requires |pred| >= 1
    ensures |c| == |pred|
  {
    seq(|pred|, j requires 0 <= j < |pred| => Center(pred[j], Sum(pred) / (|pred| as real), |pred| as real))
  }

  lemma CenteredSumsToZero(pred: seq<real>)
    requires |pred| >= 1
    ensures Sum(Centered(pred)) == 0.0
  {
    var k := |pred| as real;
    var mean := Sum(pred) / k;
    var means := seq(|pred|, j => mean);
    SumCenter(pred, means, Centered(pred), k);
    SumConst(means, mean);
    DivMul(Sum(pred), k);
    CenterZero(Sum(pred), k);
  }

  lemma CenterAdd(u: real, a: real, v: real, b: real, k: real)
    requires k != 0.0
    ensures Center(u, a, k) + Center(v, b, k) == Center(u + v, a + b, k)
  {
  }

  lemma CenterZero(v: real, k: real)
    requires k != 0.0
    ensures Center(v, v, k) == 0.0
  {
  }

  /** Centering is additive: the sum of centered entries is the centered sum. */
  lemma {:induction false} SumCenter(s: seq<real>, m: seq<real>, c: seq<real>, k: real)
    requires k != 0.0 && |s| == |m| == |c|
    requires forall j :: 0 <= j < |c| ==> c[j] == Center(s[j], m[j], k)
    ensures Sum(c) == Center(Sum(s), Sum(m), k)
  {
    if |c| == 0 {
      CenterZero(0.0, k);
    } else {
      var n := |c| - 1;
      SumCenter(s[..n], m[..n], c[..n], k);
      CenterAdd(Sum(s[..n]), Sum(m[..n]), s[n], m[n], k);
    }
  }

  lemma {:induction false} SumConst(s: seq<real>, a: real)
    requires forall j :: 0 <= j < |s| ==> s[j] == a
    ensures Sum(s) == (|s| as real) * a
  {
    if |s| > 0 {
      SumConst(s[..|s| - 1], a);
    }
  }

  lemma DivMul(x: real, k: real)
    requires k != 0.0
    ensures k * (x / k) == x
  {
  }

  function AddVec(a: seq<real>, b: seq<real>): (c: seq<real>)
    requires |a| == |b|
    ensures |c| == |a|
  {
    seq(|a|, j requires 0 <= j < |a| => a[j] + b[j])
  }

  /** The predictions of one column of regressions (one per class) on x. */
  function Preds(col: seq<Regression>, x: seq<real>): (pred: seq<real>)
    ensures |pred| == |col|
  {
    seq(|col|, j requires 0 <= j < |col| => Classify(col[j], x))
  }

  /** What one iteration with the regressions `col` adds to the F values of x. */
  function Increment(col: seq<Regression>, x: seq<real>): (inc: seq<real>)
    requires |col| >= 1
    ensures |inc| == |col|
  {
    Centered(Preds(col, x))
  }

  /** Column i of a K x m regression table. */
  function ColumnOf(table: seq<seq<Regression>>, i: nat): (col: seq<Regression>)
    requires forall j :: 0 <= j < |table| ==> i < |table[j]|
    ensures |col| == |table|
  {
    seq(|table|, j requires 0 <= j < |table| => table[j][i])
  }

  predicate HasColumns(table: seq<seq<Regression>>, m: nat)
  {
    |table| >= 1 && forall j :: 0 <= j < |table| ==> |table[j]| >= m
  }

  /** getFs of one instance: the sum of the first m iterations' increments. */
  function FsOf(table: seq<seq<Regression>>, m: nat, x: seq<real>): (f: seq<real>)
    requires HasColumns(table, m)
    ensures |f| == |table|
  {
    if m == 0 then seq(|table|, j => 0.0)
    else AddVec(FsOf(table, m - 1, x), Increment(ColumnOf(table, m - 1), x))
  }

  lemma SumZeros(n: nat)
    ensures Sum(seq(n, j => 0.0)) == 0.0
  {
    SumConst(seq(n, j => 0.0), 0.0);
  }

  /** Adding centered increments keeps the sum of a row. */
  lemma AddIncrementKeepsSum(f: seq<real>, col: seq<Regression>, x: seq<real>)
    requires |col| >= 1 && |f| == |col|
    ensures Sum(AddVec(f, Increment(col, x))) == Sum(f)
  {
    SumAdd(f, Increment(col, x), AddVec(f, Increment(col, x)));
    CenteredSumsToZero(Preds(col, x));
  }

  /** The F values of an instance always sum to zero over the classes. */
  lemma {:induction false} FsSumToZero(table: seq<seq<Regression>>, m: nat, x: seq<real>)
    requires HasColumns(table, m)
    ensures Sum(FsOf(table, m, x)) == 0.0
  {
    if m == 0 {
      SumZeros(|table|);
    } else {
      FsSumToZero(table, m - 1, x);
      AddIncrementKeepsSum(FsOf(table, m - 1, x), ColumnOf(table, m - 1), x);
    }
  }

  // ---------------------------------------------------------------------
  // One boosting run

  /** The simple-regression fitter: (data rows, responses z, weights) to a regression. */
  type Fitter = (seq<seq<real>>, seq<real>, seq<real>) -> Regression

  /** The class probability estimate p_j given the F values of an instance. */
  type Softmax = (seq<real>, nat) -> real

  predicate IsGrid(g: seq<seq<real>>, n: nat, k: nat)
  {
    |g| == n && forall i :: 0 <= i < n ==> |g[i]| == k
  }

  /**
   * The training data of a run: numeric instance rows, instance weights
   * and the 0/1 class indicators y (getYs).
   */
  datatype Problem = Problem(rows: seq<seq<real>>, weights: seq<real>, ys: seq<seq<real>>, numClasses: nat)
  {
    predicate Shaped()
    {
      numClasses >= 1 && |weights| == |rows| && IsGrid(ys, |rows|, numClasses)
    }
  }

  /** The F values and probabilities of every training instance. */
  datatype Boost = Boost(fs: seq<seq<real>>, ps: seq<seq<real>>)

  datatype Run = Run(problem: Problem, fit: Fitter, prob: Softmax, start: Boost)
  {
    predicate Valid()
    {
      && problem.Shaped()
      && IsGrid(start.fs, |problem.rows|, problem.numClasses)
      && IsGrid(start.ps, |problem.rows|, problem.numClasses)
    }
  }

  /** The working responses of class j. */
  function ZColumn(ys: seq<seq<real>>, ps: seq<seq<real>>, j: nat): (z: seq<real>)
    requires |ps| == |ys|
    requires forall i :: 0 <= i < |ys| ==> j < |ys[i]| && j < |ps[i]|
    ensures |z| == |ys|
  {
    seq(|ys|, i requires 0 <= i < |ys| => GetZ(ys[i][j], ps[i][j]))
  }

  /** The instance weights of class j: the data weight times the working weight. */
  function WColumn(weights: seq<real>, ys: seq<seq<real>>, ps: seq<seq<real>>, j: nat): (w: seq<real>)
    requires |ps| == |ys| == |weights|
    requires forall i :: 0 <= i < |ys| ==> j < |ys[i]| && j < |ps[i]|
    ensures |w| == |ys|
  {
    seq(|ys|, i requires 0 <= i < |ys| => weights[i] * WorkingWeight(ys[i][j], ps[i][j]))
  }

  /** The regression fitted for class j given the probabilities ps. */
  function FitClass(pr: Problem, fit: Fitter, ps: seq<seq<real>>, j: nat): Regression
    requires pr.Shaped() && IsGrid(ps, |pr.rows|, pr.numClasses) && j < pr.numClasses
  {
    fit(pr.rows, ZColumn(pr.ys, ps, j), WColumn(pr.weights, pr.ys, ps, j))
  }

  /** The first class, from j on, whose fit finds no useful attribute (numClasses if none). */
  function FirstFailure(pr: Problem, fit: Fitter, ps: seq<seq<real>>, j: nat): (r: nat)
    requires pr.Shaped() && IsGrid(ps, |pr.rows|, pr.numClasses) && j <= pr.numClasses
    decreases pr.numClasses - j
  {
    if j == pr.numClasses then j
    else if !FitClass(pr, fit, ps, j).Found() then j
    else FirstFailure(pr, fit, ps, j + 1)
  }

  lemma {:induction false} FirstFailureSpec(pr: Problem, fit: Fitter, ps: seq<seq<real>>, j: nat)
    requires pr.Shaped() && IsGrid(ps, |pr.rows|, pr.numClasses) && j <= pr.numClasses
    ensures j <= FirstFailure(pr, fit, ps, j) <= pr.numClasses
    ensures forall c :: j <= c < FirstFailure(pr, fit, ps, j) ==> FitClass(pr, fit, ps, c).Found()
    ensures FirstFailure(pr, fit, ps, j) < pr.numClasses ==>
              !FitClass(pr, fit, ps, FirstFailure(pr, fit, ps, j)).Found()
    decreases pr.numClasses - j
  {
    if j < pr.numClasses && FitClass(pr, fit, ps, j).Found() {
      FirstFailureSpec(pr, fit, ps, j + 1);
    }
  }

  /** The regressions fitted for every class. */
  function Column(pr: Problem, fit: Fitter, ps: seq<seq<real>>): (col: seq<Regression>)
    requires pr.Shaped() && IsGrid(ps, |pr.rows|, pr.numClasses)
    ensures |col| == pr.numClasses
  {
    seq(pr.numClasses, j requires 0 <= j < pr.numClasses => FitClass(pr, fit, ps, j))
  }

  /** Every instance's F values after adding the increments of `col`. */
  function AddedRows(fs: seq<seq<real>>, col: seq<Regression>, rows: seq<seq<real>>): (r: seq<seq<real>>)
    requires |col| >= 1 && IsGrid(fs, |rows|, |col|)
    ensures IsGrid(r, |rows|, |col|)
  {
    seq(|rows|, i requires 0 <= i < |rows| => AddVec(fs[i], Increment(col, rows[i])))
  }

  /** getProbs: the probabilities of every instance given its F values. */
  function ProbsOf(prob: Softmax, fs: seq<seq<real>>, k: nat): (ps: seq<seq<real>>)
    ensures IsGrid(ps, |fs|, k)
  {
    seq(|fs|, i requires 0 <= i < |fs| => seq(k, j requires 0 <= j < k => prob(fs[i], j)))
  }

  /** The state after a successful iteration from state s. */
  function Advance(pr: Problem, fit: Fitter, prob: Softmax, s: Boost): (s': Boost)
    requires pr.Shaped() && IsGrid(s.fs, |pr.rows|, pr.numClasses) && IsGrid(s.ps, |pr.rows|, pr.numClasses)
    ensures IsGrid(s'.fs, |pr.rows|, pr.numClasses) && IsGrid(s'.ps, |pr.rows|, pr.numClasses)
  {
    var fs := AddedRows(s.fs, Column(pr, fit, s.ps), pr.rows);
    Boost(fs, ProbsOf(prob, fs, pr.numClasses))
  }

  /** The state after t successful iterations. */
  function StateAt(run: Run, t: nat): (s: Boost)
    requires run.Valid()
    ensures IsGrid(s.fs, |run.problem.rows|, run.problem.numClasses)
    ensures IsGrid(s.ps, |run.problem.rows|, run.problem.numClasses)
  {
    if t == 0 then run.start else Advance(run.problem, run.fit, run.prob, StateAt(run, t - 1))
  }

  /** Iteration t (counting from 0) finds a useful attribute for every class. */
  predicate Succeeds(run: Run, t: nat)
    requires run.Valid()
  {
    FirstFailure(run.problem, run.fit, StateAt(run, t).ps, 0) == run.problem.numClasses
  }

  /** The regressions fitted in iteration t. */
  function ColumnAt(run: Run, t: nat): (col: seq<Regression>)
    requires run.Valid()
    ensures |col| == run.problem.numClasses
  {
    Column(run.problem, run.fit, StateAt(run, t).ps)
  }

  /** The K x t table of regressions after t successful iterations. */
  function TableAt(run: Run, t: nat): (table: seq<seq<Regression>>)
    requires run.Valid()
    ensures |table| == run.problem.numClasses
    ensures forall j :: 0 <= j < |table| ==> |table[j]| == t
  {
    seq(run.problem.numClasses, j requires 0 <= j < run.problem.numClasses =>
      seq(t, i requires 0 <= i < t => ColumnAt(run, i)[j]))
  }

  /**
   * The iteration a run of successful iterations from t on ends at: the
   * first failing one, or n.
   */
  function CountOk(run: Run, t: nat, n: nat): (r: nat)
    requires run.Valid() && t <= n
    ensures t <= r <= n
    ensures forall u :: t <= u < r ==> Succeeds(run, u)
    ensures r < n ==> !Succeeds(run, r)
    decreases n - t
  {
    if t == n || !Succeeds(run, t) then t else CountOk(run, t + 1, n)
  }

  /** The starting state of a run: the F values of the current model, and their probabilities. */
  function Start(pr: Problem, prob: Softmax, table: seq<seq<Regression>>, m: nat): (s: Boost)
    requires HasColumns(table, m) && |table| == pr.numClasses
    ensures IsGrid(s.fs, |pr.rows|, pr.numClasses) && IsGrid(s.ps, |pr.rows|, pr.numClasses)
  {
    var fs := seq(|pr.rows|, i requires 0 <= i < |pr.rows| => FsOf(table, m, pr.rows[i]));
    Boost(fs, ProbsOf(prob, fs, pr.numClasses))
  }

  /** Every state of a run keeps the F row sums of its start. */
  lemma {:induction false} StateKeepsRowSums(run: Run, t: nat, i: nat)
    requires run.Valid() && i < |run.problem.rows|
    ensures Sum(StateAt(run, t).fs[i]) == Sum(run.start.fs[i])
  {
    if t > 0 {
      StateKeepsRowSums(run, t - 1, i);
      var pr := run.problem;
      var s := StateAt(run, t - 1);
      AddIncrementKeepsSum(s.fs[i], Column(pr, run.fit, s.ps), pr.rows[i]);
    }
  }

  /** Started from a model, every state's F values sum to zero for every instance. */
  lemma StatesCentered(pr: Problem, fit: Fitter, prob: Softmax, table: seq<seq<Regression>>, m: nat, t: nat, i: nat)
    requires pr.Shaped() && HasColumns(table, m) && |table| == pr.numClasses && i < |pr.rows|
    ensures Run(pr, fit, prob, Start(pr, prob, table, m)).Valid()
    ensures Sum(StateAt(Run(pr, fit, prob, Start(pr, prob, table, m)), t).fs[i]) == 0.0
  {
    var run := Run(pr, fit, prob, Start(pr, prob, table, m));
    StateKeepsRowSums(run, t, i);
    FsSumToZero(table, m, pr.rows[i]);
  }

  // ---------------------------------------------------------------------
  // Early stopping

  /** The running minimum of err(1..u), starting from Float.MAX_VALUE (lastMin). */
  function MinSoFar(err: nat -> real, u: nat): real
  {
    if u == 0 then FloatMax
    else if err(u) < MinSoFar(err, u - 1) then err(u)
    else MinSoFar(err, u - 1)
  }

  /** Iteration u brings the error strictly below every earlier one. */
  predicate Improves(err: nat -> real, u: nat)
    requires u >= 1
  {
    err(u) < MinSoFar(err, u - 1)
  }

  /** The number of iterations since the last improvement (noMin). */
  function NoMinAt(err: nat -> real, u: nat): nat
  {
    if u == 0 then 0 else if Improves(err, u) then 0 else NoMinAt(err, u - 1) + 1
  }

  /**
   * The iteration count a boosting loop with early stopping ends at,
   * continuing from t: it stops at `limit`, at the first iteration that
   * fails, or right after an iteration begun with noMin > patience.
   */
  function StopAt(err: nat -> real, ok: nat -> bool, limit: nat, patience: int, t: nat): (r: nat)
    requires t <= limit
    ensures t <= r <= limit
    ensures forall u :: t <= u < r ==> ok(u)
    ensures r == limit || !ok(r) || (r > t && NoMinAt(err, r - 1) > patience)
    ensures forall u :: t <= u < r - 1 ==> NoMinAt(err, u) <= patience
    decreases limit - t
  {
    if t == limit || !ok(t) then t
    else if NoMinAt(err, t) > patience then t + 1
    else StopAt(err, ok, limit, patience, t + 1)
  }

  /**
   * noMin counts the iterations since the last strict improvement: once it
   * exceeds the patience P, none of the last P+1 iterations improved.
   */
  lemma {:induction false} NoImprovementWindow(err: nat -> real, u: nat, patience: nat)
    requires NoMinAt(err, u) > patience
    ensures u > patience
    ensures forall v :: u - patience <= v <= u ==> !Improves(err, v)
  {
    if patience > 0 {
      NoImprovementWindow(err, u - 1, patience - 1);
    }
  }

  /** The error after each iteration of the fold loop: what was accumulated, plus this fold's error. */
  function Accumulated(acc: seq<real>, err: nat -> real): nat -> real
  {
    (t: nat) => (if t < |acc| then acc[t] else 0.0) + err(t)
  }

  // ---------------------------------------------------------------------
  // Best iteration

  /** b is the first index of a minimum of errors[0..m]. */
  function IsFirstMin(errors: seq<real>, m: nat, b: nat): (first: bool)
    requires m < |errors|
    ensures first ==> b <= m && forall i :: 0 <= i <= m && errors[i] == errors[b] ==> b <= i
  {
    && b <= m
    && (forall i :: 0 <= i <= m ==> errors[b] <= errors[i])
    && (forall i :: 0 <= i < b ==> errors[b] < errors[i])
  }

  /** At most one index is the first minimum. */
  lemma FirstMinUnique(errors: seq<real>, m: nat, b1: nat, b2: nat)
    requires m < |errors| && IsFirstMin(errors, m, b1) && IsFirstMin(errors, m, b2)
    ensures b1 == b2
  {
    assert errors[b1] == errors[b2];
  }

  // ---------------------------------------------------------------------
  // Coefficients

  /** What a regression adds to coefficient slot s: its intercept to slot 0, its slope to slot attribute+1. */
  function Contribution(r: Regression, s: nat): real
  {
    (if s == 0 then r.intercept else 0.0) + (if r.attribute + 1 == s then r.slope else 0.0)
  }

  /** Coefficient slot s after the first m regressions of a class. */
  function Coefficient(regs: seq<Regression>, m: nat, s: nat): real
    requires m <= |regs|
  {
    if m == 0 then 0.0 else Coefficient(regs, m - 1, s) + Contribution(regs[m - 1], s)
  }

  /** The coefficient vector of a class: slots 0..width-1. */
  function Coefficients(regs: seq<Regression>, m: nat, width: nat): (c: seq<real>)
    requires m <= |regs|
    ensures |c| == width
  {
    seq(width, s requires 0 <= s < width => Coefficient(regs, m, s))
  }

  function Dot(c: seq<real>, x: seq<real>): real
    requires |c| == |x|
  {
    if |c| == 0 then 0.0 else Dot(c[..|c| - 1], x[..|x| - 1]) + c[|c| - 1] * x[|x| - 1]
  }

  /** The linear model of a coefficient vector: c[0] + c[1..] . x. */
  function Linear(c: seq<real>, x: seq<real>): real
    requires |c| == |x| + 1
  {
    c[0] + Dot(c[1..], x)
  }

  /** The summed predictions of the first m regressions of a class. */
  function SumClassify(regs: seq<Regression>, m: nat, x: seq<real>): real
    requires m <= |regs|
  {
    if m == 0 then 0.0 else SumClassify(regs, m - 1, x) + Classify(regs[m - 1], x)
  }

  lemma {:induction false} DotAdd(a: seq<real>, b: seq<real>, c: seq<real>, x: seq<real>)
    requires |a| == |b| == |c| == |x|
    requires forall i :: 0 <= i < |c| ==> c[i] == a[i] + b[i]
    ensures Dot(c, x) == Dot(a, x) + Dot(b, x)
  {
    if |c| > 0 {
      var n := |c| - 1;
      DotAdd(a[..n], b[..n], c[..n], x[..n]);
    }
  }

  /** A vector that is `v` at index k and zero elsewhere picks out v * x[k]. */
  lemma {:induction false} DotUnit(c: seq<real>, x: seq<real>, k: nat, v: real)
    requires |c| == |x|
    requires forall i :: 0 <= i < |c| ==> c[i] == if i == k then v else 0.0
    ensures Dot(c, x) == if k < |x| then v * x[k] else 0.0
  {
    if |c| > 0 {
      var n := |c| - 1;
      DotUnit(c[..n], x[..n], k, v);
    }
  }

  /**
   * The coefficients of getCoefficients describe the regressions' summed
   * predictions exactly: intercept plus the dot product with the instance.
   */
  lemma {:induction false} CoefficientsLinear(regs: seq<Regression>, m: nat, x: seq<real>)
    requires m <= |regs|
    requires forall i :: 0 <= i < m ==> 0 <= regs[i].attribute < |x|
    ensures Linear(Coefficients(regs, m, |x| + 1), x) == SumClassify(regs, m, x)
  {
    var c := Coefficients(regs, m, |x| + 1);
    if m == 0 {
      DotUnit(c[1..], x, 0, 0.0);
    } else {
      CoefficientsLinear(regs, m - 1, x);
      LinearStep(Coefficients(regs, m - 1, |x| + 1), c, regs[m - 1], x);
    }
  }

  /** Adding one regression's contributions to a coefficient vector adds its prediction to the linear model. */
  lemma LinearStep(p: seq<real>, c: seq<real>, r: Regression, x: seq<real>)
    requires |p| == |c| == |x| + 1 && 0 <= r.attribute < |x|
    requires forall s :: 0 <= s < |c| ==> c[s] == p[s] + Contribution(r, s)
    ensures Linear(c, x) == Linear(p, x) + Classify(r, x)
  {
    var d := seq(|x| + 1, s requires 0 <= s <= |x| => Contribution(r, s));
    assert Dot(c[1..], x) == Dot(p[1..], x) + Dot(d[1..], x) by {
      assert forall i :: 0 <= i < |x| ==> c[1..][i] == p[1..][i] + d[1..][i];
      DotAdd(p[1..], d[1..], c[1..], x);
    }
    assert Dot(d[1..], x) == r.slope * x[r.attribute] by {
      assert forall i :: 0 <= i < |x| ==> d[1..][i] == if i == r.attribute then r.slope else 0.0;
      DotUnit(d[1..], x, r.attribute, r.slope);
    }
  }

  function InterceptSum(regs: seq<Regression>, m: nat): real
    requires m <= |regs|
  {
    if m == 0 then 0.0 else InterceptSum(regs, m - 1) + regs[m - 1].intercept
  }

  /** The sum of the slopes of the regressions, among the first m, on attribute a. */
  function SlopeSum(regs: seq<Regression>, m: nat, a: nat): real
    requires m <= |regs|
  {
    if m == 0 then 0.0 else SlopeSum(regs, m - 1, a) + (if regs[m - 1].attribute == a then regs[m - 1].slope else 0.0)
  }

  /**
   * When every regression found an attribute, slot 0 is the sum of the
   * intercepts and slot a+1 the sum of the slopes on attribute a.
   */
  lemma {:induction false} CoefficientSlots(regs: seq<Regression>, m: nat, a: nat)
    requires m <= |regs|
    requires forall i :: 0 <= i < m ==> regs[i].Found()
    ensures Coefficient(regs, m, 0) == InterceptSum(regs, m)
    ensures Coefficient(regs, m, a + 1) == SlopeSum(regs, m, a)
  {
    if m > 0 {
      CoefficientSlots(regs, m - 1, a);
    }
  }

  /** Utils.eq: equal up to Utils.SMALL, a symmetric relation that holds of equal values. */
  function Eq(a: real, b: real): (close: bool)
    ensures close <==> (if a < b then b - a else a - b) < Small
    ensures a == b ==> close
  {
    a - b < Small && b - a < Small
  }
}
