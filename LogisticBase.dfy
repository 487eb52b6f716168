/**
 * LogisticBase: builds a linear logistic model with LogitBoost, one simple
 * linear regression per class and iteration.  The number of iterations is
 * fixed, chosen by cross-validation over five folds, or chosen as the
 * first minimum of the training error, with early stopping in the last two.
 *
 * The regression fitter, the softmax and the two error measures are
 * oracles given at construction; data sets arrive in numeric form, with
 * the folds of the cross-validation already drawn.
 */
module Lmt {
  import opened LogitBoost

  /**
   * A data set: numeric instance rows (the class attribute replaced by the
   * pseudo-class), instance weights and class values.
   */
  datatype Data = Data(rows: seq<seq<real>>, weights: seq<real>, classes: seq<int>)
  {
    predicate Valid()
    {
      |weights| == |rows| && |classes| == |rows|
    }
  }

  /** One cross-validation fold. */
  datatype Fold = Fold(train: Data, test: Data)

  /** An error measure of the model made of a K x m regression table on a data set. */
  type Evaluator = (Data, seq<seq<Regression>>) -> real

  /** The accumulated errors of the cross-validation and the iterations every fold completed. */
  datatype CV = CV(error: seq<real>, completed: nat)

  /** getYs: the 0/1 indicator of each instance's class. */
  function YsOf(data: Data, k: nat): (ys: seq<seq<real>>)
    ensures IsGrid(ys, |data.rows|, k)
  {
    seq(|data.rows|, i requires 0 <= i < |data.rows| =>
      seq(k, j requires 0 <= j < k => if i < |data.classes| && data.classes[i] == j then 1.0 else 0.0))
  }

  function ProblemOf(data: Data, k: nat): Problem
  {
    Problem(data.rows, data.weights, YsOf(data, k), k)
  }

  /** The run LogitBoost goes through on `data`, starting from the model `table` truncated to m iterations. */
  function RunFrom(data: Data, k: nat, fit: Fitter, prob: Softmax, table: seq<seq<Regression>>, m: nat): (run: Run)
    requires HasColumns(table, m) && |table| == k
    ensures data.Valid() ==> run.Valid()
  {
    Run(ProblemOf(data, k), fit, prob, Start(ProblemOf(data, k), prob, table, m))
  }

  /** A K x 0 table: the model before any iteration. */
  function EmptyTable(k: nat): (t: seq<seq<Regression>>)
    ensures |t| == k && forall j :: 0 <= j < k ==> t[j] == []
  {
    seq(k, j => [])
  }

  /** The F values of every row under the first m iterations of `table`. */
  function FsRows(table: seq<seq<Regression>>, m: nat, rows: seq<seq<real>>): (fs: seq<seq<real>>)
    requires HasColumns(table, m)
    ensures IsGrid(fs, |rows|, |table|)
  {
    seq(|rows|, i requires 0 <= i < |rows| => FsOf(table, m, rows[i]))
  }

  lemma StartIsFsRows(pr: Problem, prob: Softmax, table: seq<seq<Regression>>, m: nat)
    requires HasColumns(table, m) && |table| == pr.numClasses
    ensures Start(pr, prob, table, m).fs == FsRows(table, m, pr.rows)
    ensures Start(pr, prob, table, m).ps == ProbsOf(prob, FsRows(table, m, pr.rows), pr.numClasses)
  {
    var s := Start(pr, prob, table, m).fs;
    var f := FsRows(table, m, pr.rows);
    assert forall i :: 0 <= i < |s| ==> s[i] == f[i];
  }

  /** The run from the empty model. */
  function FreshRun(data: Data, k: nat, fit: Fitter, prob: Softmax): Run
    requires k >= 1
  {
    RunFrom(data, k, fit, prob, EmptyTable(k), 0)
  }

  /** The iterations that succeed, as a predicate on the iteration number. */
  function SucceedsAt(run: Run): nat -> bool
  {
    (u: nat) => run.Valid() && Succeeds(run, u)
  }

  /**
   * The error of the model after t iterations on `test`: at 0 the model the
   * run started from, later the regressions the run has fitted.
   */
  function ErrorAt(eval: Evaluator, test: Data, run: Run, initial: seq<seq<Regression>>): nat -> real
  {
    (t: nat) => if t == 0 || !run.Valid() then eval(test, initial) else eval(test, TableAt(run, t))
  }

  /** err(0..n) as a sequence. */
  function ErrorsUpTo(err: nat -> real, n: nat): (s: seq<real>)
    ensures |s| == n + 1 && forall t :: 0 <= t <= n ==> s[t] == err(t)
  {
    seq(n + 1, t requires 0 <= t <= n => err(t))
  }

  /** A sequence that agrees with err up to n starts with ErrorsUpTo(err, n). */
  lemma ErrorsPrefix(s: seq<real>, err: nat -> real, n: nat)
    requires n < |s| && forall t :: 0 <= t <= n ==> s[t] == err(t)
    ensures s[..n + 1] == ErrorsUpTo(err, n)
  {
    var e := ErrorsUpTo(err, n);
    assert forall t :: 0 <= t <= n ==> s[..n + 1][t] == e[t];
  }

  function Grid(a: array2<real>): (g: seq<seq<real>>)
    reads a
    ensures IsGrid(g, a.Length0, a.Length1)
  {
    seq(a.Length0, i requires 0 <= i < a.Length0 reads a =>
      seq(a.Length1, j requires 0 <= j < a.Length1 reads a => a[i, j]))
  }

  lemma GridOf(a: array2<real>, g: seq<seq<real>>)
    requires IsGrid(g, a.Length0, a.Length1)
    requires forall i, j :: 0 <= i < a.Length0 && 0 <= j < a.Length1 ==> a[i, j] == g[i][j]
    ensures Grid(a) == g
  {
    var h := Grid(a);
    forall i | 0 <= i < a.Length0
      ensures h[i] == g[i]
    {
    }
  }

  /** The matrix a holds the grid g. */
  ghost predicate Holds(a: array2<real>, g: seq<seq<real>>)
    reads a
  {
    IsGrid(g, a.Length0, a.Length1) && forall i, j :: 0 <= i < a.Length0 && 0 <= j < a.Length1 ==> a[i, j] == g[i][j]
  }

  /** Row i of a matrix. */
  function RowOf(a: array2<real>, i: nat): (r: seq<real>)
    reads a
    requires i < a.Length0
    ensures r == Grid(a)[i]
  {
    seq(a.Length1, j requires 0 <= j < a.Length1 reads a => a[i, j])
  }

  /** The first m columns of a regression table. */
  function Prefix(a: array2<Regression>, m: nat): (t: seq<seq<Regression>>)
    reads a
    requires m <= a.Length1
    ensures |t| == a.Length0 && forall j :: 0 <= j < |t| ==> |t[j]| == m
  {
    seq(a.Length0, j requires 0 <= j < a.Length0 reads a =>
      seq(m, i requires 0 <= i < m reads a => a[j, i]))
  }

  /** The first t columns of the table hold what the run fitted. */
  lemma PrefixIsTable(a: array2<Regression>, run: Run, t: nat)
    requires run.Valid() && a.Length0 == run.problem.numClasses && t <= a.Length1
    requires forall u, j :: 0 <= u < t && 0 <= j < a.Length0 ==> a[j, u] == ColumnAt(run, u)[j]
    ensures Prefix(a, t) == TableAt(run, t)
  {
    var p := Prefix(a, t);
    var q := TableAt(run, t);
    forall j | 0 <= j < a.Length0
      ensures p[j] == q[j]
    {
    }
  }

  /** Starting from no iterations, the table itself does not matter. */
  lemma StartFromNothing(data: Data, k: nat, fit: Fitter, prob: Softmax, table: seq<seq<Regression>>)
    requires k >= 1 && |table| == k
    ensures HasColumns(table, 0)
    ensures RunFrom(data, k, fit, prob, table, 0) == FreshRun(data, k, fit, prob)
  {
    var pr := ProblemOf(data, k);
    var fs := seq(|pr.rows|, i requires 0 <= i < |pr.rows| => FsOf(table, 0, pr.rows[i]));
    var gs := seq(|pr.rows|, i requires 0 <= i < |pr.rows| => FsOf(EmptyTable(k), 0, pr.rows[i]));
    assert fs == gs;
  }

  lemma {:induction false} CountOkIs(run: Run, t: nat, n: nat, it: nat)
    requires run.Valid() && t <= it <= n
    requires forall u :: t <= u < it ==> Succeeds(run, u)
    requires it == n || !Succeeds(run, it)
    ensures CountOk(run, t, n) == it
    decreases it - t
  {
    if t < it {
      CountOkIs(run, t + 1, n, it);
    }
  }

  /**
   * The early-stopping test after an iteration with error `value`: stop
   * when noMin already exceeds the patience, and otherwise the new running
   * minimum and noMin.
   */
  function EarlyStop(patience: int, value: real, lastMin: real, noMin: nat): (r: (bool, real, nat))
    ensures r.0 <==> noMin > patience
    ensures r.1 <= value && r.1 <= lastMin && (r.1 == value || r.1 == lastMin)
    ensures r.2 == 0 <==> value < lastMin
    ensures value >= lastMin ==> r.2 == noMin + 1
  {
    (noMin > patience, if value < lastMin then value else lastMin, if value < lastMin then 0 else noMin + 1)
  }

  /** The test after iteration t+1 stops exactly where StopAt says, and otherwise keeps the counters of err. */
  lemma EarlyStopTracks(err: nat -> real, ok: nat -> bool, limit: nat, patience: int, t: nat,
                        value: real, lastMin: real, noMin: nat)
    requires t < limit && ok(t) && value == err(t + 1)
    requires noMin == NoMinAt(err, t) && lastMin == MinSoFar(err, t)
    requires StopAt(err, ok, limit, patience, 0) == StopAt(err, ok, limit, patience, t)
    ensures var r := EarlyStop(patience, value, lastMin, noMin);
      && (r.0 ==> StopAt(err, ok, limit, patience, 0) == t + 1)
      && (!r.0 ==> r.2 == NoMinAt(err, t + 1) && r.1 == MinSoFar(err, t + 1))
      && (!r.0 ==> StopAt(err, ok, limit, patience, 0) == StopAt(err, ok, limit, patience, t + 1))
  {
  }

  /** The predictions of one column of regressions on x, and their mean. */
  method Predictions(col: seq<Regression>, x: seq<real>) returns (pred: seq<real>, predMean: real)
    requires |col| >= 1
    ensures pred == Preds(col, x)
    ensures predMean == Sum(pred) / (|col| as real)
  {
    pred := [];
    var predSum := 0.0;
    var j := 0;
    while j < |col|
      invariant 0 <= j <= |col|
      invariant pred == Preds(col, x)[..j]
      invariant predSum == Sum(pred)
    {
      var v := Classify(col[j], x);
      assert (pred + [v])[..|pred|] == pred;
      pred := pred + [v];
      predSum := predSum + v;
      j := j + 1;
    }
    predMean := predSum / (|col| as real);
  }

  /** Adds the centered predictions to row i of F, as getFs and performIteration do for one instance. */
  method AddCenteredRow(fs: array2<real>, i: nat, pred: seq<real>, predMean: real)
    requires i < fs.Length0 && |pred| == fs.Length1 >= 1 && predMean == Sum(pred) / (|pred| as real)
    modifies fs
    ensures forall c :: 0 <= c < fs.Length1 ==> fs[i, c] == old(fs[i, c]) + Centered(pred)[c]
    ensures forall r, c :: 0 <= r < fs.Length0 && r != i && 0 <= c < fs.Length1 ==> fs[r, c] == old(fs[r, c])
  {
    ghost var inc := Centered(pred);
    var k := |pred| as real;
    var j := 0;
    while j < |pred|
      invariant 0 <= j <= |pred|
      invariant forall c :: 0 <= c < j ==> fs[i, c] == old(fs[i, c]) + inc[c]
      invariant forall r, c :: 0 <= r < fs.Length0 && 0 <= c < fs.Length1 && (r != i || j <= c) ==> fs[r, c] == old(fs[r, c])
    {
      fs[i, j] := fs[i, j] + Center(pred[j], predMean, k);
      j := j + 1;
    }
  }

  /** The centering step for row i of F: adds the centered predictions of `col` on x. */
  method AddIncrementRow(fs: array2<real>, i: nat, col: seq<Regression>, x: seq<real>)
    requires |col| >= 1 && i < fs.Length0 && fs.Length1 == |col|
    modifies fs
    ensures forall c :: 0 <= c < fs.Length1 ==> fs[i, c] == old(fs[i, c]) + Increment(col, x)[c]
    ensures forall r, c :: 0 <= r < fs.Length0 && r != i && 0 <= c < fs.Length1 ==> fs[r, c] == old(fs[r, c])
  {
    var pred, predMean := Predictions(col, x);
    AddCenteredRow(fs, i, pred, predMean);
  }

  /** Adds the centered predictions to the F values of one instance, as getFs does. */
  method AddCenteredTo(fs: array<real>, pred: seq<real>, predMean: real)
    requires |pred| == fs.Length >= 1 && predMean == Sum(pred) / (|pred| as real)
    modifies fs
    ensures fs[..] == AddVec(old(fs[..]), Centered(pred))
  {
    ghost var fs0 := fs[..];
    ghost var inc := Centered(pred);
    var k := |pred| as real;
    var j := 0;
    while j < |pred|
      invariant 0 <= j <= |pred|
      invariant forall c :: 0 <= c < j ==> fs[c] == fs0[c] + inc[c]
      invariant forall c :: j <= c < fs.Length ==> fs[c] == fs0[c]
    {
      fs[j] := fs[j] + Center(pred[j], predMean, k);
      j := j + 1;
    }
    assert forall c :: 0 <= c < fs.Length ==> fs[..][c] == AddVec(fs0, inc)[c];
  }

  /** One pass of getFs's loop: the F values of i iterations become those of i + 1. */
  method AddIteration(instanceFs: array<real>, ghost table: seq<seq<Regression>>, i: nat,
                      col: seq<Regression>, x: seq<real>)
    requires HasColumns(table, i + 1) && col == ColumnOf(table, i)
    requires instanceFs.Length == |table| && instanceFs[..] == FsOf(table, i, x)
    modifies instanceFs
    ensures instanceFs[..] == FsOf(table, i + 1, x)
  {
    var pred, predMean := Predictions(col, x);
    AddCenteredTo(instanceFs, pred, predMean);
  }

  /** Reads column i of a regression table. */
  method ReadColumn(a: array2<Regression>, i: nat) returns (col: seq<Regression>)
    requires i < a.Length1
    ensures |col| == a.Length0 && forall j :: 0 <= j < a.Length0 ==> col[j] == a[j, i]
  {
    col := [];
    var j := 0;
    while j < a.Length0
      invariant 0 <= j <= a.Length0
      invariant |col| == j && forall r :: 0 <= r < j ==> col[r] == a[r, i]
    {
      col := col + [a[j, i]];
      j := j + 1;
    }
  }

  /** The loop of getFs: adds up the centered increments of the m columns of `table`, held in `a`, on x. */
  method SumIncrements(a: array2<Regression>, ghost table: seq<seq<Regression>>, m: nat, x: seq<real>)
    returns (fs: seq<real>)
    requires HasColumns(table, m) && |table| == a.Length0 && m <= a.Length1
    requires forall j, i :: 0 <= j < a.Length0 && 0 <= i < m ==> a[j, i] == table[j][i]
    ensures fs == FsOf(table, m, x)
  {
    var instanceFs := new real[a.Length0](c => 0.0);
    assert instanceFs[..] == FsOf(table, 0, x);
    var i := 0;
    while i < m
      invariant 0 <= i <= m
      invariant instanceFs[..] == FsOf(table, i, x)
    {
      var col := ReadColumn(a, i);
      assert col == ColumnOf(table, i);
      AddIteration(instanceFs, table, i, col, x);
      i := i + 1;
    }
    fs := instanceFs[..];
  }

  /** Copies the values fs into row k of a matrix. */
  method CopyRow(a: array2<real>, k: nat, fs: seq<real>)
    requires k < a.Length0 && |fs| == a.Length1
    modifies a
    ensures forall c :: 0 <= c < a.Length1 ==> a[k, c] == fs[c]
    ensures forall r, c :: 0 <= r < a.Length0 && r != k && 0 <= c < a.Length1 ==> a[r, c] == old(a[r, c])
  {
    var j := 0;
    while j < |fs|
      invariant 0 <= j <= |fs|
      invariant forall c :: 0 <= c < j ==> a[k, c] == fs[c]
      invariant forall r, c :: 0 <= r < a.Length0 && r != k && 0 <= c < a.Length1 ==> a[r, c] == old(a[r, c])
    {
      a[k, j] := fs[j];
      j := j + 1;
    }
  }

  /** Writes col into the first |col| entries of column i. */
  method WriteColumn(a: array2<Regression>, i: nat, col: seq<Regression>)
    requires i < a.Length1 && |col| <= a.Length0
    modifies a
    ensures forall c :: 0 <= c < |col| ==> a[c, i] == col[c]
    ensures forall r, t :: 0 <= r < a.Length0 && 0 <= t < a.Length1 && (t != i || |col| <= r) ==> a[r, t] == old(a[r, t])
  {
    var j := 0;
    while j < |col|
      invariant 0 <= j <= |col|
      invariant forall c :: 0 <= c < j ==> a[c, i] == col[c]
      invariant forall r, t :: 0 <= r < a.Length0 && 0 <= t < a.Length1 && (t != i || j <= r) ==> a[r, t] == old(a[r, t])
    {
      a[j, i] := col[j];
      j := j + 1;
    }
  }

  /** The centering loop of performIteration: adds the centered increments to every row of F. */
  method AddIncrements(trainFs: array2<real>, col: seq<Regression>, rows: seq<seq<real>>)
    requires |col| >= 1 && trainFs.Length0 == |rows| && trainFs.Length1 == |col|
    modifies trainFs
    ensures Grid(trainFs) == AddedRows(old(Grid(trainFs)), col, rows)
  {
    ghost var fs0 := Grid(trainFs);
    ghost var target := AddedRows(fs0, col, rows);
    var i := 0;
    while i < trainFs.Length0
      invariant 0 <= i <= trainFs.Length0
      invariant forall r, c :: 0 <= r < i && 0 <= c < |col| ==> trainFs[r, c] == target[r][c]
      invariant forall r, c :: i <= r < trainFs.Length0 && 0 <= c < |col| ==> trainFs[r, c] == fs0[r][c]
    {
      AddIncrementRow(trainFs, i, col, rows[i]);
      assert forall c :: 0 <= c < |col| ==> target[i][c] == fs0[i][c] + Increment(col, rows[i])[c];
      i := i + 1;
    }
    GridOf(trainFs, target);
  }

  /** The probability loop of performIteration: recomputes every row of probabilities from F. */
  method UpdateProbs(prob: Softmax, probs: array2<real>, trainFs: array2<real>)
    requires probs != trainFs
    requires probs.Length0 == trainFs.Length0 && probs.Length1 == trainFs.Length1
    modifies probs
    ensures Grid(probs) == ProbsOf(prob, Grid(trainFs), trainFs.Length1)
  {
    var i := 0;
    while i < probs.Length0
      invariant 0 <= i <= probs.Length0
      invariant forall r, c :: 0 <= r < i && 0 <= c < probs.Length1 ==> probs[r, c] == prob(RowOf(trainFs, r), c)
    {
      var row := RowOf(trainFs, i);
      var j := 0;
      while j < probs.Length1
        invariant 0 <= j <= probs.Length1
        invariant forall r, c :: 0 <= r < i && 0 <= c < probs.Length1 ==> probs[r, c] == prob(RowOf(trainFs, r), c)
        invariant forall c :: 0 <= c < j ==> probs[i, c] == prob(row, c)
      {
        probs[i, j] := prob(row, j);
        j := j + 1;
      }
      i := i + 1;
    }
    GridOf(probs, ProbsOf(prob, Grid(trainFs), trainFs.Length1));
  }

  /** The working responses and weights of class j (the inner loop of performIteration). */
  method Responses(trainYs: array2<real>, probs: array2<real>, weights: seq<real>, j: nat,
                   ghost ys: seq<seq<real>>, ghost ps: seq<seq<real>>)
    returns (zs: seq<real>, ws: seq<real>)
    requires trainYs.Length0 == probs.Length0 == |weights|
    requires j < trainYs.Length1 && j < probs.Length1
    requires Holds(trainYs, ys) && Holds(probs, ps)
    ensures zs == ZColumn(ys, ps, j)
    ensures ws == WColumn(weights, ys, ps, j)
  {
    ghost var zc := ZColumn(ys, ps, j);
    ghost var wc := WColumn(weights, ys, ps, j);
    zs := [];
    ws := [];
    var i := 0;
    while i < trainYs.Length0
      invariant 0 <= i <= trainYs.Length0
      invariant zs == zc[..i] && ws == wc[..i]
    {
      var p := probs[i, j];
      var actual := trainYs[i, j];
      var z := GetZ(actual, p);
      var w := (actual - p) / z;
      assert zc[i] == z && wc[i] == weights[i] * w;
      assert zc[..i + 1] == zc[..i] + [z] && wc[..i + 1] == wc[..i] + [weights[i] * w];
      zs := zs + [z];
      ws := ws + [weights[i] * w];
      i := i + 1;
    }
  }

  class LogisticBase {
    /** Fits a simple linear regression to responses and weights (SimpleLinearRegression.buildClassifier). */
    const fit: Fitter
    /** The class probabilities given F (probs). */
    const prob: Softmax
    /** getErrorRate and getMeanAbsoluteError of the current model. */
    const errorRate: Evaluator
    const meanAbsoluteError: Evaluator
    const fixedNumIterations: int
    const useCrossValidation: bool
    const errorOnProbabilities: bool
    const maxIterations: nat
    const heuristicStop: int

    var numClasses: nat
    /** The number of attributes of the numeric data header. */
    var numAttributes: nat
    /** regressions[j, i]: the regression of class j fitted in iteration i. */
    var regressions: array2<Regression>
    /** The number of iterations the model uses. */
    var numRegressions: nat

    ghost predicate Valid()
      reads this
    {
      regressions.Length0 == numClasses && numRegressions <= regressions.Length1
    }

    /** The model the classifier currently represents: the first numRegressions columns. */
    function Kept(): (table: seq<seq<Regression>>)
      reads this, regressions
      requires Valid()
      ensures |table| == numClasses && HasColumns(table, numRegressions) == (numClasses >= 1)
    {
      Prefix(regressions, numRegressions)
    }

    /** The run that boosting on `data` goes through from the current model. */
    ghost function CurrentRun(data: Data): Run
      reads this, regressions
      requires Valid() && numClasses >= 1
    {
      RunFrom(data, numClasses, fit, prob, Kept(), numRegressions)
    }

    /** The error measure the cross-validation monitors. */
    function Monitored(): Evaluator
    {
      if errorOnProbabilities then meanAbsoluteError else errorRate
    }

    constructor(numBoostingIterations: int, useCrossValidation: bool, errorOnProbabilities: bool,
                maxIterations: nat, heuristicStop: int,
                fit: Fitter, prob: Softmax, errorRate: Evaluator, meanAbsoluteError: Evaluator)
      ensures Valid() && numRegressions == 0
      ensures this.fixedNumIterations == numBoostingIterations && this.useCrossValidation == useCrossValidation
      ensures this.errorOnProbabilities == errorOnProbabilities
      ensures this.maxIterations == maxIterations && this.heuristicStop == heuristicStop
      ensures this.fit == fit && this.prob == prob
      ensures this.errorRate == errorRate && this.meanAbsoluteError == meanAbsoluteError
    {
      this.fixedNumIterations := numBoostingIterations;
      this.useCrossValidation := useCrossValidation;
      this.errorOnProbabilities := errorOnProbabilities;
      this.maxIterations := maxIterations;
      this.heuristicStop := heuristicStop;
      this.fit := fit;
      this.prob := prob;
      this.errorRate := errorRate;
      this.meanAbsoluteError := meanAbsoluteError;
      numClasses := 0;
      numAttributes := 0;
      regressions := new Regression[0, 0];
      numRegressions := 0;
    }

    /** initRegressions: a numClasses x maxIterations table of unfitted regressions. */
    method InitRegressions() returns (classifiers: array2<Regression>)
      ensures fresh(classifiers)
      ensures classifiers.Length0 == numClasses && classifiers.Length1 == maxIterations
      ensures forall j, i :: 0 <= j < numClasses && 0 <= i < maxIterations ==> classifiers[j, i] == Blank
    {
      classifiers := new Regression[numClasses, maxIterations]((j, i) => Blank);
    }

    /** getYs: the class indicators as a matrix. */
    method GetYs(data: Data) returns (dataYs: array2<real>)
      ensures fresh(dataYs)
      ensures dataYs.Length0 == |data.rows| && dataYs.Length1 == numClasses
      ensures Grid(dataYs) == YsOf(data, numClasses)
    {
      dataYs := new real[|data.rows|, numClasses];
      var j := 0;
      while j < numClasses
        invariant 0 <= j <= numClasses
        invariant forall r, c :: 0 <= r < |data.rows| && 0 <= c < j ==> dataYs[r, c] == YsOf(data, numClasses)[r][c]
      {
        var k := 0;
        while k < |data.rows|
          invariant 0 <= k <= |data.rows|
          invariant forall r, c :: 0 <= r < |data.rows| && 0 <= c < j ==> dataYs[r, c] == YsOf(data, numClasses)[r][c]
          invariant forall r :: 0 <= r < k ==> dataYs[r, j] == YsOf(data, numClasses)[r][j]
        {
          dataYs[k, j] := if k < |data.classes| && data.classes[k] == j then 1.0 else 0.0;
          k := k + 1;
        }
        j := j + 1;
      }
      GridOf(dataYs, YsOf(data, numClasses));
    }

    /** getZs: the working response of every instance and class. */
    method GetZs(probs: array2<real>, dataYs: array2<real>) returns (dataZs: array2<real>)
      requires dataYs.Length0 >= probs.Length0
      requires probs.Length1 >= numClasses && dataYs.Length1 >= numClasses
      ensures fresh(dataZs)
      ensures dataZs.Length0 == probs.Length0 && dataZs.Length1 == numClasses
      ensures forall i, j :: 0 <= i < probs.Length0 && 0 <= j < numClasses ==>
                dataZs[i, j] == GetZ(dataYs[i, j], probs[i, j])
    {
      dataZs := new real[probs.Length0, numClasses];
      var j := 0;
      while j < numClasses
        invariant 0 <= j <= numClasses
        invariant forall r, c :: 0 <= r < probs.Length0 && 0 <= c < j ==> dataZs[r, c] == GetZ(dataYs[r, c], probs[r, c])
      {
        var i := 0;
        while i < probs.Length0
          invariant 0 <= i <= probs.Length0
          invariant forall r, c :: 0 <= r < probs.Length0 && 0 <= c < j ==> dataZs[r, c] == GetZ(dataYs[r, c], probs[r, c])
          invariant forall r :: 0 <= r < i ==> dataZs[r, j] == GetZ(dataYs[r, j], probs[r, j])
        {
          dataZs[i, j] := GetZ(dataYs[i, j], probs[i, j]);
          i := i + 1;
        }
        j := j + 1;
      }
    }

    /** getWs: the working weight (y - p) / z of every instance and class. */
    method GetWs(probs: array2<real>, dataYs: array2<real>) returns (dataWs: array2<real>)
      requires dataYs.Length0 >= probs.Length0
      requires probs.Length1 >= numClasses && dataYs.Length1 >= numClasses
      ensures fresh(dataWs)
      ensures dataWs.Length0 == probs.Length0 && dataWs.Length1 == numClasses
      ensures forall i, j :: 0 <= i < probs.Length0 && 0 <= j < numClasses ==>
                dataWs[i, j] == WorkingWeight(dataYs[i, j], probs[i, j])
    {
      dataWs := new real[probs.Length0, numClasses];
      var j := 0;
      while j < numClasses
        invariant 0 <= j <= numClasses
        invariant forall r, c :: 0 <= r < probs.Length0 && 0 <= c < j ==> dataWs[r, c] == WorkingWeight(dataYs[r, c], probs[r, c])
      {
        var i := 0;
        while i < probs.Length0
          invariant 0 <= i <= probs.Length0
          invariant forall r, c :: 0 <= r < probs.Length0 && 0 <= c < j ==> dataWs[r, c] == WorkingWeight(dataYs[r, c], probs[r, c])
          invariant forall r :: 0 <= r < i ==> dataWs[r, j] == WorkingWeight(dataYs[r, j], probs[r, j])
        {
          var z := GetZ(dataYs[i, j], probs[i, j]);
          dataWs[i, j] := (dataYs[i, j] - probs[i, j]) / z;
          i := i + 1;
        }
        j := j + 1;
      }
    }

    /** getFs of one instance: the sum of the centered increments of the kept iterations. */
    method GetFs(x: seq<real>) returns (fs: seq<real>)
      requires Valid() && numClasses >= 1
      ensures fs == FsOf(Kept(), numRegressions, x)
      ensures |fs| == numClasses && Sum(fs) == 0.0
    {
      fs := SumIncrements(regressions, Kept(), numRegressions, x);
      FsSumToZero(Kept(), numRegressions, x);
    }

    /** The F values of every row under the current model. */
    function CurrentFs(rows: seq<seq<real>>): (fs: seq<seq<real>>)
      reads this, regressions
      requires Valid() && numClasses >= 1
      ensures IsGrid(fs, |rows|, numClasses)
    {
      FsRows(Kept(), numRegressions, rows)
    }

    /** getFs of a data set: one row of F values per instance. */
    method GetFsAll(rows: seq<seq<real>>) returns (dataFs: array2<real>)
      requires Valid() && numClasses >= 1
      ensures fresh(dataFs)
      ensures dataFs.Length0 == |rows| && dataFs.Length1 == numClasses
      ensures Grid(dataFs) == CurrentFs(rows)
    {
      ghost var expected := CurrentFs(rows);
      dataFs := new real[|rows|, numClasses];
      var k := 0;
      while k < |rows|
        invariant 0 <= k <= |rows|
        invariant forall r, c :: 0 <= r < k && 0 <= c < numClasses ==> dataFs[r, c] == expected[r][c]
      {
        var fs := GetFs(rows[k]);
        CopyRow(dataFs, k, fs);
        k := k + 1;
      }
      GridOf(dataFs, expected);
    }

    /** getProbs: the class probabilities of every row of F. */
    method GetProbs(dataFs: array2<real>) returns (probs: array2<real>)
      ensures fresh(probs)
      ensures probs.Length0 == dataFs.Length0 && probs.Length1 == dataFs.Length1
      ensures Grid(probs) == ProbsOf(prob, Grid(dataFs), dataFs.Length1)
    {
      probs := new real[dataFs.Length0, dataFs.Length1];
      UpdateProbs(prob, probs, dataFs);
    }

    /**
     * performIteration: fits the regression of each class in turn from the
     * working responses and weights, and gives up at the first class with
     * no useful attribute, leaving F and the probabilities unchanged;
     * otherwise adds the centered predictions to F and recomputes the
     * probabilities.
     */
    method PerformIteration(iteration: nat, trainYs: array2<real>, trainFs: array2<real>, probs: array2<real>, data: Data)
      returns (foundAttribute: bool)
      requires Valid() && numClasses >= 1 && data.Valid() && iteration < regressions.Length1
      requires trainYs.Length0 == trainFs.Length0 == probs.Length0 == |data.rows|
      requires trainYs.Length1 == trainFs.Length1 == probs.Length1 == numClasses
      requires trainYs != trainFs && trainYs != probs && trainFs != probs
      modifies regressions, trainFs, probs
      ensures var pr := Problem(data.rows, data.weights, Grid(trainYs), numClasses);
        var ps := old(Grid(probs));
        var failed := FirstFailure(pr, fit, ps, 0);
        && (foundAttribute <==> failed == numClasses)
        && (forall j :: 0 <= j < numClasses ==>
              regressions[j, iteration] == if j <= failed then FitClass(pr, fit, ps, j) else old(regressions[j, iteration]))
        && (forall j, t :: 0 <= j < numClasses && 0 <= t < regressions.Length1 && t != iteration ==>
              regressions[j, t] == old(regressions[j, t]))
        && (foundAttribute ==>
              Grid(trainFs) == AddedRows(old(Grid(trainFs)), Column(pr, fit, ps), data.rows)
              && Grid(probs) == ProbsOf(prob, Grid(trainFs), numClasses))
        && (!foundAttribute ==> Grid(trainFs) == old(Grid(trainFs)) && Grid(probs) == ps)
    {
      ghost var pr := Problem(data.rows, data.weights, Grid(trainYs), numClasses);
      ghost var ps := Grid(probs);
      foundAttribute := FitClasses(iteration, trainYs, probs, data, pr, ps);
      if !foundAttribute {
        return;
      }
      var col := ReadColumn(regressions, iteration);
      assert col == Column(pr, fit, ps);
      AddIncrements(trainFs, col, data.rows);
      UpdateProbs(prob, probs, trainFs);
    }

    /** The regression of class j, fitted to its working responses and weights. */
    method FitOne(trainYs: array2<real>, probs: array2<real>, data: Data, ghost pr: Problem, ghost ps: seq<seq<real>>, j: nat)
      returns (regression: Regression)
      requires data.Valid() && j < numClasses
      requires trainYs.Length0 == probs.Length0 == |data.rows|
      requires trainYs.Length1 == probs.Length1 == numClasses
      requires pr == Problem(data.rows, data.weights, pr.ys, numClasses)
      requires Holds(trainYs, pr.ys) && Holds(probs, ps)
      ensures regression == FitClass(pr, fit, ps, j)
    {
      var zs, ws := Responses(trainYs, probs, data.weights, j, pr.ys, ps);
      regression := fit(data.rows, zs, ws);
    }

    /**
     * The fitting loop of performIteration: the regression of each class in
     * turn goes to column `iteration`, up to the first class with no useful
     * attribute.
     */
    method FitClasses(iteration: nat, trainYs: array2<real>, probs: array2<real>, data: Data,
                      ghost pr: Problem, ghost ps: seq<seq<real>>)
      returns (foundAttribute: bool)
      requires Valid() && numClasses >= 1 && data.Valid() && iteration < regressions.Length1
      requires trainYs.Length0 == probs.Length0 == |data.rows|
      requires trainYs.Length1 == probs.Length1 == numClasses
      requires pr == Problem(data.rows, data.weights, Grid(trainYs), numClasses) && ps == Grid(probs)
      modifies regressions
      ensures var failed := FirstFailure(pr, fit, ps, 0);
        && (foundAttribute <==> failed == numClasses)
        && (forall j :: 0 <= j < numClasses ==>
              regressions[j, iteration] == if j <= failed then FitClass(pr, fit, ps, j) else old(regressions[j, iteration]))
        && (forall j, t :: 0 <= j < numClasses && 0 <= t < regressions.Length1 && t != iteration ==>
              regressions[j, t] == old(regressions[j, t]))
    {
      FirstFailureSpec(pr, fit, ps, 0);
      var fitted: seq<Regression> := [];
      var j := 0;
      foundAttribute := true;
      while j < numClasses && foundAttribute
        modifies {}
        invariant 0 <= j <= numClasses && |fitted| == j
        invariant Holds(trainYs, pr.ys) && Holds(probs, ps)
        invariant forall c :: 0 <= c < j ==> fitted[c] == FitClass(pr, fit, ps, c)
        invariant j <= FirstFailure(pr, fit, ps, 0) + 1
        invariant foundAttribute ==> j <= FirstFailure(pr, fit, ps, 0)
        invariant !foundAttribute ==> j == FirstFailure(pr, fit, ps, 0) + 1
      {
        var regression := FitOne(trainYs, probs, data, pr, ps, j);
        fitted := fitted + [regression];
        foundAttribute := regression.Found();
        j := j + 1;
      }
      WriteColumn(regressions, iteration, fitted);
    }

    /**
     * The working arrays of a boosting loop agree with `run` after t
     * successful iterations, and the first t columns of the table hold
     * the regressions the run fitted.
     */
    ghost predicate Tracks(run: Run, data: Data, table: array2<Regression>,
                           trainYs: array2<real>, trainFs: array2<real>, probs: array2<real>, t: nat)
      reads table, trainYs, trainFs, probs
    {
      && table.Length0 >= 1 && data.Valid() && t <= table.Length1
      && run.problem == ProblemOf(data, table.Length0) && run.fit == fit && run.prob == prob
      && run.Valid()
      && trainYs.Length0 == trainFs.Length0 == probs.Length0 == |data.rows|
      && trainYs.Length1 == trainFs.Length1 == probs.Length1 == table.Length0
      && trainYs != trainFs && trainYs != probs && trainFs != probs
      && Grid(trainYs) == YsOf(data, table.Length0)
      && Grid(trainFs) == StateAt(run, t).fs && Grid(probs) == StateAt(run, t).ps
      && (forall u, j :: 0 <= u < t && 0 <= j < table.Length0 ==> table[j, u] == ColumnAt(run, u)[j])
    }

    /** Sets up the working arrays of a boosting loop from the current model. */
    method StartBoosting(data: Data) returns (trainYs: array2<real>, trainFs: array2<real>, probs: array2<real>)
      requires Valid() && numClasses >= 1 && data.Valid()
      ensures fresh(trainYs) && fresh(trainFs) && fresh(probs)
      ensures Tracks(CurrentRun(data), data, regressions, trainYs, trainFs, probs, 0)
    {
      StartIsFsRows(ProblemOf(data, numClasses), prob, Kept(), numRegressions);
      trainYs := GetYs(data);
      trainFs := GetFsAll(data.rows);
      probs := GetProbs(trainFs);
    }

    /** One iteration of a boosting loop, stated on the run. */
    method BoostStep(ghost run: Run, data: Data, trainYs: array2<real>, trainFs: array2<real>, probs: array2<real>, iteration: nat)
      returns (foundAttribute: bool)
      requires Valid() && iteration < regressions.Length1
      requires Tracks(run, data, regressions, trainYs, trainFs, probs, iteration)
      modifies regressions, trainFs, probs
      ensures foundAttribute == Succeeds(run, iteration)
      ensures foundAttribute ==> Tracks(run, data, regressions, trainYs, trainFs, probs, iteration + 1)
      ensures forall u, j :: 0 <= u < iteration && 0 <= j < numClasses ==> regressions[j, u] == ColumnAt(run, u)[j]
    {
      foundAttribute := PerformIteration(iteration, trainYs, trainFs, probs, data);
      if foundAttribute {
        assert forall j :: 0 <= j < numClasses ==> regressions[j, iteration] == ColumnAt(run, iteration)[j];
      }
    }

    /**
     * performBoosting(numIterations): runs iterations until one fails or
     * numIterations have succeeded, and keeps that many.
     */
    method PerformBoosting(numIterations: nat, data: Data)
      requires Valid() && numClasses >= 1 && data.Valid() && numIterations <= regressions.Length1
      modifies this, regressions
      ensures Valid() && regressions == old(regressions)
      ensures numClasses == old(numClasses) && numAttributes == old(numAttributes)
      ensures var run := old(CurrentRun(data));
        && run.Valid()
        && numRegressions == CountOk(run, 0, numIterations)
        && forall t, j :: 0 <= t < numRegressions && 0 <= j < numClasses ==> regressions[j, t] == ColumnAt(run, t)[j]
    {
      ghost var run := CurrentRun(data);
      var trainYs, trainFs, probs := StartBoosting(data);
      var iteration := BoostLoop(run, data, trainYs, trainFs, probs, numIterations);
      numRegressions := iteration;
    }

    /** The loop of performBoosting(numIterations): the number of iterations that succeed in a row. */
    method BoostLoop(ghost run: Run, data: Data, trainYs: array2<real>, trainFs: array2<real>, probs: array2<real>,
                     numIterations: nat)
      returns (iteration: nat)
      requires Valid() && numIterations <= regressions.Length1
      requires Tracks(run, data, regressions, trainYs, trainFs, probs, 0)
      modifies regressions, trainFs, probs
      ensures run.Valid() && iteration == CountOk(run, 0, numIterations) && iteration <= numIterations
      ensures forall t, j :: 0 <= t < iteration && 0 <= j < numClasses ==> regressions[j, t] == ColumnAt(run, t)[j]
    {
      iteration := 0;
      var found := true;
      while found && iteration < numIterations
        modifies regressions, trainFs, probs
        invariant 0 <= iteration <= numIterations
        invariant found ==> Tracks(run, data, regressions, trainYs, trainFs, probs, iteration)
        invariant !found ==> iteration < numIterations && !Succeeds(run, iteration)
        invariant forall u :: 0 <= u < iteration ==> Succeeds(run, u)
        invariant forall t, j :: 0 <= t < iteration && 0 <= j < numClasses ==> regressions[j, t] == ColumnAt(run, t)[j]
      {
        iteration, found := BoostLoopBody(run, data, trainYs, trainFs, probs, numIterations, iteration);
      }
      CountOkIs(run, 0, numIterations, iteration);
    }

    /** The body of the loop of performBoosting(numIterations): one iteration, and whether it succeeds. */
    method BoostLoopBody(ghost run: Run, data: Data, trainYs: array2<real>, trainFs: array2<real>, probs: array2<real>,
                         numIterations: nat, iteration: nat)
      returns (iteration': nat, found: bool)
      requires Valid() && iteration < numIterations <= regressions.Length1
      requires Tracks(run, data, regressions, trainYs, trainFs, probs, iteration)
      requires forall u :: 0 <= u < iteration ==> Succeeds(run, u)
      modifies regressions, trainFs, probs
      ensures iteration' <= numIterations
      ensures found ==> iteration' == iteration + 1 && Tracks(run, data, regressions, trainYs, trainFs, probs, iteration')
      ensures !found ==> iteration' == iteration && !Succeeds(run, iteration)
      ensures forall u :: 0 <= u < iteration' ==> Succeeds(run, u)
      ensures forall t, j :: 0 <= t < iteration' && 0 <= j < numClasses ==> regressions[j, t] == ColumnAt(run, t)[j]
    {
      found := BoostStep(run, data, trainYs, trainFs, probs, iteration);
      iteration' := if found then iteration + 1 else iteration;
      if found {
        assert Tracks(run, data, regressions, trainYs, trainFs, probs, iteration');
      }
    }

    /**
     * performBoosting(): runs iterations with early stopping, recording the
     * training error after each, and keeps the iteration count of the first
     * minimum.  The error is always the misclassification rate.
     */
    method PerformBoostingTrain(data: Data)
      requires Valid() && numClasses >= 1 && data.Valid() && maxIterations <= regressions.Length1
      modifies this, regressions
      ensures Valid() && regressions == old(regressions)
      ensures numClasses == old(numClasses) && numAttributes == old(numAttributes)
      ensures old(CurrentRun(data)).Valid()
      ensures var run := old(CurrentRun(data));
        var err := ErrorAt(errorRate, data, run, old(Kept()));
        var completed := StopAt(err, SucceedsAt(run), maxIterations, heuristicStop, 0);
        && completed <= maxIterations
        && IsFirstMin(ErrorsUpTo(err, completed), completed, numRegressions)
        && forall t, j :: 0 <= t < completed && 0 <= j < numClasses ==> regressions[j, t] == ColumnAt(run, t)[j]
    {
      ghost var run := CurrentRun(data);
      var trainYs, trainFs, probs := StartBoosting(data);
      var iteration, trainErrors := TrainLoop(run, data, trainYs, trainFs, probs, Kept());
      numRegressions := GetBestIteration(trainErrors, iteration);
    }

    /**
     * The loop of performBoosting(): the errors it records and the
     * iteration it stops at.  The error after t iterations is that of the
     * first t columns of the table.
     */
    method TrainLoop(ghost run: Run, data: Data, trainYs: array2<real>, trainFs: array2<real>, probs: array2<real>,
                     initial: seq<seq<Regression>>)
      returns (iteration: nat, trainErrors: seq<real>)
      requires Valid() && maxIterations <= regressions.Length1
      requires Tracks(run, data, regressions, trainYs, trainFs, probs, 0)
      modifies regressions, trainFs, probs
      ensures var err := ErrorAt(errorRate, data, run, initial);
        && iteration == StopAt(err, SucceedsAt(run), maxIterations, heuristicStop, 0)
        && iteration <= maxIterations
        && trainErrors == ErrorsUpTo(err, iteration)
      ensures forall t, j :: 0 <= t < iteration && 0 <= j < numClasses ==> regressions[j, t] == ColumnAt(run, t)[j]
    {
      ghost var err := ErrorAt(errorRate, data, run, initial);
      ghost var ok := SucceedsAt(run);
      iteration := 0;
      var errors := new real[maxIterations + 1];
      errors[0] := errorRate(data, initial);
      var noMin := 0;
      var lastMin := FloatMax;
      while iteration < maxIterations
        modifies regressions, trainFs, probs, errors
        invariant 0 <= iteration <= maxIterations
        invariant Tracks(run, data, regressions, trainYs, trainFs, probs, iteration)
        invariant forall t :: 0 <= t <= iteration ==> errors[t] == err(t)
        invariant noMin == NoMinAt(err, iteration) && lastMin == MinSoFar(err, iteration)
        invariant StopAt(err, ok, maxIterations, heuristicStop, 0) == StopAt(err, ok, maxIterations, heuristicStop, iteration)
      {
        var stop;
        iteration, stop, lastMin, noMin := TrainBody(run, data, errors, trainYs, trainFs, probs, iteration, initial, lastMin, noMin);
        if stop {
          break;
        }
      }
      ErrorsPrefix(errors[..], err, iteration);
      trainErrors := errors[..iteration + 1];
    }

    /** One iteration of the loop of performBoosting(), and the training error it records. */
    method TrainStep(ghost run: Run, data: Data, errors: array<real>,
                     trainYs: array2<real>, trainFs: array2<real>, probs: array2<real>, iteration: nat,
                     ghost initial: seq<seq<Regression>>)
      returns (foundAttribute: bool)
      requires Valid() && iteration < regressions.Length1 && iteration + 1 < errors.Length
      requires Tracks(run, data, regressions, trainYs, trainFs, probs, iteration)
      requires forall t :: 0 <= t <= iteration ==> errors[t] == ErrorAt(errorRate, data, run, initial)(t)
      modifies regressions, trainFs, probs, errors
      ensures foundAttribute == Succeeds(run, iteration)
      ensures foundAttribute ==> Tracks(run, data, regressions, trainYs, trainFs, probs, iteration + 1)
      ensures var done := if foundAttribute then iteration + 1 else iteration;
        forall t :: 0 <= t <= done ==> errors[t] == ErrorAt(errorRate, data, run, initial)(t)
      ensures forall u, j :: 0 <= u < iteration && 0 <= j < numClasses ==> regressions[j, u] == ColumnAt(run, u)[j]
    {
      foundAttribute := BoostStep(run, data, trainYs, trainFs, probs, iteration);
      if foundAttribute {
        RecordError(run, data, trainYs, trainFs, probs, errors, iteration, initial);
      }
    }

    /** The error of the first t columns of the table, which hold the run's first t iterations. */
    method TableError(ghost run: Run, eval: Evaluator, test: Data, t: nat) returns (e: real)
      requires Valid() && run.Valid() && regressions.Length0 == run.problem.numClasses && t <= regressions.Length1
      requires forall u, j :: 0 <= u < t && 0 <= j < numClasses ==> regressions[j, u] == ColumnAt(run, u)[j]
      ensures e == eval(test, TableAt(run, t))
    {
      PrefixIsTable(regressions, run, t);
      e := eval(test, Prefix(regressions, t));
    }

    /**
     * Records the training error after iteration i + 1 when errors[] holds
     * the run's errors up to iteration i; the boosting state it leaves as it
     * is.
     */
    method RecordError(ghost run: Run, data: Data, trainYs: array2<real>, trainFs: array2<real>, probs: array2<real>,
                       errors: array<real>, i: nat, ghost initial: seq<seq<Regression>>)
      requires Valid() && Tracks(run, data, regressions, trainYs, trainFs, probs, i + 1)
      requires i + 1 < errors.Length
      requires forall t :: 0 <= t <= i ==> errors[t] == ErrorAt(errorRate, data, run, initial)(t)
      modifies errors
      ensures Tracks(run, data, regressions, trainYs, trainFs, probs, i + 1)
      ensures forall t :: 0 <= t <= i + 1 ==> errors[t] == ErrorAt(errorRate, data, run, initial)(t)
    {
      var e := TableError(run, errorRate, data, i + 1);
      errors[i + 1] := e;
    }

    /**
     * Adds the test error after iteration i + 1 to error[], which holds the
     * accumulated errors up to iteration i and the earlier folds' sums
     * `before` beyond it; the boosting state it leaves as it is.
     */
    method AddFoldError(ghost run: Run, train: Data, test: Data, trainYs: array2<real>, trainFs: array2<real>, probs: array2<real>,
                        error: array<real>, i: nat, ghost initial: seq<seq<Regression>>, ghost before: seq<real>)
      requires Valid() && Tracks(run, train, regressions, trainYs, trainFs, probs, i + 1)
      requires i + 1 < error.Length == |before|
      requires var acc := Accumulated(before, ErrorAt(Monitored(), test, run, initial));
        forall k :: 0 <= k < error.Length ==> error[k] == if k <= i then acc(k) else before[k]
      modifies error
      ensures Tracks(run, train, regressions, trainYs, trainFs, probs, i + 1)
      ensures var acc := Accumulated(before, ErrorAt(Monitored(), test, run, initial));
        forall k :: 0 <= k < error.Length ==> error[k] == if k <= i + 1 then acc(k) else before[k]
    {
      var e := TableError(run, Monitored(), test, i + 1);
      error[i + 1] := error[i + 1] + e;
    }

    /** One iteration of the fold loop, and the test error it adds. */
    method FoldStep(ghost run: Run, train: Data, test: Data, error: array<real>,
                    trainYs: array2<real>, trainFs: array2<real>, probs: array2<real>, iteration: nat,
                    ghost initial: seq<seq<Regression>>, ghost before: seq<real>)
      returns (foundAttribute: bool)
      requires Valid() && iteration < regressions.Length1 && iteration + 1 < error.Length
      requires Tracks(run, train, regressions, trainYs, trainFs, probs, iteration)
      requires |before| == error.Length
      requires var acc := Accumulated(before, ErrorAt(Monitored(), test, run, initial));
        forall k :: 0 <= k < error.Length ==> error[k] == if k <= iteration then acc(k) else before[k]
      modifies regressions, trainFs, probs, error
      ensures foundAttribute == Succeeds(run, iteration)
      ensures foundAttribute ==> Tracks(run, train, regressions, trainYs, trainFs, probs, iteration + 1)
      ensures var acc := Accumulated(before, ErrorAt(Monitored(), test, run, initial));
        var done := if foundAttribute then iteration + 1 else iteration;
        forall k :: 0 <= k < error.Length ==> error[k] == if k <= done then acc(k) else before[k]
      ensures forall u, j :: 0 <= u < iteration && 0 <= j < numClasses ==> regressions[j, u] == ColumnAt(run, u)[j]
    {
      foundAttribute := BoostStep(run, train, trainYs, trainFs, probs, iteration);
      if foundAttribute {
        AddFoldError(run, train, test, trainYs, trainFs, probs, error, iteration, initial, before);
      }
    }

    /**
     * The body of the loop of performBoosting(): one iteration, its error
     * and the early-stopping test.  Returns the new iteration count and
     * whether the loop ends here.
     */
    method TrainBody(ghost run: Run, data: Data, errors: array<real>,
                     trainYs: array2<real>, trainFs: array2<real>, probs: array2<real>, iteration: nat,
                     ghost initial: seq<seq<Regression>>, lastMin: real, noMin: nat)
      returns (iteration': nat, stop: bool, lastMin': real, noMin': nat)
      requires Valid() && iteration < maxIterations <= regressions.Length1 && errors.Length == maxIterations + 1
      requires Tracks(run, data, regressions, trainYs, trainFs, probs, iteration)
      requires forall t :: 0 <= t <= iteration ==> errors[t] == ErrorAt(errorRate, data, run, initial)(t)
      requires var err := ErrorAt(errorRate, data, run, initial);
        && noMin == NoMinAt(err, iteration) && lastMin == MinSoFar(err, iteration)
        && StopAt(err, SucceedsAt(run), maxIterations, heuristicStop, 0)
           == StopAt(err, SucceedsAt(run), maxIterations, heuristicStop, iteration)
      modifies regressions, trainFs, probs, errors
      ensures iteration' <= maxIterations
      ensures forall t :: 0 <= t <= iteration' ==> errors[t] == ErrorAt(errorRate, data, run, initial)(t)
      ensures forall u, j :: 0 <= u < iteration' && 0 <= j < numClasses ==> regressions[j, u] == ColumnAt(run, u)[j]
      ensures stop ==>
                iteration' == StopAt(ErrorAt(errorRate, data, run, initial), SucceedsAt(run), maxIterations, heuristicStop, 0)
      ensures !stop ==> iteration' == iteration + 1 && Tracks(run, data, regressions, trainYs, trainFs, probs, iteration')
      ensures !stop ==> var err := ErrorAt(errorRate, data, run, initial);
        && noMin' == NoMinAt(err, iteration') && lastMin' == MinSoFar(err, iteration')
        && StopAt(err, SucceedsAt(run), maxIterations, heuristicStop, 0)
           == StopAt(err, SucceedsAt(run), maxIterations, heuristicStop, iteration')
    {
      ghost var err := ErrorAt(errorRate, data, run, initial);
      var foundAttribute := TrainStep(run, data, errors, trainYs, trainFs, probs, iteration, initial);
      if !foundAttribute {
        return iteration, true, lastMin, noMin;
      }
      iteration' := iteration + 1;
      EarlyStopTracks(err, SucceedsAt(run), maxIterations, heuristicStop, iteration, errors[iteration'], lastMin, noMin);
      var r := EarlyStop(heuristicStop, errors[iteration'], lastMin, noMin);
      stop, lastMin', noMin' := r.0, r.1, r.2;
    }

    /**
     * The body of the fold loop: one iteration, the test error it adds and
     * the early-stopping test.  Returns the new iteration count and whether
     * the loop ends here.
     */
    method FoldBody(ghost run: Run, train: Data, test: Data, error: array<real>,
                    trainYs: array2<real>, trainFs: array2<real>, probs: array2<real>, iteration: nat, maxIterations': nat,
                    ghost initial: seq<seq<Regression>>, ghost before: seq<real>, lastMin: real, noMin: nat)
      returns (iteration': nat, stop: bool, lastMin': real, noMin': nat)
      requires Valid() && iteration < maxIterations' <= regressions.Length1 && maxIterations' < error.Length
      requires Tracks(run, train, regressions, trainYs, trainFs, probs, iteration)
      requires |before| == error.Length
      requires var acc := Accumulated(before, ErrorAt(Monitored(), test, run, initial));
        forall k :: 0 <= k < error.Length ==> error[k] == if k <= iteration then acc(k) else before[k]
      requires var acc := Accumulated(before, ErrorAt(Monitored(), test, run, initial));
        && noMin == NoMinAt(acc, iteration) && lastMin == MinSoFar(acc, iteration)
        && StopAt(acc, SucceedsAt(run), maxIterations', heuristicStop, 0)
           == StopAt(acc, SucceedsAt(run), maxIterations', heuristicStop, iteration)
      modifies regressions, trainFs, probs, error
      ensures iteration' <= maxIterations'
      ensures var acc := Accumulated(before, ErrorAt(Monitored(), test, run, initial));
        forall k :: 0 <= k < error.Length ==> error[k] == if k <= iteration' then acc(k) else before[k]
      ensures forall u, j :: 0 <= u < iteration' && 0 <= j < numClasses ==> regressions[j, u] == ColumnAt(run, u)[j]
      ensures stop ==> iteration' == StopAt(Accumulated(before, ErrorAt(Monitored(), test, run, initial)),
                                            SucceedsAt(run), maxIterations', heuristicStop, 0)
      ensures !stop ==> iteration' == iteration + 1 && Tracks(run, train, regressions, trainYs, trainFs, probs, iteration')
      ensures !stop ==> var acc := Accumulated(before, ErrorAt(Monitored(), test, run, initial));
        && noMin' == NoMinAt(acc, iteration') && lastMin' == MinSoFar(acc, iteration')
        && StopAt(acc, SucceedsAt(run), maxIterations', heuristicStop, 0)
           == StopAt(acc, SucceedsAt(run), maxIterations', heuristicStop, iteration')
    {
      ghost var acc := Accumulated(before, ErrorAt(Monitored(), test, run, initial));
      var foundAttribute := FoldStep(run, train, test, error, trainYs, trainFs, probs, iteration, initial, before);
      if !foundAttribute {
        return iteration, true, lastMin, noMin;
      }
      iteration' := iteration + 1;
      EarlyStopTracks(acc, SucceedsAt(run), maxIterations', heuristicStop, iteration, error[iteration'], lastMin, noMin);
      var r := EarlyStop(heuristicStop, error[iteration'], lastMin, noMin);
      stop, lastMin', noMin' := r.0, r.1, r.2;
    }

    /**
     * performBoosting(train, test, error, maxIterations): one fold of the
     * cross-validation.  Adds the test error after each completed iteration
     * to error[], stops early on the accumulated errors, and returns the
     * number of iterations completed.
     */
    method PerformBoostingFold(train: Data, test: Data, error: array<real>, maxIterations': nat) returns (iteration: nat)
      requires Valid() && numClasses >= 1 && train.Valid()
      requires maxIterations' < error.Length && maxIterations' <= regressions.Length1
      modifies this, regressions, error
      ensures Valid() && regressions == old(regressions)
      ensures numClasses == old(numClasses) && numAttributes == old(numAttributes)
      ensures old(CurrentRun(train)).Valid() && iteration <= maxIterations'
      ensures iteration == StopAt(Accumulated(old(error[..]), ErrorAt(Monitored(), test, old(CurrentRun(train)), old(Kept()))),
                                  SucceedsAt(old(CurrentRun(train))), maxIterations', heuristicStop, 0)
      ensures forall k :: 0 <= k < error.Length ==>
                error[k] == if k <= iteration then Accumulated(old(error[..]), ErrorAt(Monitored(), test, old(CurrentRun(train)), old(Kept())))(k)
                            else old(error[k])
      ensures numRegressions == (if iteration == 0 then old(numRegressions) else iteration)
      ensures forall t, j :: 0 <= t < iteration && 0 <= j < numClasses ==>
                regressions[j, t] == ColumnAt(old(CurrentRun(train)), t)[j]
    {
      ghost var run := CurrentRun(train);
      var trainYs, trainFs, probs := StartBoosting(train);
      iteration := FoldLoop(run, train, test, error, trainYs, trainFs, probs, maxIterations', Kept());
      if iteration > 0 {
        numRegressions := iteration;
      }
    }

    /**
     * The loop of the fold variant of performBoosting: what it adds to
     * error[] and the iteration it stops at.
     */
    method FoldLoop(ghost run: Run, train: Data, test: Data, error: array<real>,
                    trainYs: array2<real>, trainFs: array2<real>, probs: array2<real>,
                    maxIterations': nat, initial: seq<seq<Regression>>)
      returns (iteration: nat)
      requires Valid() && maxIterations' < error.Length && maxIterations' <= regressions.Length1
      requires Tracks(run, train, regressions, trainYs, trainFs, probs, 0)
      modifies regressions, trainFs, probs, error
      ensures iteration <= maxIterations'
      ensures iteration == StopAt(Accumulated(old(error[..]), ErrorAt(Monitored(), test, run, initial)),
                                  SucceedsAt(run), maxIterations', heuristicStop, 0)
      ensures forall k :: 0 <= k < error.Length ==>
                error[k] == if k <= iteration then Accumulated(old(error[..]), ErrorAt(Monitored(), test, run, initial))(k)
                            else old(error[k])
      ensures forall t, j :: 0 <= t < iteration && 0 <= j < numClasses ==> regressions[j, t] == ColumnAt(run, t)[j]
    {
      ghost var err := ErrorAt(Monitored(), test, run, initial);
      ghost var before := error[..];
      ghost var acc := Accumulated(before, err);
      ghost var ok := SucceedsAt(run);
      iteration := 0;
      var noMin := 0;
      var lastMin := FloatMax;
      error[0] := error[0] + Monitored()(test, initial);
      while iteration < maxIterations'
        modifies regressions, trainFs, probs, error
        invariant 0 <= iteration <= maxIterations'
        invariant Tracks(run, train, regressions, trainYs, trainFs, probs, iteration)
        invariant forall k :: 0 <= k < error.Length ==> error[k] == if k <= iteration then acc(k) else before[k]
        invariant noMin == NoMinAt(acc, iteration) && lastMin == MinSoFar(acc, iteration)
        invariant StopAt(acc, ok, maxIterations', heuristicStop, 0) == StopAt(acc, ok, maxIterations', heuristicStop, iteration)
      {
        var stop;
        iteration, stop, lastMin, noMin := FoldBody(run, train, test, error, trainYs, trainFs, probs, iteration,
                                                    maxIterations', initial, before, lastMin, noMin);
        if stop {
          break;
        }
      }
    }

    /** The run of a fold: from the empty model, on the fold's training part. */
    ghost function FoldRun(fold: Fold, k: nat): Run
      requires k >= 1
    {
      FreshRun(fold.train, k, fit, prob)
    }

    /** The iterations `fold` completes when the earlier folds left `before`. */
    ghost function FoldCount(before: CV, fold: Fold, k: nat): nat
      requires k >= 1
    {
      var run := FoldRun(fold, k);
      var err := ErrorAt(Monitored(), fold.test, run, EmptyTable(k));
      StopAt(Accumulated(before.error, err), SucceedsAt(run), before.completed, heuristicStop, 0)
    }

    /** What running `fold` leaves: its test errors added up to where it stopped, and the lowered cap. */
    ghost function AfterFold(before: CV, fold: Fold, k: nat): (cv: CV)
      requires k >= 1 && |before.error| == maxIterations + 1 && before.completed <= maxIterations
      ensures |cv.error| == maxIterations + 1 && cv.completed <= maxIterations
    {
      var err := ErrorAt(Monitored(), fold.test, FoldRun(fold, k), EmptyTable(k));
      var it := FoldCount(before, fold, k);
      var error := seq(maxIterations + 1, t requires 0 <= t <= maxIterations =>
                     if t <= it then before.error[t] + err(t) else before.error[t]);
      CV(error, if it < before.completed then it else before.completed)
    }

    /** The accumulated errors and the iteration cap after the first i folds. */
    ghost function CVAfter(folds: seq<Fold>, k: nat, i: nat): (cv: CV)
      requires k >= 1 && i <= |folds|
      ensures |cv.error| == maxIterations + 1 && cv.completed <= maxIterations
    {
      if i == 0 then CV(seq(maxIterations + 1, t => 0.0), maxIterations)
      else AfterFold(CVAfter(folds, k, i - 1), folds[i - 1], k)
    }

    /** The iterations fold i completes, given what the earlier folds left. */
    ghost function FoldIterations(folds: seq<Fold>, k: nat, i: nat): nat
      requires k >= 1 && i < |folds|
    {
      FoldCount(CVAfter(folds, k, i), folds[i], k)
    }

    /** completedIterations is the least of maxIterations and every fold's iteration count. */
    lemma {:induction false} CompletedIsMinimum(folds: seq<Fold>, k: nat, n: nat)
      requires k >= 1 && n <= |folds|
      ensures CVAfter(folds, k, n).completed <= maxIterations
      ensures forall i :: 0 <= i < n ==> CVAfter(folds, k, n).completed <= FoldIterations(folds, k, i)
      ensures n == 0 || CVAfter(folds, k, n).completed == FoldIterations(folds, k, n - 1)
    {
      if n > 0 {
        CompletedIsMinimum(folds, k, n - 1);
        CompletedStep(CVAfter(folds, k, n - 1), folds[n - 1], k);
      }
    }

    /** A fold stops within the cap the earlier folds left, and its count becomes the new cap. */
    lemma CompletedStep(before: CV, fold: Fold, k: nat)
      requires k >= 1 && |before.error| == maxIterations + 1 && before.completed <= maxIterations
      ensures FoldCount(before, fold, k) <= before.completed
      ensures AfterFold(before, fold, k).completed == FoldCount(before, fold, k)
    {
      var run := FoldRun(fold, k);
      var err := ErrorAt(Monitored(), fold.test, run, EmptyTable(k));
    }

    /**
     * performBoostingCV: runs the folds, each from a fresh table and capped
     * at what every earlier fold completed, picks the first minimum of the
     * summed fold errors up to that cap, and refits that many iterations on
     * all the training data.  Returns its two locals, completedIterations
     * and bestIteration.
     */
    method PerformBoostingCV(folds: seq<Fold>, train: Data) returns (completedIterations: nat, bestIteration: nat)
      requires Valid() && numClasses >= 1 && train.Valid()
      requires |folds| == NumFoldsBoosting && forall i :: 0 <= i < |folds| ==> folds[i].train.Valid()
      modifies this
      ensures Valid() && numClasses == old(numClasses) && numAttributes == old(numAttributes)
      ensures regressions.Length1 == maxIterations
      ensures var cv := CVAfter(folds, numClasses, |folds|);
        && completedIterations == cv.completed
        && bestIteration <= completedIterations <= maxIterations
        && IsFirstMin(cv.error, completedIterations, bestIteration)
      ensures var run := FreshRun(train, numClasses, fit, prob);
        && run.Valid()
        && numRegressions == CountOk(run, 0, bestIteration)
        && forall t, j :: 0 <= t < numRegressions && 0 <= j < numClasses ==> regressions[j, t] == ColumnAt(run, t)[j]
    {
      var error;
      completedIterations, error := CrossValidate(folds);
      bestIteration := GetBestIteration(error, completedIterations);
      numRegressions := 0;
      StartFromNothing(train, numClasses, fit, prob, Kept());
      PerformBoosting(bestIteration, train);
    }

    /**
     * The fold loop of performBoostingCV: the summed fold errors and the
     * least number of iterations any fold completed.
     */
    method CrossValidate(folds: seq<Fold>) returns (completedIterations: nat, error: seq<real>)
      requires Valid() && numClasses >= 1
      requires |folds| == NumFoldsBoosting && forall i :: 0 <= i < |folds| ==> folds[i].train.Valid()
      modifies this
      ensures Valid() && numClasses == old(numClasses) && numAttributes == old(numAttributes)
      ensures fresh(regressions) && regressions.Length1 == maxIterations
      ensures completedIterations == CVAfter(folds, numClasses, |folds|).completed
      ensures error == CVAfter(folds, numClasses, |folds|).error
    {
      completedIterations := maxIterations;
      var errors := new real[maxIterations + 1](t => 0.0);
      assert errors[..] == CVAfter(folds, numClasses, 0).error;
      var i := 0;
      while i < |folds|
        invariant 0 <= i <= |folds|
        invariant Valid() && numClasses == old(numClasses) && numAttributes == old(numAttributes)
        invariant (i > 0 ==> regressions.Length1 == maxIterations) && errors.Length == maxIterations + 1
        invariant completedIterations == CVAfter(folds, numClasses, i).completed
        invariant errors[..] == CVAfter(folds, numClasses, i).error
        invariant i > 0 ==> fresh(regressions)
      {
        completedIterations := CrossValidateFold(folds, i, errors, completedIterations);
        i := i + 1;
      }
      error := errors[..];
    }

    /**
     * One pass of the fold loop of performBoostingCV: clears the model,
     * runs fold i capped at the iterations completed so far, and lowers
     * the cap to what the fold completed.
     */
    method CrossValidateFold(folds: seq<Fold>, i: nat, error: array<real>, completed: nat) returns (completed': nat)
      requires Valid() && numClasses >= 1 && i < |folds| && folds[i].train.Valid()
      requires error.Length == maxIterations + 1
      requires completed == CVAfter(folds, numClasses, i).completed
      requires error[..] == CVAfter(folds, numClasses, i).error
      modifies this, error
      ensures Valid() && numClasses == old(numClasses) && numAttributes == old(numAttributes)
      ensures fresh(regressions) && regressions.Length1 == maxIterations
      ensures completed' == CVAfter(folds, numClasses, i + 1).completed
      ensures error[..] == CVAfter(folds, numClasses, i + 1).error
    {
      numRegressions := 0;
      var table := InitRegressions();
      regressions := table;
      StartFromNothing(folds[i].train, numClasses, fit, prob, Kept());
      ghost var run := CurrentRun(folds[i].train);
      ghost var initial := Kept();
      ghost var before := error[..];
      assert run == FoldRun(folds[i], numClasses) && initial == EmptyTable(numClasses);
      var iterations := PerformBoostingFold(folds[i].train, folds[i].test, error, completed);
      completed' := if iterations < completed then iterations else completed;
      FoldOutcome(folds, numClasses, i, iterations, error[..]);
    }

    /** What one fold's run leaves is what CVAfter records for it. */
    lemma FoldOutcome(folds: seq<Fold>, k: nat, i: nat, it: nat, error: seq<real>)
      requires k >= 1 && i < |folds|
      requires var before := CVAfter(folds, k, i);
        var run := FoldRun(folds[i], k);
        var acc := Accumulated(before.error, ErrorAt(Monitored(), folds[i].test, run, EmptyTable(k)));
        && it == StopAt(acc, SucceedsAt(run), before.completed, heuristicStop, 0)
        && |error| == |before.error|
        && forall t :: 0 <= t < |error| ==> error[t] == if t <= it then acc(t) else before.error[t]
      ensures it == FoldIterations(folds, k, i)
      ensures error == CVAfter(folds, k, i + 1).error
      ensures CVAfter(folds, k, i + 1).completed == if it < CVAfter(folds, k, i).completed then it else CVAfter(folds, k, i).completed
    {
      var before := CVAfter(folds, k, i);
      var err := ErrorAt(Monitored(), folds[i].test, FoldRun(folds[i], k), EmptyTable(k));
      assert it == FoldIterations(folds, k, i);
      var after := CVAfter(folds, k, i + 1).error;
      forall t | 0 <= t < |error|
        ensures error[t] == after[t]
      {
        assert after[t] == if t <= it then before.error[t] + err(t) else before.error[t];
      }
    }

    /** getBestIteration: the first index of the minimum of errors[0..maxIteration]. */
    method GetBestIteration(errors: seq<real>, maxIteration: nat) returns (bestIteration: nat)
      requires maxIteration < |errors|
      ensures IsFirstMin(errors, maxIteration, bestIteration)
    {
      var bestError := errors[0];
      bestIteration := 0;
      var i := 1;
      while i <= maxIteration
        invariant 1 <= i <= maxIteration + 1
        invariant bestIteration < i && bestError == errors[bestIteration]
        invariant forall t :: 0 <= t < i ==> bestError <= errors[t]
        invariant forall t :: 0 <= t < bestIteration ==> bestError < errors[t]
      {
        if errors[i] < bestError {
          bestError := errors[i];
          bestIteration := i;
        }
        i := i + 1;
      }
    }

    /** selectRegressions: the first numRegressions columns of `classifiers`, as a new table. */
    method SelectRegressions(classifiers: array2<Regression>) returns (goodClassifiers: array2<Regression>)
      requires classifiers.Length0 == numClasses && numRegressions <= classifiers.Length1
      ensures fresh(goodClassifiers)
      ensures goodClassifiers.Length0 == numClasses && goodClassifiers.Length1 == numRegressions
      ensures forall j, i :: 0 <= j < numClasses && 0 <= i < numRegressions ==> goodClassifiers[j, i] == classifiers[j, i]
    {
      goodClassifiers := new Regression[numClasses, numRegressions]((j, i) => Blank);
      var j := 0;
      while j < numClasses
        invariant 0 <= j <= numClasses
        invariant forall c, i :: 0 <= c < j && 0 <= i < numRegressions ==> goodClassifiers[c, i] == classifiers[c, i]
      {
        var i := 0;
        while i < numRegressions
          invariant 0 <= i <= numRegressions
          invariant forall c, t :: 0 <= c < j && 0 <= t < numRegressions ==> goodClassifiers[c, t] == classifiers[c, t]
          invariant forall t :: 0 <= t < i ==> goodClassifiers[j, t] == classifiers[j, t]
        {
          goodClassifiers[j, i] := classifiers[j, i];
          i := i + 1;
        }
        j := j + 1;
      }
    }

    /** The kept regressions name attributes of the numeric header (or none). */
    predicate AttributesInRange()
      reads this, regressions
      requires Valid()
    {
      forall j, i :: 0 <= j < numClasses && 0 <= i < numRegressions ==>
        -1 <= regressions[j, i].attribute < numAttributes
    }

    /**
     * getCoefficients: per class, each kept regression's intercept is added
     * to slot 0 and its slope to slot attribute+1.
     */
    method GetCoefficients() returns (coefficients: seq<seq<real>>)
      requires Valid() && AttributesInRange()
      ensures |coefficients| == numClasses
      ensures forall j :: 0 <= j < numClasses ==>
                coefficients[j] == Coefficients(Kept()[j], numRegressions, numAttributes + 1)
    {
      coefficients := [];
      var j := 0;
      while j < numClasses
        invariant 0 <= j <= numClasses
        invariant |coefficients| == j
        invariant forall q :: 0 <= q < j ==> coefficients[q] == Coefficients(Kept()[q], numRegressions, numAttributes + 1)
      {
        var row := new real[numAttributes + 1](s => 0.0);
        var regs := Kept()[j];
        assert forall i :: 0 <= i < numRegressions ==> regs[i] == regressions[j, i];
        AccumulateClass(row, regs, numRegressions);
        coefficients := coefficients + [row[..]];
        j := j + 1;
      }
    }

    /**
     * getUsedAttributes: per class, the attributes whose coefficient is not
     * zero up to Utils.SMALL, in ascending order.
     */
    method GetUsedAttributes() returns (usedAttributes: seq<seq<int>>)
      requires Valid() && AttributesInRange()
      ensures |usedAttributes| == numClasses
      ensures forall j :: 0 <= j < numClasses ==> StrictlyAscending(usedAttributes[j])
      ensures forall j, a :: 0 <= j < numClasses ==>
                (a in usedAttributes[j] <==>
                   0 <= a < numAttributes && !Eq(Coefficient(Kept()[j], numRegressions, a + 1), 0.0))
    {
      var coefficients := GetCoefficients();
      usedAttributes := [];
      var j := 0;
      while j < numClasses
        invariant 0 <= j <= numClasses
        invariant |usedAttributes| == j
        invariant forall q :: 0 <= q < j ==> StrictlyAscending(usedAttributes[q])
        invariant forall q, a :: 0 <= q < j ==>
                    (a in usedAttributes[q] <==>
                       0 <= a < numAttributes && !Eq(Coefficient(Kept()[q], numRegressions, a + 1), 0.0))
      {
        var used := UsedOf(coefficients[j], numAttributes);
        usedAttributes := usedAttributes + [used];
        j := j + 1;
      }
    }
  }

  /** The inner loop of getCoefficients for one class, on a zeroed row. */
  method AccumulateClass(row: array<real>, regs: seq<Regression>, m: nat)
    requires m <= |regs| && row.Length >= 1
    requires forall i :: 0 <= i < m ==> -1 <= regs[i].attribute < row.Length - 1
    requires forall s :: 0 <= s < row.Length ==> row[s] == 0.0
    modifies row
    ensures row[..] == Coefficients(regs, m, row.Length)
  {
    var i := 0;
    while i < m
      invariant 0 <= i <= m
      invariant forall s :: 0 <= s < row.Length ==> row[s] == Coefficient(regs, i, s)
    {
      var regression := regs[i];
      row[0] := row[0] + regression.intercept;
      row[regression.attribute + 1] := row[regression.attribute + 1] + regression.slope;
      i := i + 1;
    }
  }

  /** The used attributes of one class, from its coefficient vector. */
  method UsedOf(coefficients: seq<real>, numAttributes: nat) returns (used: seq<int>)
    requires numAttributes < |coefficients|
    ensures StrictlyAscending(used)
    ensures forall a :: a in used <==> 0 <= a < numAttributes && !Eq(coefficients[a + 1], 0.0)
  {
    var attributes := new bool[numAttributes];
    var i := 0;
    while i < numAttributes
      invariant 0 <= i <= numAttributes
      invariant forall a :: 0 <= a < i ==> attributes[a] == !Eq(coefficients[a + 1], 0.0)
    {
      attributes[i] := !Eq(coefficients[i + 1], 0.0);
      i := i + 1;
    }
    used := Collect(attributes);
    UsedMembers(attributes[..], numAttributes);
  }

  predicate StrictlyAscending(s: seq<int>)
  {
    forall i, k :: 0 <= i < k < |s| ==> s[i] < s[k]
  }

  /** The indices below n whose flag is set, in ascending order. */
  function UsedBelow(flags: seq<bool>, n: nat): (s: seq<int>)
    requires n <= |flags|
    ensures forall i :: 0 <= i < |s| ==> 0 <= s[i] < n
  {
    if n == 0 then [] else UsedBelow(flags, n - 1) + (if flags[n - 1] then [n - 1] else [])
  }

  lemma {:induction false} UsedMembers(flags: seq<bool>, n: nat)
    requires n <= |flags|
    ensures StrictlyAscending(UsedBelow(flags, n))
    ensures forall a :: a in UsedBelow(flags, n) <==> 0 <= a < n && flags[a]
  {
    if n > 0 {
      UsedMembers(flags, n - 1);
    }
  }

  /** The counting and collecting loops of getUsedAttributes. */
  method Collect(attributes: array<bool>) returns (used: seq<int>)
    ensures used == UsedBelow(attributes[..], attributes.Length)
  {
    ghost var flags := attributes[..];
    var numAttributes := 0;
    var i := 0;
    while i < attributes.Length
      invariant 0 <= i <= attributes.Length
      invariant numAttributes == |UsedBelow(flags, i)|
    {
      if attributes[i] {
        numAttributes := numAttributes + 1;
      }
      i := i + 1;
    }
    var usedAttributesClass := new int[numAttributes];
    var count := 0;
    i := 0;
    while i < attributes.Length
      invariant 0 <= i <= attributes.Length
      invariant count == |UsedBelow(flags, i)| <= numAttributes
      invariant usedAttributesClass[..count] == UsedBelow(flags, i)
    {
      UsedLength(flags, i + 1, attributes.Length);
      if attributes[i] {
        usedAttributesClass[count] := i;
        count := count + 1;
      }
      i := i + 1;
    }
    used := usedAttributesClass[..];
  }


  lemma {:induction false} UsedLength(flags: seq<bool>, i: nat, n: nat)
    requires i <= n <= |flags|
    ensures |UsedBelow(flags, i)| <= |UsedBelow(flags, n)|
    decreases n - i
  {
    if i < n {
      UsedLength(flags, i, n - 1);
    }
  }
}
