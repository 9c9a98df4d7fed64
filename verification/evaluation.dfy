/** Metrics over exact reals and the walk-forward evaluation harness. */
module Evaluation {
  import opened Aggregates
  import opened Ascents
  import opened Splits

  /** One row of the feature matrix: features, label, forward return. */
  datatype Sample = Sample(x: seq<Float>, y: int, fwd: real)

  // --- classification -------------------------------------------------------------------

  function Hits(yt: seq<int>, yp: seq<int>): nat
    requires |yt| == |yp|
  {
    if yt == [] then 0 else (if yt[0] == yp[0] then 1 else 0) + Hits(yt[1..], yp[1..])
  }

  function CountOf(yt: seq<int>, c: int): nat {
    if yt == [] then 0 else (if yt[0] == c then 1 else 0) + CountOf(yt[1..], c)
  }

  /** Rows of class c that were predicted c. */
  function HitsOf(yt: seq<int>, yp: seq<int>, c: int): nat
    requires |yt| == |yp|
  {
    if yt == [] then 0 else (if yt[0] == c && yp[0] == c then 1 else 0) + HitsOf(yt[1..], yp[1..], c)
  }

  function Accuracy(yt: seq<int>, yp: seq<int>): Float
    requires |yt| == |yp|
  {
    Ratio(Hits(yt, yp) as real, |yt| as real)
  }

  /** `np.unique`: the distinct values, ascending. */
  function Unique(yt: seq<int>): seq<int> {
    if yt == [] then [] else InsertKey(yt[0], Unique(yt[1..]))
  }

  function Recall(yt: seq<int>, yp: seq<int>, c: int): real
    requires |yt| == |yp| && CountOf(yt, c) > 0
  {
    HitsOf(yt, yp, c) as real / CountOf(yt, c) as real
  }

  function RecallSum(yt: seq<int>, yp: seq<int>, cs: seq<int>): real
    requires |yt| == |yp| && forall c :: c in cs ==> CountOf(yt, c) > 0
  {
    if cs == [] then 0.0
    else RecallSum(yt, yp, cs[..|cs| - 1]) + Recall(yt, yp, cs[|cs| - 1])
  }

  lemma {:induction false} UniqueMeaning(yt: seq<int>)
    ensures Ascending(Unique(yt))
    ensures forall c :: c in Unique(yt) <==> CountOf(yt, c) > 0
    ensures Unique(yt) == [] <==> yt == []
  {
    if yt != [] {
      UniqueMeaning(yt[1..]);
      InsertKeyKeeps(yt[0], Unique(yt[1..]));
      assert yt[0] in Unique(yt);
    }
  }

  function BalancedAccuracy(yt: seq<int>, yp: seq<int>): Float
    requires |yt| == |yp|
  {
    UniqueMeaning(yt);
    Ratio(RecallSum(yt, yp, Unique(yt)), |Unique(yt)| as real)
  }

  /** The recall loop. */
  method ComputeBalancedAccuracy(yt: seq<int>, yp: seq<int>) returns (bal: Float)
    requires |yt| == |yp|
    ensures bal == BalancedAccuracy(yt, yp)
  {
    UniqueMeaning(yt);
    var classes := Unique(yt);
    var total, n := 0.0, 0;
    for i := 0 to |classes|
      invariant n == i && total == RecallSum(yt, yp, classes[..i])
    {
      assert classes[i] in classes;
      assert classes[..i + 1][..i] == classes[..i];
      total := total + Recall(yt, yp, classes[i]);
      n := n + 1;
    }
    assert classes[..|classes|] == classes;
    bal := if n == 0 then Null else Num(total / n as real);
  }

  // --- what balanced accuracy promises -----------------------------------------------------

  function Constant(c: int, n: nat): (r: seq<int>)
    ensures |r| == n && forall i :: 0 <= i < n ==> r[i] == c
  {
    seq(n, _ => c)
  }

  lemma {:induction false} ConstantHits(yt: seq<int>, c: int, d: int)
    ensures HitsOf(yt, Constant(c, |yt|), d) == if c == d then CountOf(yt, d) else 0
  {
    if yt != [] {
      ConstantHits(yt[1..], c, d);
      assert Constant(c, |yt|)[1..] == Constant(c, |yt[1..]|);
    }
  }

  lemma Quotient(a: real, b: real, q: real)
    requires b > 0.0 && a == q * b
    ensures a / b == q
  {
    var r := a / b;
    assert r * b == a;
    assert (r - q) * b == r * b - q * b == 0.0;
  }

  lemma {:induction false} ConstantRecall(yt: seq<int>, c: int, d: int)
    requires CountOf(yt, d) > 0
    ensures Recall(yt, Constant(c, |yt|), d) == if c == d then 1.0 else 0.0
  {
    ConstantHits(yt, c, d);
    var n := CountOf(yt, d) as real;
    Quotient(if c == d then n else 0.0, n, if c == d then 1.0 else 0.0);
  }

  lemma {:induction false} ConstantRecallSum(yt: seq<int>, c: int, cs: seq<int>)
    requires Ascending(cs) && forall d :: d in cs ==> CountOf(yt, d) > 0
    ensures RecallSum(yt, Constant(c, |yt|), cs) == if c in cs then 1.0 else 0.0
  {
    if cs != [] {
      var front, last := cs[..|cs| - 1], cs[|cs| - 1];
      assert cs == front + [last];
      assert last in cs && last !in front;
      ConstantRecallSum(yt, c, front);
      ConstantRecall(yt, c, last);
    }
  }

  /** A lazy predictor that always answers one class scores exactly one over the number of
      classes, however unbalanced the data; an absent class scores zero. */
  lemma {:induction false} LazyPredictorScoresChance(yt: seq<int>, c: int)
    requires yt != []
    ensures BalancedAccuracy(yt, Constant(c, |yt|))
            == Num((if CountOf(yt, c) > 0 then 1.0 else 0.0) / |Unique(yt)| as real)
  {
    UniqueMeaning(yt);
    ConstantRecallSum(yt, c, Unique(yt));
  }

  // --- strategy -------------------------------------------------------------------------------

  function Sign(y: int): int {
    if y > 0 then 1 else if y < 0 then -1 else 0
  }

  /** Net return of acting on one prediction. */
  function Net(y: int, fwd: real, cost: real): real {
    Sign(y) as real * fwd - if Sign(y) != 0 then cost else 0.0
  }

  function TotalNet(yp: seq<int>, fwd: seq<real>, cost: real): real
    requires |yp| == |fwd|
  {
    if yp == [] then 0.0 else Net(yp[0], fwd[0], cost) + TotalNet(yp[1..], fwd[1..], cost)
  }

  function TradeCount(yp: seq<int>): nat {
    if yp == [] then 0 else (if Sign(yp[0]) != 0 then 1 else 0) + TradeCount(yp[1..])
  }

  function Wins(yp: seq<int>, fwd: seq<real>, cost: real): nat
    requires |yp| == |fwd|
  {
    if yp == [] then 0
    else (if Sign(yp[0]) != 0 && Net(yp[0], fwd[0], cost) > 0.0 then 1 else 0) + Wins(yp[1..], fwd[1..], cost)
  }

  function Product(a: real, b: real): real {
    a * b
  }

  lemma OfPositive(a: real, b: real)
    requires a > 0.0 && b > 0.0
    ensures Product(a, b) > 0.0 && a / b > 0.0
  {
  }

  lemma OfNegative(a: real, b: real)
    requires a < 0.0 && b < 0.0
    ensures Product(a, b) > 0.0
  {
  }

  lemma OfZero(a: real, b: real)
    requires a == 0.0
    ensures Product(a, b) == 0.0
  {
  }

  lemma SquareSign(d: real)
    ensures Product(d, d) >= 0.0 && (Product(d, d) == 0.0 <==> d == 0.0)
  {
    hide Product;
    if d > 0.0 {
      OfPositive(d, d);
    } else if d < 0.0 {
      OfNegative(d, d);
    } else {
      OfZero(d, d);
    }
  }

  /** The squared distances of the net returns from `m`, summed. */
  function Deviation(yp: seq<int>, fwd: seq<real>, cost: real, m: real): real
    requires |yp| == |fwd|
  {
    if yp == [] then 0.0
    else
      var d := Net(yp[0], fwd[0], cost) - m;
      Product(d, d) + Deviation(yp[1..], fwd[1..], cost, m)
  }

  function MeanNet(yp: seq<int>, fwd: seq<real>, cost: real): real
    requires |yp| == |fwd| > 0
  {
    TotalNet(yp, fwd, cost) / |yp| as real
  }

  /** The square of `np.std`. */
  function Variance(yp: seq<int>, fwd: seq<real>, cost: real): real
    requires |yp| == |fwd| > 0
  {
    Deviation(yp, fwd, cost, MeanNet(yp, fwd, cost)) / |yp| as real
  }

  /** The per-bar Sharpe ratio: undefined, or the mean over the root of the variance. */
  datatype Sharpe = Undefined | MeanOverRoot(mean: real, variance: real)

  function SharpeOf(yp: seq<int>, fwd: seq<real>, cost: real): Sharpe
    requires |yp| == |fwd|
  {
    if yp == [] || Variance(yp, fwd, cost) <= 0.0 then Undefined
    else MeanOverRoot(MeanNet(yp, fwd, cost), Variance(yp, fwd, cost))
  }

  lemma {:induction false} NoDeviation(yp: seq<int>, fwd: seq<real>, cost: real, m: real)
    requires |yp| == |fwd|
    ensures Deviation(yp, fwd, cost, m) >= 0.0
    ensures Deviation(yp, fwd, cost, m) == 0.0 <==> forall i :: 0 <= i < |yp| ==> Net(yp[i], fwd[i], cost) == m
  {
    hide Net, Product;
    if yp != [] {
      var d := Net(yp[0], fwd[0], cost) - m;
      SquareSign(d);
      NoDeviation(yp[1..], fwd[1..], cost, m);
      assert forall i :: 1 <= i < |yp| ==> yp[i] == yp[1..][i - 1] && fwd[i] == fwd[1..][i - 1];
      assert forall i :: 0 <= i < |yp| - 1 ==> yp[1..][i] == yp[i + 1] && fwd[1..][i] == fwd[i + 1];
    }
  }

  lemma {:induction false} TotalOfEqual(yp: seq<int>, fwd: seq<real>, cost: real, m: real)
    requires |yp| == |fwd| && forall i :: 0 <= i < |yp| ==> Net(yp[i], fwd[i], cost) == m
    ensures TotalNet(yp, fwd, cost) == m * |yp| as real
  {
    hide Net;
    if yp != [] {
      assert forall i :: 0 <= i < |yp| - 1 ==> yp[1..][i] == yp[i + 1] && fwd[1..][i] == fwd[i + 1];
      TotalOfEqual(yp[1..], fwd[1..], cost, m);
      assert m * |yp| as real == m + m * |yp[1..]| as real;
    }
  }

  /** The Sharpe ratio is undefined exactly if there is no row or all net returns are the same. */
  lemma {:induction false} SharpeUndefinedIff(yp: seq<int>, fwd: seq<real>, cost: real)
    requires |yp| == |fwd|
    ensures SharpeOf(yp, fwd, cost) == Undefined
            <==> forall i, j :: 0 <= i < j < |yp| ==> Net(yp[i], fwd[i], cost) == Net(yp[j], fwd[j], cost)
  {
    hide Net, Deviation, TotalNet;
    if yp != [] {
      var m, n := MeanNet(yp, fwd, cost), |yp| as real;
      var dev := Deviation(yp, fwd, cost, m);
      NoDeviation(yp, fwd, cost, m);
      assert dev / n <= 0.0 <==> dev == 0.0 by {
        if dev > 0.0 {
          OfPositive(dev, n);
        }
      }
      if forall i, j :: 0 <= i < j < |yp| ==> Net(yp[i], fwd[i], cost) == Net(yp[j], fwd[j], cost) {
        var first := Net(yp[0], fwd[0], cost);
        assert forall i :: 0 <= i < |yp| ==> Net(yp[i], fwd[i], cost) == first;
        TotalOfEqual(yp, fwd, cost, first);
        Quotient(first * n, n, first);
      }
    }
  }

  datatype Metrics = Metrics(n: nat, hits: nat, accuracy: Float, balanced: Float, nTrades: nat, wins: nat,
                             hitRate: Float, totalNet: real, meanNet: Float, sharpe: Sharpe)

  function MetricsOf(yt: seq<int>, yp: seq<int>, fwd: seq<real>, cost: real): Metrics
    requires |yt| == |yp| == |fwd|
  {
    Metrics(|yt|, Hits(yt, yp), Accuracy(yt, yp), BalancedAccuracy(yt, yp),
            TradeCount(yp), Wins(yp, fwd, cost),
            Ratio(Wins(yp, fwd, cost) as real, TradeCount(yp) as real),
            TotalNet(yp, fwd, cost), Ratio(TotalNet(yp, fwd, cost), |yp| as real), SharpeOf(yp, fwd, cost))
  }

  // --- the harness -------------------------------------------------------------------------------

  /** A fresh model per fold: fitted on training features and labels, then asked for one
      prediction per test row. */
  datatype Model = Model(fitPredict: (seq<(seq<Float>, int)>, seq<seq<Float>>) -> seq<int>)

  ghost predicate AnswersEveryRow(m: Model) {
    forall train, xs :: |m.fitPredict(train, xs)| == |xs|
  }

  /** The predicted fold: its true labels, predictions and forward returns. */
  datatype Fold = Fold(trainSize: nat, yt: seq<int>, yp: seq<int>, fwd: seq<real>)

  predicate Indexes(idx: seq<int>, n: nat) {
    forall i :: 0 <= i < |idx| ==> 0 <= idx[i] < n
  }

  function Labels(s: seq<Sample>, idx: seq<int>): (r: seq<int>)
    requires Indexes(idx, |s|)
    ensures |r| == |idx| && forall i :: 0 <= i < |r| ==> r[i] == s[idx[i]].y
  {
    seq(|idx|, i requires 0 <= i < |idx| => s[idx[i]].y)
  }

  function Xs(s: seq<Sample>, idx: seq<int>): (r: seq<seq<Float>>)
    requires Indexes(idx, |s|)
    ensures |r| == |idx| && forall i :: 0 <= i < |r| ==> r[i] == s[idx[i]].x
  {
    seq(|idx|, i requires 0 <= i < |idx| => s[idx[i]].x)
  }

  function Fwds(s: seq<Sample>, idx: seq<int>): (r: seq<real>)
    requires Indexes(idx, |s|)
    ensures |r| == |idx| && forall i :: 0 <= i < |r| ==> r[i] == s[idx[i]].fwd
  {
    seq(|idx|, i requires 0 <= i < |idx| => s[idx[i]].fwd)
  }

  function TrainRows(s: seq<Sample>, idx: seq<int>): (r: seq<(seq<Float>, int)>)
    requires Indexes(idx, |s|)
    ensures |r| == |idx| && forall i :: 0 <= i < |r| ==> r[i] == (s[idx[i]].x, s[idx[i]].y)
  {
    seq(|idx|, i requires 0 <= i < |idx| => (s[idx[i]].x, s[idx[i]].y))
  }

  predicate SplitFits(sp: Split, n: nat) {
    Indexes(sp.train, n) && Indexes(sp.test, n)
  }

  /** A classifier cannot learn from one label. */
  predicate SingleClass(s: seq<Sample>, sp: Split)
    requires SplitFits(sp, |s|)
  {
    |Unique(Labels(s, sp.train))| < 2
  }

  function RunFold(s: seq<Sample>, sp: Split, m: Model): Fold
    requires SplitFits(sp, |s|)
  {
    Fold(|sp.train|, Labels(s, sp.test), m.fitPredict(TrainRows(s, sp.train), Xs(s, sp.test)), Fwds(s, sp.test))
  }

  predicate AllFit(splits: seq<Split>, n: nat) {
    forall i :: 0 <= i < |splits| ==> SplitFits(splits[i], n)
  }

  /** The folds actually predicted among the first k splits. */
  function Usable(s: seq<Sample>, splits: seq<Split>, k: nat, m: Model): seq<Fold>
    requires k <= |splits| && AllFit(splits, |s|)
  {
    if k == 0 then []
    else
      Usable(s, splits, k - 1, m)
      + if SingleClass(s, splits[k - 1]) then [] else [RunFold(s, splits[k - 1], m)]
  }

  predicate FoldOk(f: Fold) {
    |f.yt| == |f.yp| == |f.fwd|
  }

  function JoinTrue(fs: seq<Fold>): seq<int> {
    if fs == [] then [] else JoinTrue(fs[..|fs| - 1]) + fs[|fs| - 1].yt
  }

  function JoinPred(fs: seq<Fold>): seq<int> {
    if fs == [] then [] else JoinPred(fs[..|fs| - 1]) + fs[|fs| - 1].yp
  }

  function JoinFwd(fs: seq<Fold>): seq<real> {
    if fs == [] then [] else JoinFwd(fs[..|fs| - 1]) + fs[|fs| - 1].fwd
  }

  lemma {:induction false} JoinsAligned(fs: seq<Fold>)
    requires forall f :: f in fs ==> FoldOk(f)
    ensures |JoinTrue(fs)| == |JoinPred(fs)| == |JoinFwd(fs)|
  {
    if fs != [] {
      assert fs[|fs| - 1] in fs;
      JoinsAligned(fs[..|fs| - 1]);
    }
  }

  function FoldMetrics(f: Fold, cost: real): Metrics
    requires FoldOk(f)
  {
    MetricsOf(f.yt, f.yp, f.fwd, cost)
  }

  function AllMetrics(fs: seq<Fold>, cost: real): (r: seq<Metrics>)
    requires forall f :: f in fs ==> FoldOk(f)
    ensures |r| == |fs| && forall i :: 0 <= i < |r| ==> fs[i] in fs && r[i] == FoldMetrics(fs[i], cost)
  {
    seq(|fs|, i requires 0 <= i < |fs| => assert fs[i] in fs; FoldMetrics(fs[i], cost))
  }

  /** The training size of each fold. */
  function Trained(fs: seq<Fold>): (r: seq<nat>)
    ensures |r| == |fs| && forall i :: 0 <= i < |r| ==> r[i] == fs[i].trainSize
  {
    seq(|fs|, i requires 0 <= i < |fs| => fs[i].trainSize)
  }

  datatype Report = Report(nSamples: nat, nSkipped: int, pooled: Metrics, perFold: seq<Metrics>, trained: seq<nat>)

  datatype EvalResult = Evaluated(report: Report) | NoUsableFolds | BadArguments

  lemma {:induction false} UsableOk(s: seq<Sample>, splits: seq<Split>, k: nat, m: Model)
    requires k <= |splits| && AllFit(splits, |s|) && AnswersEveryRow(m)
    ensures |Usable(s, splits, k, m)| <= k
    ensures forall f :: f in Usable(s, splits, k, m) ==> FoldOk(f)
  {
    if k > 0 {
      UsableOk(s, splits, k - 1, m);
    }
  }

  lemma SplitsFit(p: Plan)
    requires WellFormed(p) && p.minTrain >= 1
    ensures AllFit(Upto(p, p.folds), p.n)
  {
    forall i | 0 <= i < |Upto(p, p.folds)| ensures SplitFits(Upto(p, p.folds)[i], p.n) {
      SurvivingFold(p, i);
      TestBlockNonempty(p, FirstFold(p, p.folds) + i);
    }
  }

  /** What an evaluation reports, given its usable folds. */
  function Summarise(n: nat, splits: nat, fs: seq<Fold>, cost: real): EvalResult
    requires forall f :: f in fs ==> FoldOk(f)
  {
    if fs == [] then NoUsableFolds
    else
      JoinsAligned(fs);
      Evaluated(Report(n, splits - |fs|, MetricsOf(JoinTrue(fs), JoinPred(fs), JoinFwd(fs), cost),
                       AllMetrics(fs, cost), Trained(fs)))
  }

  ghost function Expected(s: seq<Sample>, m: Model, p: Plan, cost: real): EvalResult
    requires AnswersEveryRow(m) && p.n == |s| && p.minTrain >= 1
  {
    if !WellFormed(p) then BadArguments
    else
      SplitsFit(p);
      var splits := Upto(p, p.folds);
      UsableOk(s, splits, |splits|, m);
      Summarise(|s|, |splits|, Usable(s, splits, |splits|, m), cost)
  }

  lemma {:induction false} JoinSnoc(fs: seq<Fold>, f: Fold)
    ensures JoinTrue(fs + [f]) == JoinTrue(fs) + f.yt
    ensures JoinPred(fs + [f]) == JoinPred(fs) + f.yp
    ensures JoinFwd(fs + [f]) == JoinFwd(fs) + f.fwd
  {
    assert (fs + [f])[..|fs + [f]| - 1] == fs;
  }

  lemma {:induction false} MetricsSnoc(fs: seq<Fold>, f: Fold, cost: real)
    requires (forall g :: g in fs ==> FoldOk(g)) && FoldOk(f)
    ensures forall g :: g in fs + [f] ==> FoldOk(g)
    ensures AllMetrics(fs + [f], cost) == AllMetrics(fs, cost) + [FoldMetrics(f, cost)]
  {
  }

  /** Fit a fresh model on one fold's training rows and predict its test rows. */
  method PredictFold(s: seq<Sample>, sp: Split, m: Model) returns (f: Fold)
    requires AnswersEveryRow(m) && SplitFits(sp, |s|)
    ensures f == RunFold(s, sp, m) && FoldOk(f)
  {
    var pred := m.fitPredict(TrainRows(s, sp.train), Xs(s, sp.test));
    f := Fold(|sp.train|, Labels(s, sp.test), pred, Fwds(s, sp.test));
  }

  /** The accumulators of the evaluation loop hold the folds done so far. */
  ghost predicate Accumulated(done: seq<Fold>, yt: seq<int>, yp: seq<int>, fwd: seq<real>,
                              perFold: seq<Metrics>, trained: seq<nat>, cost: real)
  {
    && (forall f :: f in done ==> FoldOk(f))
    && yt == JoinTrue(done) && yp == JoinPred(done) && fwd == JoinFwd(done)
    && perFold == AllMetrics(done, cost) && trained == Trained(done)
  }

  lemma NothingAccumulated(cost: real)
    ensures Accumulated([], [], [], [], [], [], cost)
  {
  }

  lemma AccumulateFold(done: seq<Fold>, yt: seq<int>, yp: seq<int>, fwd: seq<real>,
                       perFold: seq<Metrics>, trained: seq<nat>, f: Fold, cost: real)
    requires Accumulated(done, yt, yp, fwd, perFold, trained, cost) && FoldOk(f)
    ensures Accumulated(done + [f], yt + f.yt, yp + f.yp, fwd + f.fwd, perFold + [FoldMetrics(f, cost)],
                        trained + [f.trainSize], cost)
  {
    hide FoldMetrics, JoinTrue, JoinPred, JoinFwd;
    JoinSnoc(done, f);
    MetricsSnoc(done, f, cost);
  }

  lemma AccumulatedSummary(done: seq<Fold>, yt: seq<int>, yp: seq<int>, fwd: seq<real>,
                           perFold: seq<Metrics>, trained: seq<nat>, n: nat, splits: nat, cost: real)
    requires Accumulated(done, yt, yp, fwd, perFold, trained, cost)
    ensures |yt| == |yp| == |fwd|
    ensures Summarise(n, splits, done, cost)
            == if perFold == [] then NoUsableFolds
               else Evaluated(Report(n, splits - |done|, MetricsOf(yt, yp, fwd, cost), perFold, trained))
  {
    JoinsAligned(done);
  }

  method Evaluate(s: seq<Sample>, m: Model, folds: int, horizon: int, embargo: int, cost: real)
    returns (r: EvalResult)
    requires AnswersEveryRow(m)
    ensures r == Expected(s, m, Plan(|s|, folds, horizon, embargo, 1), cost)
  {
    hide MetricsOf, FoldMetrics, Summarise, Unique, Labels, Upto;
    NothingAccumulated(cost);
    hide Accumulated;
    var p := Plan(|s|, folds, horizon, embargo, 1);
    var w := WalkForwardSplits(p);
    if w.ValueError? {
      return BadArguments;
    }
    SplitsFit(p);
    var splits := w.splits;
    var oosTrue, oosPred, oosFwd, perFold, skipped := [], [], [], [], 0;
    var trained: seq<nat> := [];
    ghost var done: seq<Fold> := [];
    for i := 0 to |splits|
      invariant done == Usable(s, splits, i, m)
      invariant Accumulated(done, oosTrue, oosPred, oosFwd, perFold, trained, cost) && skipped == i - |done|
    {
      var sp := splits[i];
      if |Unique(Labels(s, sp.train))| < 2 {
        skipped := skipped + 1;
        continue;
      }
      var f := PredictFold(s, sp, m);
      AccumulateFold(done, oosTrue, oosPred, oosFwd, perFold, trained, f, cost);
      oosTrue, oosPred, oosFwd := oosTrue + f.yt, oosPred + f.yp, oosFwd + f.fwd;
      perFold, trained := perFold + [FoldMetrics(f, cost)], trained + [|sp.train|];
      done := done + [f];
    }
    AccumulatedSummary(done, oosTrue, oosPred, oosFwd, perFold, trained, |s|, |splits|, cost);
    if perFold == [] {
      return NoUsableFolds;
    }
    r := Evaluated(Report(|s|, skipped, MetricsOf(oosTrue, oosPred, oosFwd, cost), perFold, trained));
  }

  // --- pooled metrics agree with the folds ------------------------------------------------------------

  lemma {:induction false} MetricsAdd(at: seq<int>, ap: seq<int>, af: seq<real>,
                                      bt: seq<int>, bp: seq<int>, bf: seq<real>, cost: real)
    requires |at| == |ap| == |af| && |bt| == |bp| == |bf|
    ensures Hits(at + bt, ap + bp) == Hits(at, ap) + Hits(bt, bp)
    ensures TradeCount(ap + bp) == TradeCount(ap) + TradeCount(bp)
    ensures Wins(ap + bp, af + bf, cost) == Wins(ap, af, cost) + Wins(bp, bf, cost)
    ensures TotalNet(ap + bp, af + bf, cost) == TotalNet(ap, af, cost) + TotalNet(bp, bf, cost)
  {
    if at == [] {
      assert at + bt == bt && ap + bp == bp && af + bf == bf;
    } else {
      MetricsAdd(at[1..], ap[1..], af[1..], bt, bp, bf, cost);
      assert (at + bt)[1..] == at[1..] + bt;
      assert (ap + bp)[1..] == ap[1..] + bp;
      assert (af + bf)[1..] == af[1..] + bf;
    }
  }

  function SumN(ms: seq<Metrics>): nat {
    if ms == [] then 0 else SumN(ms[..|ms| - 1]) + ms[|ms| - 1].n
  }

  function SumHits(ms: seq<Metrics>): nat {
    if ms == [] then 0 else SumHits(ms[..|ms| - 1]) + ms[|ms| - 1].hits
  }

  function SumTrades(ms: seq<Metrics>): nat {
    if ms == [] then 0 else SumTrades(ms[..|ms| - 1]) + ms[|ms| - 1].nTrades
  }

  function SumNet(ms: seq<Metrics>): real {
    if ms == [] then 0.0 else SumNet(ms[..|ms| - 1]) + ms[|ms| - 1].totalNet
  }

  /** Sum of fold accuracies weighted by fold sizes. */
  function WeightedAccuracy(ms: seq<Metrics>): real {
    if ms == [] then 0.0
    else WeightedAccuracy(ms[..|ms| - 1]) + ms[|ms| - 1].n as real * OrZero(ms[|ms| - 1].accuracy)
  }

  lemma {:induction false} NoHitsWithoutRows(yt: seq<int>, yp: seq<int>)
    requires |yt| == |yp|
    ensures |yt| as real * OrZero(Accuracy(yt, yp)) == Hits(yt, yp) as real
  {
    RatioUndone(Hits(yt, yp) as real, |yt| as real);
  }

  /** The totals of a fold sequence. */
  ghost predicate PooledTotals(fs: seq<Fold>, ms: seq<Metrics>, cost: real)
    requires |JoinTrue(fs)| == |JoinPred(fs)| == |JoinFwd(fs)|
  {
    && |JoinTrue(fs)| == SumN(ms)
    && Hits(JoinTrue(fs), JoinPred(fs)) == SumHits(ms)
    && TradeCount(JoinPred(fs)) == SumTrades(ms)
    && TotalNet(JoinPred(fs), JoinFwd(fs), cost) == SumNet(ms)
    && WeightedAccuracy(ms) == SumHits(ms) as real
  }

  /** The additive columns of one fold's metrics. */
  ghost predicate Scores(x: Metrics, f: Fold, cost: real)
    requires FoldOk(f)
  {
    && x.n == |f.yt| && x.hits == Hits(f.yt, f.yp)
    && x.nTrades == TradeCount(f.yp) && x.totalNet == TotalNet(f.yp, f.fwd, cost)
    && x.n as real * OrZero(x.accuracy) == x.hits as real
  }

  lemma FoldScores(f: Fold, cost: real)
    requires FoldOk(f)
    ensures Scores(FoldMetrics(f, cost), f, cost)
  {
    hide Hits, Wins, TradeCount, TotalNet, BalancedAccuracy;
    NoHitsWithoutRows(f.yt, f.yp);
  }

  lemma JoinedScores(fs: seq<Fold>, f: Fold, cost: real)
    requires |JoinTrue(fs)| == |JoinPred(fs)| == |JoinFwd(fs)| && FoldOk(f)
    ensures |JoinTrue(fs + [f])| == |JoinPred(fs + [f])| == |JoinFwd(fs + [f])| == |JoinTrue(fs)| + |f.yt|
    ensures Hits(JoinTrue(fs + [f]), JoinPred(fs + [f])) == Hits(JoinTrue(fs), JoinPred(fs)) + Hits(f.yt, f.yp)
    ensures TradeCount(JoinPred(fs + [f])) == TradeCount(JoinPred(fs)) + TradeCount(f.yp)
    ensures TotalNet(JoinPred(fs + [f]), JoinFwd(fs + [f]), cost)
            == TotalNet(JoinPred(fs), JoinFwd(fs), cost) + TotalNet(f.yp, f.fwd, cost)
  {
    JoinSnoc(fs, f);
    MetricsAdd(JoinTrue(fs), JoinPred(fs), JoinFwd(fs), f.yt, f.yp, f.fwd, cost);
  }

  lemma {:induction false} SumsSnoc(ms: seq<Metrics>, x: Metrics)
    ensures SumN(ms + [x]) == SumN(ms) + x.n
    ensures SumHits(ms + [x]) == SumHits(ms) + x.hits
    ensures SumTrades(ms + [x]) == SumTrades(ms) + x.nTrades
    ensures SumNet(ms + [x]) == SumNet(ms) + x.totalNet
    ensures WeightedAccuracy(ms + [x]) == WeightedAccuracy(ms) + x.n as real * OrZero(x.accuracy)
  {
    var more := ms + [x];
    assert more[..|more| - 1] == ms;
  }

  lemma PooledStep(fs: seq<Fold>, f: Fold, ms: seq<Metrics>, x: Metrics, cost: real)
    requires (forall g :: g in fs ==> FoldOk(g)) && FoldOk(f) && Scores(x, f, cost)
    requires |JoinTrue(fs)| == |JoinPred(fs)| == |JoinFwd(fs)| && PooledTotals(fs, ms, cost)
    ensures |JoinTrue(fs + [f])| == |JoinPred(fs + [f])| == |JoinFwd(fs + [f])|
    ensures PooledTotals(fs + [f], ms + [x], cost)
  {
    JoinedScores(fs, f, cost);
    SumsSnoc(ms, x);
  }

  lemma NothingPooled(cost: real)
    ensures PooledTotals([], AllMetrics([], cost), cost)
  {
  }

  lemma {:induction false} PooledSums(fs: seq<Fold>, cost: real)
    requires forall f :: f in fs ==> FoldOk(f)
    ensures |JoinTrue(fs)| == |JoinPred(fs)| == |JoinFwd(fs)|
    ensures PooledTotals(fs, AllMetrics(fs, cost), cost)
  {
    hide FoldMetrics, PooledTotals, Scores, JoinTrue, JoinPred, JoinFwd, FoldOk;
    JoinsAligned(fs);
    if fs == [] {
      NothingPooled(cost);
    } else {
      var front, f := fs[..|fs| - 1], fs[|fs| - 1];
      assert f in fs;
      JoinsAligned(front);
      PooledSums(front, cost);
      FoldScores(f, cost);
      PooledStep(front, f, AllMetrics(front, cost), FoldMetrics(f, cost), cost);
      assert fs == front + [f];
      MetricsSnoc(front, f, cost);
    }
  }

  /** Every report: usable plus skipped folds make up the splits; the pooled row count, trades
      and net return are the sums over the usable folds; and pooled accuracy is the
      size-weighted mean of the fold accuracies. */
  lemma PooledAgreesWithFolds(s: seq<Sample>, m: Model, p: Plan, cost: real)
    requires AnswersEveryRow(m) && p.n == |s| && p.minTrain >= 1
    ensures var r := Expected(s, m, p, cost);
            r.Evaluated? ==>
              var pooled, ms := r.report.pooled, r.report.perFold;
              && WellFormed(p)
              && |ms| + r.report.nSkipped == |Upto(p, p.folds)| && r.report.nSkipped >= 0
              && pooled.n == SumN(ms)
              && pooled.nTrades == SumTrades(ms)
              && pooled.totalNet == SumNet(ms)
              && pooled.accuracy == Ratio(WeightedAccuracy(ms), SumN(ms) as real)
  {
    if WellFormed(p) {
      SplitsFit(p);
      var splits := Upto(p, p.folds);
      UsableOk(s, splits, |splits|, m);
      PooledSums(Usable(s, splits, |splits|, m), cost);
    }
  }
}
