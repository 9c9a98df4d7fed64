/** One experiment: load the days, build the matrix, evaluate, with one horizon for labels and splits. */
module Experiments {
  import opened Aggregates
  import opened Features
  import opened Splits
  import opened Leakage
  import opened Evaluation
  import opened Pipeline
  import opened Reports

  lemma {:induction false} SampleCount(days: seq<Day>, s: Settings)
    ensures |Samples(days, s)| == PlanOf(days, s).n
  {
    MatrixIsKeptRows(days, s);
  }

  /** What `main` computes, for a model that answers every row. */
  method RunExperiment(days: seq<Day>, s: Settings, m: Model) returns (r: Outcome<EvalResult>)
    requires AnswersEveryRow(m)
    ensures |Samples(days, s)| == PlanOf(days, s).n
    ensures r == if AllRows(days, s.p) == [] then Failed
                 else Outcome.Ok(Expected(Samples(days, s), m, PlanOf(days, s), s.p.cost))
  {
    hide Expected, FeatureMatrix, Kept;
    SampleCount(days, s);
    var loaded := LoadFeatures(days, s.p);
    if loaded.Failed? {
      return Failed;
    }
    var matrix := FeatureMatrix(loaded.value, s.cols);
    var result := Evaluate(matrix, m, s.folds, s.p.h, s.embargo, s.p.cost);
    return Outcome.Ok(result);
  }

  /** Training rows as the model takes them. */
  function Pairs(t: seq<Labelled>): (r: seq<(seq<Float>, int)>)
    ensures |r| == |t| && forall i :: 0 <= i < |r| ==> r[i] == (t[i].x, t[i].y)
  {
    seq(|t|, i requires 0 <= i < |t| => (t[i].x, t[i].y))
  }

  /** The report of an experiment entry by entry: the pooled one is over test rows of the matrix, each with
      its own label and return, and each fold's model was given that fold's training set of the two-run
      statements and nothing else. */
  lemma {:induction false} ReportMeaning(days: seq<Day>, s: Settings, m: Model, f: nat)
    requires AnswersEveryRow(m) && |Samples(days, s)| == PlanOf(days, s).n
    requires Expected(Samples(days, s), m, PlanOf(days, s), s.p.cost).Evaluated?
    requires f < |Upto(PlanOf(days, s), s.folds)|
    ensures var plan, matrix := PlanOf(days, s), Samples(days, s);
            && WellFormed(plan) && AllFit(Upto(plan, s.folds), |matrix|)
            && var rows := TestedRows(matrix, Upto(plan, s.folds), |Upto(plan, s.folds)|);
               Indexes(rows, |matrix|)
               && PoolsRows(Expected(matrix, m, plan, s.p.cost).report.pooled, matrix, rows, s.p.cost)
    ensures var plan, matrix := PlanOf(days, s), Samples(days, s);
            var sp := Upto(plan, s.folds)[f];
            && 1 <= Number(plan, f) <= s.folds && |sp.train| == |TrainingSet(days, s, Number(plan, f))|
            && RunFold(matrix, sp, m).yp
               == m.fitPredict(Pairs(TrainingSet(days, s, Number(plan, f))), Xs(matrix, sp.test))
  {
    hide Expected, TestedRows, PoolsRows, Upto, TrainingSet, FeatureMatrix, Kept;
    PooledRows(Samples(days, s), m, PlanOf(days, s), s.p.cost);
    FitsOnTrainingSet(days, s, f);
    var sp := Upto(PlanOf(days, s), s.folds)[f];
    assert SplitFits(sp, |Samples(days, s)|);
    assert TrainRows(Samples(days, s), sp.train) == Pairs(TrainingSet(days, s, Number(PlanOf(days, s), f)));
  }
}
