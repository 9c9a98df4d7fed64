/** From stored bars to fitted models: what each fold's model is given. */
module Pipeline {
  import opened Aggregates
  import opened Features
  import opened Splits
  import opened Leakage
  import opened Evaluation

  function SampleOf(r: Row, cols: seq<Column>): Sample
    requires r.fwdRet.Num?
  {
    Sample(Example(r, cols).x, r.sign, r.fwdRet.r)
  }

  /** `feature_matrix`: drop every row with a null in a used column. */
  function FeatureMatrix(rows: seq<Row>, cols: seq<Column>): seq<Sample> {
    if rows == [] then []
    else
      FeatureMatrix(rows[..|rows| - 1], cols)
      + if Complete(rows[|rows| - 1], cols) then [SampleOf(rows[|rows| - 1], cols)] else []
  }

  /** The sample at a surviving position. */
  predicate SampleAt(days: seq<Day>, s: Settings, x: Pos, sample: Sample) {
    KeptAt(days, s, x) && sample == SampleOf(RowOf(days, s.p, x), s.cols)
  }

  lemma {:induction false} MatrixOfPrefix(days: seq<Day>, s: Settings, n: nat)
    requires n <= |Positions(days, s.p)| == |AllRows(days, s.p)|
    requires forall i :: 0 <= i < n ==>
               InDay(days, s.p, Positions(days, s.p)[i])
               && AllRows(days, s.p)[i] == RowOf(days, s.p, Positions(days, s.p)[i])
    ensures var m := FeatureMatrix(AllRows(days, s.p)[..n], s.cols);
            var kept := Keep(Positions(days, s.p)[..n], KeepRule(days, s));
            |m| == |kept| && forall i :: 0 <= i < |m| ==> SampleAt(days, s, kept[i], m[i])
    decreases n
  {
    hide Positions, AllRows, RowOf;
    if n > 0 {
      var rows, xs := AllRows(days, s.p), Positions(days, s.p);
      MatrixOfPrefix(days, s, n - 1);
      assert rows[..n][..n - 1] == rows[..n - 1] && xs[..n][..n - 1] == xs[..n - 1];
      assert rows[..n][n - 1] == rows[n - 1] && xs[..n][n - 1] == xs[n - 1];
    }
  }

  /** The feature matrix over the concatenated days is, row by row, the rows at the kept positions. */
  lemma {:induction false} MatrixIsKeptRows(days: seq<Day>, s: Settings)
    ensures var m, kept := FeatureMatrix(AllRows(days, s.p), s.cols), Kept(days, s);
            |m| == |kept| && forall i :: 0 <= i < |m| ==> SampleAt(days, s, kept[i], m[i])
  {
    var rows, xs := AllRows(days, s.p), Positions(days, s.p);
    PositionsMeaning(days, s.p);
    assert rows[..|rows|] == rows && xs[..|rows|] == xs;
    MatrixOfPrefix(days, s, |rows|);
  }

  function Samples(days: seq<Day>, s: Settings): seq<Sample> {
    FeatureMatrix(AllRows(days, s.p), s.cols)
  }

  /** The default features of a row, by name. */
  function Named(r: Row): seq<Float> {
    [r.ret, r.rvol, r.imbAvg, r.bar.imbalance, r.bar.qimb, r.bar.spread, r.bar.vol, r.bar.trades]
  }

  lemma CellsAreNamed(r: Row)
    ensures forall c :: 0 <= c < 8 ==> Cell(r, DefaultFeatures()[c]) == Named(r)[c]
    ensures Example(r, DefaultFeatures()).x == Named(r)
  {
  }

  /** With the default features the matrix keeps exactly the rows that have a forward return and no null
      among the eight, and holds of each the eight in order, its label and its forward return. */
  lemma {:induction false} DefaultMatrix(days: seq<Day>, s: Settings)
    requires s.cols == DefaultFeatures()
    ensures var m, kept := Samples(days, s), Kept(days, s);
            && |m| == |kept|
            && (forall x :: InDay(days, s.p, x) ==>
                  var row := RowOf(days, s.p, x);
                  KeptAt(days, s, x) <==> row.fwdRet.Num? && forall c :: 0 <= c < 8 ==> Named(row)[c].Num?)
            && (forall i :: 0 <= i < |m| ==>
                  && InDay(days, s.p, kept[i])
                  && var row := RowOf(days, s.p, kept[i]);
                     m[i].x == Named(row) && m[i].y == row.sign && row.fwdRet == Num(m[i].fwd))
  {
    hide RowAt, RowOf, Kept, FeatureMatrix;
    MatrixIsKeptRows(days, s);
    forall x | InDay(days, s.p, x)
      ensures var row := RowOf(days, s.p, x);
              KeptAt(days, s, x) <==> row.fwdRet.Num? && forall c :: 0 <= c < 8 ==> Named(row)[c].Num?
    {
      CellsAreNamed(RowOf(days, s.p, x));
    }
    var m, kept := Samples(days, s), Kept(days, s);
    forall i | 0 <= i < |m|
      ensures InDay(days, s.p, kept[i])
      ensures var row := RowOf(days, s.p, kept[i]);
              m[i].x == Named(row) && m[i].y == row.sign && row.fwdRet == Num(m[i].fwd)
    {
      assert SampleAt(days, s, kept[i], m[i]);
      CellsAreNamed(RowOf(days, s.p, kept[i]));
    }
  }

  /** The number the harness gives fold `f` among the surviving ones. */
  function Number(plan: Plan, f: nat): int
    requires WellFormed(plan)
  {
    FirstFold(plan, plan.folds) + f
  }

  /** What the harness fits fold f's model on is the training set of the two-run statements. */
  lemma {:induction false} FitsOnTrainingSet(days: seq<Day>, s: Settings, f: nat)
    requires WellFormed(PlanOf(days, s)) && f < |Upto(PlanOf(days, s), s.folds)|
    ensures var plan := PlanOf(days, s);
            var sp := Upto(plan, s.folds)[f];
            && |Samples(days, s)| == plan.n && SplitFits(sp, plan.n)
            && 1 <= Number(plan, f) <= s.folds && TrainEnd(plan, Number(plan, f)) >= 1
            && |sp.train| == |TrainingSet(days, s, Number(plan, f))|
            && forall i :: 0 <= i < |sp.train| ==>
                 TrainRows(Samples(days, s), sp.train)[i]
                 == (TrainingSet(days, s, Number(plan, f))[i].x, TrainingSet(days, s, Number(plan, f))[i].y)
  {
    var plan := PlanOf(days, s);
    var sp, k := Upto(plan, s.folds)[f], Number(plan, f);
    MatrixIsKeptRows(days, s);
    SplitsFit(plan);
    SurvivingFold(plan, f);
    FoldIndices(plan, f);
    var t := TrainingSet(days, s, k);
    forall i | 0 <= i < |sp.train|
      ensures TrainRows(Samples(days, s), sp.train)[i] == (t[i].x, t[i].y)
    {
      assert sp.train[i] == i;
      assert SampleAt(days, s, Kept(days, s)[i], Samples(days, s)[i]);
    }
  }

  /** The fold width decides which folds survive. */
  lemma {:induction false} SameWidthSameFolds(p: Plan, q: Plan, k: nat)
    requires WellFormed(p) && WellFormed(q) && Width(p) == Width(q) && k <= p.folds
    requires p.(n := 0) == q.(n := 0)
    ensures |Upto(p, k)| == |Upto(q, k)|
  {
    if k > 0 {
      SameWidthSameFolds(p, q, k - 1);
    }
  }

  /** End to end: two histories that agree on every bar before a surviving fold's first test row,
      and whose tables have the same fold width, give that fold's model the same training input,
      so that it predicts the same for any rows it is shown. */
  lemma {:induction false} ModelIgnoresTheFuture(a: seq<Day>, b: seq<Day>, s: Settings, f: nat, m: Model,
                                                 xs: seq<seq<Float>>)
    requires WellFormed(PlanOf(a, s)) && WellFormed(PlanOf(b, s)) && Width(PlanOf(a, s)) == Width(PlanOf(b, s))
    requires f < |Upto(PlanOf(a, s), s.folds)| && 1 <= Number(PlanOf(a, s), f) <= s.folds
    requires AgreeBefore(a, b, FirstTest(a, s, Number(PlanOf(a, s), f)))
    ensures f < |Upto(PlanOf(b, s), s.folds)|
    ensures SplitFits(Upto(PlanOf(a, s), s.folds)[f], |Samples(a, s)|)
    ensures SplitFits(Upto(PlanOf(b, s), s.folds)[f], |Samples(b, s)|)
    ensures m.fitPredict(TrainRows(Samples(a, s), Upto(PlanOf(a, s), s.folds)[f].train), xs)
            == m.fitPredict(TrainRows(Samples(b, s), Upto(PlanOf(b, s), s.folds)[f].train), xs)
  {
    SameWidthSameFolds(PlanOf(a, s), PlanOf(b, s), s.folds);
    FitsOnTrainingSet(a, s, f);
    FitsOnTrainingSet(b, s, f);
    NoTestDataReachesTraining(a, b, s, Number(PlanOf(a, s), f));
    assert TrainRows(Samples(a, s), Upto(PlanOf(a, s), s.folds)[f].train)
        == TrainRows(Samples(b, s), Upto(PlanOf(b, s), s.folds)[f].train);
  }
}
