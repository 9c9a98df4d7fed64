/** Rows dropped in the test period move the fold boundaries: a day and the same day without its last
    quotes, with fitted folds of different training sets. */
module DroppedRows {
  import opened Aggregates
  import opened Evaluation
  import opened Features
  import opened Leakage
  import opened Pipeline
  import opened Splits

  /** Kernels that are null on null and tell a doubling from a halving beyond the cost, as the logarithm does. */
  ghost predicate LikeLog(k: Kernels, cost: real) {
    && TotalOnNumbers(k)
    && (forall x: Float, y: Float :: x.Null? || y.Null? ==> k.logRatio(x, y) == Null)
    && k.logRatio(Num(2.0), Num(1.0)).Num? && k.logRatio(Num(2.0), Num(1.0)).r > cost
    && k.logRatio(Num(1.0), Num(2.0)).Num? && k.logRatio(Num(1.0), Num(2.0)).r < -cost
  }

  const COST := 0.002

  /** One-bar labels, one-bar windows, one split. */
  function OneSplit(k: Kernels): Settings {
    Settings(Params(1, 1, COST, k), DefaultFeatures(), 1, 0)
  }

  /** A bar whose mid doubles and halves in turn; without quotes its quote columns are null together. */
  function ZigZag(i: nat, quoted: bool): Bar {
    Bar(Num(1.0), Num(0.0), Num(1.0), Num(1.0),
        if !quoted then Null else if i % 2 == 0 then Num(1.0) else Num(2.0),
        if quoted then Num(0.5) else Null, if quoted then Num(0.0) else Null)
  }

  /** Ten bars, the last `missing` of them without quotes. */
  function TenBars(missing: nat): (r: seq<Bar>)
    requires missing <= 10
    ensures |r| == 10 && forall i :: 0 <= i < 10 ==> r[i] == ZigZag(i, i < 10 - missing)
  {
    seq(10, i requires 0 <= i < 10 => ZigZag(i, i < 10 - missing))
  }

  function History(missing: nat): seq<Day>
    requires missing <= 10
  {
    [Present(TenBars(missing))]
  }

  /** Some kernels are like the logarithm. */
  lemma SignIsLikeLog()
    ensures LikeLog(Kernels((x: Float, y: Float) =>
                              if x.Null? || y.Null? then Null
                              else Num(if x.r > y.r then 1.0 else if x.r < y.r then -1.0 else 0.0),
                            xs => Num(0.0), xs => Num(0.0)), COST)
  {
  }

  lemma RowsOfTheDay(missing: nat, k: Kernels)
    requires missing <= 10
    ensures Positions(History(missing), OneSplit(k).p) == DayPositions(0, 1, 9)
  {
    var days := History(missing);
    assert days[..0] == [] && Positions([], OneSplit(k).p) == [];
    assert RowPositions(0, days[0], OneSplit(k).p) == DayPositions(0, 1, 9);
  }

  lemma FullDay(k: Kernels)
    requires LikeLog(k, COST)
    ensures Kept(History(0), OneSplit(k)) == DayPositions(0, 1, 9)
  {
    RowsOfTheDay(0, k);
    NothingDropped(History(0), OneSplit(k));
  }

  /** The two histories agree before bar 8. */
  lemma SameBefore(m: nat)
    requires m <= 8
    ensures AgreeBefore(History(0), History(2), Pos(0, m))
  {
    assert History(0)[..0] == History(2)[..0];
    assert TenBars(0)[..m] == TenBars(2)[..m];
  }

  /** A bar whose label window ends before bar 8 gives the same complete row in both, labelled down and
      up in turn. */
  lemma RowBefore(k: Kernels, missing: nat, i: nat)
    requires LikeLog(k, COST) && (missing == 0 || missing == 2) && 1 <= i < 7
    ensures KeptAt(History(missing), OneSplit(k), Pos(0, i))
    ensures RowOf(History(missing), OneSplit(k).p, Pos(0, i)).sign == if i % 2 == 0 then 1 else -1
  {
    hide TenBars, Ret, RetWindow, ImbalanceWindow, Complete;
    var s, a, b := OneSplit(k), History(0), History(missing);
    assert forall j :: 0 <= j < 10 ==> NullFree(TenBars(0)[j]);
    RowComplete(TenBars(0), s.p, s.cols, i);
    assert RowOf(a, s.p, Pos(0, i)) == RowAt(TenBars(0), s.p, i);
    if missing == 2 {
      SameBefore(8);
      RowAgrees(a, b, s.p, Pos(0, 8), Pos(0, i));
    }
  }

  /** A row whose label window reaches a bar without quotes is dropped. */
  lemma RowAfter(k: Kernels, i: nat)
    requires LikeLog(k, COST) && 7 <= i < 9
    ensures !KeptAt(History(2), OneSplit(k), Pos(0, i))
  {
    var b := TenBars(2);
    assert RowOf(History(2), OneSplit(k).p, Pos(0, i)) == RowAt(b, OneSplit(k).p, i);
    assert b[i + 1].mid == Null;
  }

  lemma {:induction false} KeepEach(xs: seq<Pos>, keep: Pos -> bool)
    requires forall i :: 0 <= i < |xs| ==> keep(xs[i])
    ensures Keep(xs, keep) == xs
  {
    KeepAgrees(xs, keep, x => true);
    KeepAll(xs);
  }

  lemma {:induction false} KeepNone(xs: seq<Pos>, keep: Pos -> bool)
    requires forall i :: 0 <= i < |xs| ==> !keep(xs[i])
    ensures Keep(xs, keep) == []
  {
    KeepMembers(xs, keep);
    if Keep(xs, keep) != [] {
      assert Keep(xs, keep)[0] in Keep(xs, keep);
    }
  }

  lemma ShortDay(k: Kernels)
    requires LikeLog(k, COST)
    ensures Kept(History(2), OneSplit(k)) == DayPositions(0, 1, 7)
  {
    hide KeptAt, LikeLog;
    var s, b := OneSplit(k), History(2);
    var front, back := DayPositions(0, 1, 7), DayPositions(0, 7, 9);
    RowsOfTheDay(2, k);
    DayPositionsSplit(0, 1, 7, 9);
    forall i | 0 <= i < |front| ensures KeepRule(b, s)(front[i]) {
      RowBefore(k, 2, i + 1);
    }
    forall i | 0 <= i < |back| ensures !KeepRule(b, s)(back[i]) {
      RowAfter(k, i + 7);
    }
    KeepEach(front, KeepRule(b, s));
    KeepNone(back, KeepRule(b, s));
    KeepConcat(front, back, KeepRule(b, s));
  }

  /** The number of rows kept. */
  function RowCount(missing: nat): nat {
    if missing == 0 then 8 else 6
  }

  lemma WhatIsKept(k: Kernels, missing: nat)
    requires LikeLog(k, COST) && (missing == 0 || missing == 2)
    ensures Kept(History(missing), OneSplit(k)) == DayPositions(0, 1, RowCount(missing) + 1)
  {
    if missing == 0 {
      FullDay(k);
    } else {
      ShortDay(k);
    }
  }

  lemma ExampleLabel(r: Row, cols: seq<Column>)
    ensures Example(r, cols).y == r.sign
  {
  }

  /** The one fold and its training set, which holds both labels. */
  lemma FoldOne(k: Kernels, missing: nat)
    requires LikeLog(k, COST) && (missing == 0 || missing == 2)
    ensures var days, s := History(missing), OneSplit(k);
            && PlanOf(days, s) == Plan(RowCount(missing), 1, 1, 0, 1) && WellFormed(PlanOf(days, s))
            && TrainEnd(PlanOf(days, s), 1) == RowCount(missing) / 2 - 1
            && |TrainingSet(days, s, 1)| == RowCount(missing) / 2 - 1
            && TrainingSet(days, s, 1)[0].y == -1 && TrainingSet(days, s, 1)[1].y == 1
  {
    hide KeptAt, LikeLog, Kept, RowOf, Example;
    var days, s := History(missing), OneSplit(k);
    WhatIsKept(k, missing);
    assert Width(PlanOf(days, s)) == RowCount(missing) / 2;
    var t := TrainingSet(days, s, 1);
    forall i | 0 <= i < 2 ensures t[i].y == if i == 0 then -1 else 1 {
      RowBefore(k, missing, i + 1);
      assert Kept(days, s)[i] == Pos(0, i + 1);
      ExampleLabel(RowOf(days, s.p, Kept(days, s)[i]), s.cols);
    }
  }

  lemma TwoLabels(yt: seq<int>)
    requires |yt| >= 2 && yt[0] == -1 && yt[1] == 1
    ensures |Unique(yt)| >= 2
  {
    var u := Unique(yt);
    UniqueMeaning(yt);
    assert yt[1..][0] == 1;
    assert CountOf(yt, -1) > 0 && CountOf(yt, 1) > 0;
    var i :| 0 <= i < |u| && u[i] == -1;
    var j :| 0 <= j < |u| && u[j] == 1;
    assert i != j;
  }

  lemma OneFold(p: Plan)
    requires p.folds == 1 && TrainEnd(p, 1) >= p.minTrain
    ensures |Upto(p, 1)| == 1 && FirstFold(p, 1) == 1
  {
    assert Upto(p, 0) == [];
  }

  /** The harness fits the fold's model on that training set. */
  lemma {:induction false} FoldIsUsed(k: Kernels, missing: nat)
    requires LikeLog(k, COST) && (missing == 0 || missing == 2)
    ensures var days, s := History(missing), OneSplit(k);
            var splits, samples := Upto(PlanOf(days, s), 1), Samples(days, s);
            && |splits| == 1 && SplitFits(splits[0], |samples|) && !SingleClass(samples, splits[0])
            && |TrainRows(samples, splits[0].train)| == |TrainingSet(days, s, 1)|
  {
    hide TrainingSet, Samples, Unique, Labels, FoldAt, TrainEnd, PlanOf;
    var days, s := History(missing), OneSplit(k);
    FoldOne(k, missing);
    OneFold(PlanOf(days, s));
    FitsOnTrainingSet(days, s, 0);
    var sp, samples := Upto(PlanOf(days, s), 1)[0], Samples(days, s);
    assert Labels(samples, sp.train)[0] == TrainRows(samples, sp.train)[0].1;
    assert Labels(samples, sp.train)[1] == TrainRows(samples, sp.train)[1].1;
    TwoLabels(Labels(samples, sp.train));
  }

  /** The proviso on the fold width is needed: losing the quotes of the last two bars, well inside the
      test period, takes a row from the training set the fold's model is fitted on. */
  lemma {:induction false} DroppedTestRowsMoveTraining(k: Kernels)
    requires LikeLog(k, COST)
    ensures var a, b, s := History(0), History(2), OneSplit(k);
            && WellFormed(PlanOf(a, s)) && WellFormed(PlanOf(b, s)) && AgreeBefore(a, b, FirstTest(a, s, 1))
            && |TrainingSet(a, s, 1)| == 3 && |TrainingSet(b, s, 1)| == 2
            && |Upto(PlanOf(a, s), 1)| == |Upto(PlanOf(b, s), 1)| == 1
            && SplitFits(Upto(PlanOf(a, s), 1)[0], |Samples(a, s)|)
               && !SingleClass(Samples(a, s), Upto(PlanOf(a, s), 1)[0])
            && SplitFits(Upto(PlanOf(b, s), 1)[0], |Samples(b, s)|)
               && !SingleClass(Samples(b, s), Upto(PlanOf(b, s), 1)[0])
            && |TrainRows(Samples(a, s), Upto(PlanOf(a, s), 1)[0].train)| == 3
            && |TrainRows(Samples(b, s), Upto(PlanOf(b, s), 1)[0].train)| == 2
  {
    hide LikeLog, TrainingSet, Samples, SingleClass, TrainRows, Kept;
    FoldOne(k, 0);
    FoldOne(k, 2);
    FoldIsUsed(k, 0);
    FoldIsUsed(k, 2);
    WhatIsKept(k, 0);
    assert FirstTest(History(0), OneSplit(k), 1) == Pos(0, 5);
    SameBefore(5);
  }
}
