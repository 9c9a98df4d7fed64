/** No test-period data reaches training: the purge, and the two-run statement over whole histories. */
module Leakage {
  import opened Aggregates
  import opened Features
  import opened Splits

  // --- the purge ---------------------------------------------------------------------------

  /** The label window of a row, its bar through h bars later, ends before bar t. */
  predicate WindowBefore(x: Pos, h: nat, t: Pos) {
    x.day < t.day || (x.day == t.day && x.bar + h < t.bar)
  }

  lemma {:induction false} GapClearsWindow(xs: seq<Pos>, i: nat, j: nat, h: nat)
    requires Chronological(xs) && i < j < |xs| && j - i > h
    ensures WindowBefore(xs[i], h, xs[j])
  {
    assert Before(xs[i], xs[j]);
    if xs[i].day == xs[j].day {
      SpacingInDay(xs, i, j);
    }
  }

  /** Where the training and test indices of a surviving fold lie. */
  lemma FoldIndices(plan: Plan, f: nat)
    requires WellFormed(plan) && plan.minTrain >= 1 && f < |Upto(plan, plan.folds)|
    ensures var fold := Upto(plan, plan.folds)[f];
            && fold.test != [] && fold.test[0] < plan.n
            && |fold.train| > 0 && |fold.train| + plan.horizon + plan.embargo == fold.test[0]
            && forall i :: 0 <= i < |fold.train| ==> fold.train[i] == i
  {
    SurvivingFold(plan, f);
    TestBlockNonempty(plan, FirstFold(plan, plan.folds) + f);
  }

  /** For any days and any rows dropped, when horizon plus embargo covers the label horizon:
      every training row's label window stays inside its own day and ends before the bar of
      the fold's first test row. */
  lemma {:induction false} PurgeSurvivesDropping(days: seq<Day>, p: Params, keep: Pos -> bool, plan: Plan, f: nat,
                                                 i: nat)
    requires plan.n == |Keep(Positions(days, p), keep)| && WellFormed(plan) && plan.minTrain >= 1
    requires plan.horizon + plan.embargo >= p.h
    requires f < |Upto(plan, plan.folds)| && i < |Upto(plan, plan.folds)[f].train|
    ensures var kept := Keep(Positions(days, p), keep);
            var fold := Upto(plan, plan.folds)[f];
            && fold.test != [] && 0 <= fold.train[i] < fold.test[0] < |kept|
            && InDay(days, p, kept[fold.train[i]])
            && WindowBefore(kept[fold.train[i]], p.h, kept[fold.test[0]])
  {
    var xs := Positions(days, p);
    var kept := Keep(xs, keep);
    FoldIndices(plan, f);
    var fold := Upto(plan, plan.folds)[f];
    PositionsMeaning(days, p);
    KeepChronological(xs, keep);
    KeepMembers(xs, keep);
    assert kept[i] in xs;
    GapClearsWindow(kept, i, fold.test[0], p.h);
  }

  lemma {:induction false} KeepAll(xs: seq<Pos>)
    ensures Keep(xs, x => true) == xs
  {
    if xs != [] {
      KeepAll(xs[..|xs| - 1]);
    }
  }

  /** The purge is tight: on one day with nothing dropped, every label window of every fold
      ends before its test block if and only if horizon plus embargo covers the label horizon. */
  lemma {:induction false} PurgeIsTight(b: seq<Bar>, p: Params, plan: Plan, f: nat)
    requires var xs := Positions([Present(b)], p);
             && plan.n == |xs| && WellFormed(plan) && plan.minTrain >= 1 && f < |Upto(plan, plan.folds)|
    ensures var xs := Positions([Present(b)], p);
            var fold := Upto(plan, plan.folds)[f];
            && fold.test != [] && 0 <= fold.test[0] < |xs| && |fold.train| <= |xs|
            && ((forall i :: 0 <= i < |fold.train| ==> WindowBefore(xs[i], p.h, xs[fold.test[0]]))
                <==> plan.horizon + plan.embargo >= p.h)
  {
    var days := [Present(b)];
    var xs := Positions(days, p);
    FoldIndices(plan, f);
    assert days[..0] == [];
    assert xs == DayPositions(0, p.w, |b| - p.h);
    var fold := Upto(plan, plan.folds)[f];
    var last := |fold.train| - 1;
    assert xs[last] == Pos(0, p.w + last) && xs[fold.test[0]] == Pos(0, p.w + fold.test[0]);
    if plan.horizon + plan.embargo >= p.h {
      forall i | 0 <= i < |fold.train| ensures WindowBefore(xs[i], p.h, xs[fold.test[0]]) {
        assert xs[i] == Pos(0, p.w + i);
      }
    }
  }

  // --- the feature matrix ---------------------------------------------------------------------

  datatype Column = RetCol | RvolCol | ImbAvgCol | ImbalanceCol | QimbCol | SpreadCol | VolCol | TradesCol

  /** `DEFAULT_FEATURES`. */
  function DefaultFeatures(): seq<Column> {
    [RetCol, RvolCol, ImbAvgCol, ImbalanceCol, QimbCol, SpreadCol, VolCol, TradesCol]
  }

  function Cell(r: Row, c: Column): Float {
    match c
    case RetCol => r.ret
    case RvolCol => r.rvol
    case ImbAvgCol => r.imbAvg
    case ImbalanceCol => r.bar.imbalance
    case QimbCol => r.bar.qimb
    case SpreadCol => r.bar.spread
    case VolCol => r.bar.vol
    case TradesCol => r.bar.trades
  }

  /** A row without nulls in the selected columns or the forward return. */
  predicate Complete(r: Row, cols: seq<Column>) {
    r.fwdRet.Num? && forall i :: 0 <= i < |cols| ==> Cell(r, cols[i]).Num?
  }

  /** What the model sees of one row. */
  datatype Labelled = Labelled(x: seq<Float>, y: int)

  function Example(r: Row, cols: seq<Column>): Labelled {
    Labelled(seq(|cols|, i requires 0 <= i < |cols| => Cell(r, cols[i])), r.sign)
  }

  /** One experiment: a single horizon serves both the labels and the splitter. */
  datatype Settings = Settings(p: Params, cols: seq<Column>, folds: int, embargo: nat)

  predicate KeptAt(days: seq<Day>, s: Settings, x: Pos) {
    InDay(days, s.p, x) && Complete(RowOf(days, s.p, x), s.cols)
  }

  function KeepRule(days: seq<Day>, s: Settings): Pos -> bool {
    x => KeptAt(days, s, x)
  }

  /** Positions of the rows that survive `dropna`. */
  function Kept(days: seq<Day>, s: Settings): seq<Pos> {
    Keep(Positions(days, s.p), KeepRule(days, s))
  }

  function PlanOf(days: seq<Day>, s: Settings): Plan {
    Plan(|Kept(days, s)|, s.folds, s.p.h, s.embargo, 1)
  }

  lemma {:induction false} KeptMeaning(days: seq<Day>, s: Settings)
    ensures Chronological(Kept(days, s))
    ensures forall i :: 0 <= i < |Kept(days, s)| ==> KeptAt(days, s, Kept(days, s)[i])
  {
    var xs := Positions(days, s.p);
    PositionsMeaning(days, s.p);
    KeepChronological(xs, KeepRule(days, s));
    KeepMembers(xs, KeepRule(days, s));
    forall i | 0 <= i < |Kept(days, s)| ensures KeptAt(days, s, Kept(days, s)[i]) {
      assert Kept(days, s)[i] in Keep(xs, KeepRule(days, s));
    }
  }

  /** The examples fold k trains on. */
  function TrainingSet(days: seq<Day>, s: Settings, k: int): seq<Labelled>
    requires WellFormed(PlanOf(days, s)) && 1 <= k <= s.folds
  {
    var kept := Kept(days, s);
    var n := TrainEnd(PlanOf(days, s), k);
    TestBlockNonempty(PlanOf(days, s), k);
    KeptMeaning(days, s);
    seq(if n > 0 then n else 0, i requires 0 <= i < n => Example(RowOf(days, s.p, kept[i]), s.cols))
  }

  // --- two runs ---------------------------------------------------------------------------------

  /** Two histories agree on every bar before position t: all earlier days, and the bars of
      t's day before t. Nothing is said about t's bar or anything later. */
  predicate AgreeBefore(a: seq<Day>, b: seq<Day>, t: Pos) {
    && t.day < |a| && t.day < |b|
    && a[..t.day] == b[..t.day]
    && a[t.day].Present? && b[t.day].Present?
    && t.bar <= |a[t.day].bars| && t.bar <= |b[t.day].bars|
    && a[t.day].bars[..t.bar] == b[t.day].bars[..t.bar]
  }

  /** A row reads only bars up to its label window's end. */
  lemma RowReadsItsWindow(a: seq<Bar>, b: seq<Bar>, p: Params, i: nat, m: nat)
    requires m <= |a| && m <= |b| && a[..m] == b[..m] && i + p.h < m
    ensures RowAt(a, p, i) == RowAt(b, p, i)
  {
    assert forall j :: 0 <= j < m ==> a[j] == a[..m][j] && b[j] == b[..m][j];
    assert forall j :: 0 <= j <= i ==> Ret(a, p, j) == Ret(b, p, j);
    assert RetWindow(a, p, i) == RetWindow(b, p, i);
    assert ImbalanceWindow(a, p, i) == ImbalanceWindow(b, p, i);
  }

  lemma RowAgrees(a: seq<Day>, b: seq<Day>, p: Params, t: Pos, x: Pos)
    requires AgreeBefore(a, b, t) && WindowBefore(x, p.h, t)
    ensures InDay(a, p, x) == InDay(b, p, x)
    ensures InDay(a, p, x) ==> RowOf(a, p, x) == RowOf(b, p, x)
  {
    if x.day < t.day {
      assert a[x.day] == a[..t.day][x.day] == b[x.day];
    } else {
      RowReadsItsWindow(a[t.day].bars, b[t.day].bars, p, x.bar, t.bar);
    }
  }

  /** The positions whose windows end before t; they depend only on the days before t's. */
  function SafePositions(days: seq<Day>, p: Params, t: Pos): seq<Pos>
    requires t.day < |days|
  {
    Positions(days[..t.day], p) + DayPositions(t.day, p.w, t.bar - p.h)
  }

  lemma DayPositionsSplit(day: nat, lo: nat, mid: int, hi: int)
    requires mid <= hi
    ensures DayPositions(day, lo, mid) + DayPositions(day, if mid > lo then mid else lo, hi)
            == DayPositions(day, lo, hi)
  {
  }

  /** The table starts with the safe positions, and no later position is safe. */
  lemma {:induction false} SafeIsPrefix(days: seq<Day>, p: Params, t: Pos)
    requires t.day < |days| && days[t.day].Present? && t.bar <= |days[t.day].bars|
    ensures var xs, safe := Positions(days, p), SafePositions(days, p, t);
            && |safe| <= |xs| && xs[..|safe|] == safe
            && (forall i :: 0 <= i < |safe| ==> WindowBefore(safe[i], p.h, t))
            && forall i :: |safe| <= i < |xs| ==> !WindowBefore(xs[i], p.h, t)
    decreases |days|
  {
    var front, last := days[..|days| - 1], days[|days| - 1];
    var rows := RowPositions(|days| - 1, last, p);
    if t.day < |days| - 1 {
      SafeIsPrefix(front, p, t);
      assert front[..t.day] == days[..t.day];
    } else {
      PositionsMeaning(front, p);
      assert front == days[..t.day];
      DayPositionsSplit(t.day, p.w, t.bar - p.h, |last.bars| - p.h);
    }
  }

  lemma {:induction false} KeepAgrees(xs: seq<Pos>, f: Pos -> bool, g: Pos -> bool)
    requires forall i :: 0 <= i < |xs| ==> f(xs[i]) == g(xs[i])
    ensures Keep(xs, f) == Keep(xs, g)
  {
    if xs != [] {
      KeepAgrees(xs[..|xs| - 1], f, g);
    }
  }

  /** How many kept rows are safe with respect to t. */
  function SafeKept(days: seq<Day>, s: Settings, t: Pos): seq<Pos>
    requires t.day < |days|
  {
    Keep(SafePositions(days, s.p, t), KeepRule(days, s))
  }

  lemma {:induction false} SafeKeptIsPrefix(days: seq<Day>, s: Settings, t: Pos)
    requires t.day < |days| && days[t.day].Present? && t.bar <= |days[t.day].bars|
    ensures var kept, safe := Kept(days, s), SafeKept(days, s, t);
            && |safe| <= |kept| && kept[..|safe|] == safe
            && (forall i :: 0 <= i < |safe| ==> WindowBefore(kept[i], s.p.h, t))
            && forall i :: |safe| <= i < |kept| ==> !WindowBefore(kept[i], s.p.h, t)
  {
    hide Positions, SafePositions;
    var xs, safe := Positions(days, s.p), SafePositions(days, s.p, t);
    var keep := KeepRule(days, s);
    SafeIsPrefix(days, s.p, t);
    assert xs == safe + xs[|safe|..];
    KeepConcat(safe, xs[|safe|..], keep);
    KeepMembers(safe, keep);
    KeepMembers(xs[|safe|..], keep);
    var a, b := Keep(safe, keep), Keep(xs[|safe|..], keep);
    assert Kept(days, s) == a + b && SafeKept(days, s, t) == a;
    assert forall i :: 0 <= i < |a| ==> a[i] in safe;
    assert forall i :: 0 <= i < |b| ==> b[i] in xs[|safe|..];
  }

  lemma {:induction false} SafeKeptAgrees(a: seq<Day>, b: seq<Day>, s: Settings, t: Pos)
    requires AgreeBefore(a, b, t)
    ensures SafeKept(a, s, t) == SafeKept(b, s, t)
  {
    var safe := SafePositions(a, s.p, t);
    assert safe == SafePositions(b, s.p, t);
    SafeIsPrefix(a, s.p, t);
    forall i | 0 <= i < |safe| ensures KeptAt(a, s, safe[i]) == KeptAt(b, s, safe[i]) {
      RowAgrees(a, b, s.p, t, safe[i]);
    }
    KeepAgrees(safe, KeepRule(a, s), KeepRule(b, s));
  }

  /** The first test row of fold k. */
  function FirstTest(days: seq<Day>, s: Settings, k: int): Pos
    requires WellFormed(PlanOf(days, s)) && 1 <= k <= s.folds
  {
    TestBlockNonempty(PlanOf(days, s), k);
    Kept(days, s)[TestStart(PlanOf(days, s), k)]
  }

  /** If a second history agrees with the first on every bar before fold k's first test row,
      the rows fold k trains on stand in the second history's table at the same places, with
      the same features and labels, whatever the second history holds from then on. */
  lemma {:induction false} TrainingRowsFixed(a: seq<Day>, b: seq<Day>, s: Settings, k: int, i: nat)
    requires WellFormed(PlanOf(a, s)) && 1 <= k <= s.folds
    requires AgreeBefore(a, b, FirstTest(a, s, k))
    requires i < TrainEnd(PlanOf(a, s), k)
    ensures i < |Kept(a, s)| && i < |Kept(b, s)| && Kept(a, s)[i] == Kept(b, s)[i]
    ensures InDay(a, s.p, Kept(a, s)[i]) && InDay(b, s.p, Kept(a, s)[i])
    ensures RowOf(a, s.p, Kept(a, s)[i]) == RowOf(b, s.p, Kept(b, s)[i])
  {
    var t := FirstTest(a, s, k);
    TestBlockNonempty(PlanOf(a, s), k);
    KeptMeaning(a, s);
    GapClearsWindow(Kept(a, s), i, TestStart(PlanOf(a, s), k), s.p.h);
    SafeKeptIsPrefix(a, s, t);
    SafeKeptIsPrefix(b, s, t);
    SafeKeptAgrees(a, b, s, t);
    var safe := SafeKept(a, s, t);
    assert i < |safe|;
    assert Kept(a, s)[i] == Kept(a, s)[..|safe|][i] && Kept(b, s)[i] == Kept(b, s)[..|safe|][i];
    RowAgrees(a, b, s.p, t, Kept(a, s)[i]);
  }

  /** The two-run statement, exactly: when the second history agrees with the first before
      fold k's first test row, fold k's training set is the same in both if and only if the
      two tables cut into folds of the same width. Test-period data can reach training only
      by changing how many rows survive. */
  lemma {:induction false} NoTestDataReachesTraining(a: seq<Day>, b: seq<Day>, s: Settings, k: int)
    requires WellFormed(PlanOf(a, s)) && WellFormed(PlanOf(b, s)) && 1 <= k <= s.folds
    requires TrainEnd(PlanOf(a, s), k) >= 1
    requires AgreeBefore(a, b, FirstTest(a, s, k))
    ensures TrainingSet(a, s, k) == TrainingSet(b, s, k) <==> Width(PlanOf(a, s)) == Width(PlanOf(b, s))
  {
    var u, v := Width(PlanOf(a, s)), Width(PlanOf(b, s));
    if u == v {
      var x, y := TrainingSet(a, s, k), TrainingSet(b, s, k);
      forall i | 0 <= i < |x| ensures x[i] == y[i] {
        TrainingRowsFixed(a, b, s, k, i);
      }
    } else if u < v {
      MulGap(k, u, v);
    } else {
      MulGap(k, v, u);
    }
  }

  // --- tables without nulls ------------------------------------------------------------------------

  /** No nulls, and prices above zero. */
  predicate NullFree(b: Bar) {
    && b.close.Num? && b.close.r > 0.0 && b.mid.Num? && b.mid.r > 0.0
    && b.imbalance.Num? && b.vol.Num? && b.trades.Num? && b.spread.Num? && b.qimb.Num?
  }

  predicate NullFreeDays(days: seq<Day>) {
    forall d, i :: 0 <= d < |days| && days[d].Present? && 0 <= i < |days[d].bars| ==> NullFree(days[d].bars[i])
  }

  predicate AllNumbers(xs: seq<Float>) {
    forall i :: 0 <= i < |xs| ==> xs[i].Num?
  }

  /** Numeric kernels give numbers for prices above zero and for windows of numbers. */
  ghost predicate TotalOnNumbers(k: Kernels) {
    && (forall x: Float, y: Float :: x.Num? && y.Num? && x.r > 0.0 && y.r > 0.0 ==> k.logRatio(x, y).Num?)
    && (forall xs: seq<Float> :: AllNumbers(xs) ==> k.dev(xs).Num?)
    && (forall xs: seq<Float> :: AllNumbers(xs) ==> k.avg(xs).Num?)
  }

  /** The one-bar return of every bar but the first, and the forward return of every bar with a label, are numbers. */
  lemma ReturnsAreNumbers(b: seq<Bar>, p: Params, i: nat)
    requires forall j :: 0 <= j < |b| ==> NullFree(b[j])
    requires TotalOnNumbers(p.kernels) && i < |b|
    ensures i > 0 ==> Ret(b, p, i).Num?
    ensures i + p.h < |b| ==> FwdRet(b, p, i).Num?
  {
  }

  /** The w-row head trim is what makes this true: row 0 has no previous close, and no window
      of a surviving row reaches it. */
  lemma WindowsAreNumbers(b: seq<Bar>, p: Params, i: nat)
    requires forall j :: 0 <= j < |b| ==> NullFree(b[j])
    requires TotalOnNumbers(p.kernels) && p.w >= 1 && p.w <= i < |b|
    ensures p.kernels.dev(RetWindow(b, p, i)).Num? && p.kernels.avg(ImbalanceWindow(b, p, i)).Num?
  {
    hide Ret;
    var r, v := RetWindow(b, p, i), ImbalanceWindow(b, p, i);
    forall j | 0 <= j < |r| ensures r[j].Num? {
      ReturnsAreNumbers(b, p, WindowStart(p.w, i) + j);
    }
    assert forall j :: 0 <= j < |v| ==> NullFree(b[WindowStart(p.w, i) + j]) && v[j].Num?;
    assert AllNumbers(r) && AllNumbers(v);
  }

  lemma RowComplete(b: seq<Bar>, p: Params, cols: seq<Column>, i: nat)
    requires forall j :: 0 <= j < |b| ==> NullFree(b[j])
    requires TotalOnNumbers(p.kernels) && p.w >= 1 && p.w <= i && i + p.h < |b|
    ensures Complete(RowAt(b, p, i), cols)
  {
    hide TotalOnNumbers, Ret, FwdRet, RetWindow, ImbalanceWindow;
    ReturnsAreNumbers(b, p, i);
    WindowsAreNumbers(b, p, i);
    assert NullFree(b[i]);
  }

  lemma {:induction false} NothingDropped(days: seq<Day>, s: Settings)
    requires NullFreeDays(days) && TotalOnNumbers(s.p.kernels) && s.p.w >= 1
    ensures Kept(days, s) == Positions(days, s.p)
  {
    var xs := Positions(days, s.p);
    PositionsMeaning(days, s.p);
    forall i | 0 <= i < |xs| ensures KeptAt(days, s, xs[i]) {
      RowComplete(days[xs[i].day].bars, s.p, s.cols, xs[i].bar);
    }
    KeepAgrees(xs, KeepRule(days, s), x => true);
    KeepAll(xs);
    KeepAgrees(xs, x => true, x => true);
  }

  /** Two histories of the same shape: the same days present, with the same bar counts. */
  predicate SameShape(a: seq<Day>, b: seq<Day>) {
    && |a| == |b|
    && forall d :: 0 <= d < |a| ==>
         && a[d].Present? == b[d].Present?
         && (a[d].Present? ==> |a[d].bars| == |b[d].bars|)
  }

  lemma {:induction false} SameShapePositions(a: seq<Day>, b: seq<Day>, p: Params)
    requires SameShape(a, b)
    ensures Positions(a, p) == Positions(b, p)
  {
    if a != [] {
      SameShapePositions(a[..|a| - 1], b[..|b| - 1], p);
    }
  }

  /** For null-free histories of the same shape nothing is dropped, so agreement before a
      fold's first test row fixes that fold's training set outright. */
  lemma {:induction false} NullFreeTrainingFixed(a: seq<Day>, b: seq<Day>, s: Settings, k: int)
    requires NullFreeDays(a) && NullFreeDays(b) && SameShape(a, b)
    requires TotalOnNumbers(s.p.kernels) && s.p.w >= 1
    requires WellFormed(PlanOf(a, s)) && WellFormed(PlanOf(b, s)) && 1 <= k <= s.folds
    requires TrainEnd(PlanOf(a, s), k) >= 1 && AgreeBefore(a, b, FirstTest(a, s, k))
    ensures TrainingSet(a, s, k) == TrainingSet(b, s, k)
  {
    NothingDropped(a, s);
    NothingDropped(b, s);
    SameShapePositions(a, b, s.p);
    NoTestDataReachesTraining(a, b, s, k);
  }
}
