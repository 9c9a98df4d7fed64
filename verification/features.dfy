/** Feature rows per day, their concatenation over days, and where each row comes from. */
module Features {
  import opened Aggregates
  import Buckets

  /** One bar after joining trade and quote columns; a bar without quotes has null quote columns. */
  datatype Bar = Bar(close: Float, imbalance: Float, vol: Float, trades: Float,
                     mid: Float, spread: Float, qimb: Float)

  /** Numeric kernels, known only through the values they read. */
  datatype Kernels = Kernels(
    logRatio: (Float, Float) -> Float,
    dev: seq<Float> -> Float,
    avg: seq<Float> -> Float)

  datatype Params = Params(h: nat, w: nat, cost: real, kernels: Kernels)

  /** `sign` is the label column: +1, 0 or -1. */
  datatype Row = Row(bar: Bar, ret: Float, rvol: Float, imbAvg: Float, fwdRet: Float, sign: int)

  // --- featuresOf ----------------------------------------------------------------------

  function Ret(b: seq<Bar>, p: Params, i: nat): Float
    requires i < |b|
  {
    p.kernels.logRatio(b[i].close, if i == 0 then Null else b[i - 1].close)
  }

  /** The trailing window of at most w positions ending at i. */
  function WindowStart(w: nat, i: nat): (lo: nat)
    ensures lo <= i + 1
  {
    if i + 1 >= w then i + 1 - w else 0
  }

  function RetWindow(b: seq<Bar>, p: Params, i: nat): (r: seq<Float>)
    requires i < |b|
  {
    var lo := WindowStart(p.w, i);
    seq(i + 1 - lo, j requires 0 <= j < i + 1 - lo => Ret(b, p, lo + j))
  }

  function ImbalanceWindow(b: seq<Bar>, p: Params, i: nat): (r: seq<Float>)
    requires i < |b|
  {
    var lo := WindowStart(p.w, i);
    seq(i + 1 - lo, j requires 0 <= j < i + 1 - lo => b[lo + j].imbalance)
  }

  /** The h-bar forward mid return: the only column that looks ahead. */
  function FwdRet(b: seq<Bar>, p: Params, i: nat): Float
    requires i < |b|
  {
    p.kernels.logRatio(if i + p.h < |b| then b[i + p.h].mid else Null, b[i].mid)
  }

  /** `(fwdRet > cost) - fwdRet < neg cost`, where q's null is below every number. */
  function Label(x: Float, cost: real): int {
    (if x.Num? && x.r > cost then 1 else 0) - (if x.Null? || x.r < -cost then 1 else 0)
  }

  function RowAt(b: seq<Bar>, p: Params, i: nat): Row
    requires i < |b|
  {
    Row(b[i], Ret(b, p, i), p.kernels.dev(RetWindow(b, p, i)), p.kernels.avg(ImbalanceWindow(b, p, i)),
        FwdRet(b, p, i), Label(FwdRet(b, p, i), p.cost))
  }

  datatype Outcome<T> = Ok(value: T) | Failed

  /** How many rows survive dropping the w-row head and the h-row tail. */
  function TrimmedCount(n: nat, p: Params): nat {
    if n - p.w - p.h > 0 then n - p.w - p.h else 0
  }

  /** `featuresOf`: a table shorter than the horizon cannot be shifted and fails. */
  function FeaturesOf(b: seq<Bar>, p: Params): Outcome<seq<Row>> {
    if p.h > |b| then Failed
    else Ok(seq(TrimmedCount(|b|, p), i requires 0 <= i < TrimmedCount(|b|, p) => RowAt(b, p, p.w + i)))
  }

  // --- what a row says -------------------------------------------------------------------

  /** What holding `position` (short, flat or long) over a return of r earns after its cost. */
  function Profit(position: int, r: real, cost: real): real {
    if position == 0 then 0.0 else if position > 0 then r - cost else -r - cost
  }

  /** `position` earns the most, and is flat unless another one earns strictly more. */
  predicate IsBest(position: int, r: real, cost: real) {
    && -1 <= position <= 1
    && (forall other: int :: -1 <= other <= 1 ==> Profit(other, r, cost) <= Profit(position, r, cost))
    && (position != 0 ==> Profit(position, r, cost) > 0.0)
  }

  /** The label of every row with a forward return is the most profitable of short, flat and long after
      costs, flat on a tie; without a forward return it is the short one. */
  lemma LabelMeaning(b: seq<Bar>, p: Params, i: nat)
    requires p.cost >= 0.0 && FeaturesOf(b, p).Ok? && i < |FeaturesOf(b, p).value|
    ensures var row := FeaturesOf(b, p).value[i];
            if row.fwdRet.Null? then row.sign == -1
            else
              && IsBest(row.sign, row.fwdRet.r, p.cost)
              && (row.sign != 0 <==> row.fwdRet.r > p.cost || row.fwdRet.r < -p.cost)
  {
    hide Ret, RetWindow, ImbalanceWindow, FwdRet;
    assert FeaturesOf(b, p).value[i] == RowAt(b, p, p.w + i);
  }

  /** The kernel of the return columns is a difference of logarithms, for positive numbers. */
  ghost predicate IsLog(k: Kernels, log: real -> real) {
    forall x: real, y: real :: x > 0.0 && y > 0.0 ==> k.logRatio(Num(x), Num(y)) == Num(log(x) - log(y))
  }

  predicate IsReturn(x: Float, before: Float, after: Float, log: real -> real) {
    before.Num? && before.r > 0.0 && after.Num? && after.r > 0.0 ==> x == Num(log(after.r) - log(before.r))
  }

  /** `rs` are the one-bar returns from bar `lo` on. */
  ghost predicate AreReturns(rs: seq<Float>, b: seq<Bar>, lo: nat, log: real -> real) {
    && lo > 0 && lo + |rs| <= |b|
    && forall j :: 0 <= j < |rs| ==> IsReturn(rs[j], b[lo + j - 1].close, b[lo + j].close, log)
  }

  /** `xs` are the imbalances from bar `lo` on. */
  ghost predicate AreImbalances(xs: seq<Float>, b: seq<Bar>, lo: nat) {
    lo + |xs| <= |b| && forall j :: 0 <= j < |xs| ==> xs[j] == b[lo + j].imbalance
  }

  ghost predicate TrailingReturns(x: Float, b: seq<Bar>, p: Params, lo: nat, log: real -> real) {
    exists rs: seq<Float> :: |rs| == p.w && AreReturns(rs, b, lo, log) && x == p.kernels.dev(rs)
  }

  ghost predicate TrailingImbalances(x: Float, b: seq<Bar>, p: Params, lo: nat) {
    exists xs: seq<Float> :: |xs| == p.w && AreImbalances(xs, b, lo) && x == p.kernels.avg(xs)
  }

  lemma ReturnsHere(b: seq<Bar>, p: Params, j: nat, log: real -> real)
    requires IsLog(p.kernels, log) && j < |b|
    ensures j > 0 ==> IsReturn(Ret(b, p, j), b[j - 1].close, b[j].close, log)
    ensures j + p.h < |b| ==> IsReturn(FwdRet(b, p, j), b[j].mid, b[j + p.h].mid, log)
  {
  }

  lemma WindowsHere(b: seq<Bar>, p: Params, i: nat, log: real -> real)
    requires IsLog(p.kernels, log) && p.w + i < |b|
    ensures |RetWindow(b, p, p.w + i)| == |ImbalanceWindow(b, p, p.w + i)| == p.w
    ensures AreReturns(RetWindow(b, p, p.w + i), b, i + 1, log)
    ensures AreImbalances(ImbalanceWindow(b, p, p.w + i), b, i + 1)
  {
    hide Ret, FwdRet, IsReturn, IsLog;
    assert WindowStart(p.w, p.w + i) == i + 1;
    var rs := RetWindow(b, p, p.w + i);
    forall k | 0 <= k < |rs| ensures IsReturn(rs[k], b[i + 1 + k - 1].close, b[i + 1 + k].close, log) {
      assert rs[k] == Ret(b, p, i + 1 + k);
      ReturnsHere(b, p, i + 1 + k, log);
    }
  }

  /** Row i of a day is bar w + i: its return from the bar before, its mid's return over the next h bars,
      and its rolling columns over exactly the w bars ending there, so over no bar's missing return. */
  lemma RowMeaning(b: seq<Bar>, p: Params, i: nat, log: real -> real)
    requires IsLog(p.kernels, log) && FeaturesOf(b, p).Ok? && i < |FeaturesOf(b, p).value|
    ensures var row, j := FeaturesOf(b, p).value[i], p.w + i;
            && j + p.h < |b| && row.bar == b[j]
            && (j > 0 ==> IsReturn(row.ret, b[j - 1].close, b[j].close, log))
            && IsReturn(row.fwdRet, b[j].mid, b[j + p.h].mid, log)
            && TrailingReturns(row.rvol, b, p, i + 1, log) && TrailingImbalances(row.imbAvg, b, p, i + 1)
  {
    hide Ret, FwdRet, IsReturn, IsLog, RetWindow, ImbalanceWindow, AreReturns, AreImbalances, Label;
    var j := p.w + i;
    assert FeaturesOf(b, p).value[i] == RowAt(b, p, j);
    ReturnsHere(b, p, j, log);
    WindowsHere(b, p, i, log);
  }

  /** With a growing logarithm a long label means a higher mid after h bars, a short one a lower. */
  lemma LabelFollowsMid(b: seq<Bar>, p: Params, i: nat, log: real -> real)
    requires p.cost >= 0.0 && IsLog(p.kernels, log) && (forall x: real, y: real :: x <= y ==> log(x) <= log(y))
    requires FeaturesOf(b, p).Ok? && i < |FeaturesOf(b, p).value| && p.w + i + p.h < |b|
    requires b[p.w + i].mid.Num? && b[p.w + i].mid.r > 0.0
    requires b[p.w + i + p.h].mid.Num? && b[p.w + i + p.h].mid.r > 0.0
    ensures FeaturesOf(b, p).value[i].sign == 1 ==> b[p.w + i].mid.r < b[p.w + i + p.h].mid.r
    ensures FeaturesOf(b, p).value[i].sign == -1 ==> b[p.w + i].mid.r > b[p.w + i + p.h].mid.r
  {
    hide FeaturesOf;
    RowMeaning(b, p, i, log);
    LabelMeaning(b, p, i);
  }

  // --- load_features -------------------------------------------------------------------

  /** A requested day: absent from the store, or its bars. */
  datatype Day = Absent | Present(bars: seq<Bar>)

  function FeatureTable(d: Day, p: Params): Outcome<seq<Row>> {
    match d
    case Absent => Failed
    case Present(b) => FeaturesOf(b, p)
  }

  function Rows(d: Day, p: Params): seq<Row> {
    match FeatureTable(d, p)
    case Ok(rows) => rows
    case Failed => []
  }

  function AllRows(days: seq<Day>, p: Params): seq<Row> {
    if days == [] then [] else AllRows(days[..|days| - 1], p) + Rows(days[|days| - 1], p)
  }

  /** Concatenate the usable days in order; fail when nothing usable is found. */
  method LoadFeatures(days: seq<Day>, p: Params) returns (r: Outcome<seq<Row>>)
    ensures r == if AllRows(days, p) == [] then Failed else Ok(AllRows(days, p))
  {
    var frames: seq<seq<Row>> := [];
    ghost var joined: seq<Row> := [];
    for n := 0 to |days|
      invariant joined == AllRows(days[..n], p) && Buckets.Flatten(frames) == joined
      invariant (frames == [] <==> joined == [])
    {
      assert days[..n + 1][..n] == days[..n];
      var ft := FeatureTable(days[n], p);
      match ft
      case Failed =>
      case Ok(rows) =>
        if rows != [] {
          Buckets.FlattenSnoc(frames, rows);
          frames := frames + [rows];
          joined := joined + rows;
        }
    }
    assert days[..|days|] == days;
    if frames == [] {
      return Failed;
    }
    return Ok(Buckets.Flatten(frames));
  }

  // --- where each row comes from ----------------------------------------------------------

  datatype Pos = Pos(day: nat, bar: nat)

  function DayPositions(day: nat, lo: nat, hi: int): (r: seq<Pos>)
    ensures |r| == if hi > lo then hi - lo else 0
    ensures forall i :: 0 <= i < |r| ==> r[i] == Pos(day, lo + i)
  {
    if hi <= lo then [] else seq(hi - lo, i requires 0 <= i < hi - lo => Pos(day, lo + i))
  }

  /** The bars of a day that yield a row: [w, n - h). */
  function RowPositions(day: nat, d: Day, p: Params): seq<Pos> {
    if d.Absent? then [] else DayPositions(day, p.w, |d.bars| - p.h)
  }

  function Positions(days: seq<Day>, p: Params): seq<Pos> {
    if days == [] then []
    else Positions(days[..|days| - 1], p) + RowPositions(|days| - 1, days[|days| - 1], p)
  }

  /** A position's bar and its label window lie inside its own day. */
  predicate InDay(days: seq<Day>, p: Params, x: Pos) {
    x.day < |days| && days[x.day].Present? && x.bar + p.h < |days[x.day].bars|
  }

  function RowOf(days: seq<Day>, p: Params, x: Pos): Row
    requires InDay(days, p, x)
  {
    RowAt(days[x.day].bars, p, x.bar)
  }

  predicate Before(a: Pos, b: Pos) {
    a.day < b.day || (a.day == b.day && a.bar < b.bar)
  }

  ghost predicate Chronological(xs: seq<Pos>) {
    forall i, j :: 0 <= i < j < |xs| ==> Before(xs[i], xs[j])
  }

  /** The concatenated table is the rows at these positions, in chronological order. */
  lemma {:induction false} PositionsMeaning(days: seq<Day>, p: Params)
    ensures var xs := Positions(days, p);
            && Chronological(xs)
            && (forall i :: 0 <= i < |xs| ==> InDay(days, p, xs[i]) && xs[i].bar >= p.w)
            && |AllRows(days, p)| == |xs|
            && forall i :: 0 <= i < |xs| ==> AllRows(days, p)[i] == RowOf(days, p, xs[i])
  {
    if days != [] {
      var front := days[..|days| - 1];
      PositionsMeaning(front, p);
      var xs, last := Positions(front, p), RowPositions(|days| - 1, days[|days| - 1], p);
      assert |Rows(days[|days| - 1], p)| == |last|;
      forall i | 0 <= i < |xs| ensures InDay(days, p, xs[i]) && RowOf(days, p, xs[i]) == RowOf(front, p, xs[i]) {
        assert InDay(front, p, xs[i]);
      }
    }
  }

  // --- dropping incomplete rows ------------------------------------------------------------

  /** The positions that survive, in order; which ones survive is any function of position. */
  function Keep(xs: seq<Pos>, keep: Pos -> bool): seq<Pos> {
    if xs == [] then []
    else Keep(xs[..|xs| - 1], keep) + if keep(xs[|xs| - 1]) then [xs[|xs| - 1]] else []
  }

  lemma {:induction false} KeepMembers(xs: seq<Pos>, keep: Pos -> bool)
    ensures forall x :: x in Keep(xs, keep) ==> x in xs && keep(x)
  {
    if xs != [] {
      KeepMembers(xs[..|xs| - 1], keep);
      assert xs == xs[..|xs| - 1] + [xs[|xs| - 1]];
    }
  }

  lemma {:induction false} KeepChronological(xs: seq<Pos>, keep: Pos -> bool)
    requires Chronological(xs)
    ensures Chronological(Keep(xs, keep))
  {
    if xs != [] {
      var front := xs[..|xs| - 1];
      KeepChronological(front, keep);
      KeepMembers(front, keep);
      var kept := Keep(front, keep);
      forall i | 0 <= i < |kept| ensures Before(kept[i], xs[|xs| - 1]) {
        assert kept[i] in front;
      }
    }
  }

  lemma {:induction false} KeepConcat(a: seq<Pos>, b: seq<Pos>, keep: Pos -> bool)
    ensures Keep(a + b, keep) == Keep(a, keep) + Keep(b, keep)
  {
    if b == [] {
      assert a + b == a;
    } else {
      KeepConcat(a, b[..|b| - 1], keep);
      assert (a + b)[..|a + b| - 1] == a + b[..|b| - 1];
    }
  }

  /** Dropping rows and joining days never brings two kept rows closer in position than they
      are in bars. */
  lemma {:induction false} SpacingInDay(xs: seq<Pos>, i: nat, j: nat)
    requires Chronological(xs) && i <= j < |xs| && xs[i].day == xs[j].day
    ensures xs[j].bar - xs[i].bar >= j - i
    decreases j - i
  {
    if i < j {
      assert Before(xs[i], xs[j - 1]) || i == j - 1;
      assert Before(xs[j - 1], xs[j]);
      SpacingInDay(xs, i, j - 1);
    }
  }
}
