/** Purged, embargoed walk-forward splits. */
module Splits {

  /** One fold: row indices for training and for testing. */
  datatype Split = Split(train: seq<int>, test: seq<int>)

  datatype Result = Ok(splits: seq<Split>) | ValueError

  /** `np.arange(lo, hi)`. */
  function Range(lo: int, hi: int): (r: seq<int>)
    ensures |r| == if hi > lo then hi - lo else 0
    ensures forall i :: 0 <= i < |r| ==> r[i] == lo + i
  {
    if hi <= lo then [] else seq(hi - lo, i => lo + i)
  }

  datatype Plan = Plan(n: nat, folds: int, horizon: int, embargo: int, minTrain: int)

  predicate WellFormed(p: Plan) {
    p.folds >= 1 && p.horizon >= 0 && p.embargo >= 0 && p.n >= p.folds + 1
  }

  function Width(p: Plan): int
    requires p.folds >= 1
  {
    p.n / (p.folds + 1)
  }

  function TestStart(p: Plan, k: int): int
    requires p.folds >= 1
  {
    k * Width(p)
  }

  function TestEnd(p: Plan, k: int): int
    requires p.folds >= 1
  {
    if k == p.folds then p.n else (k + 1) * Width(p)
  }

  function TrainEnd(p: Plan, k: int): int
    requires p.folds >= 1
  {
    TestStart(p, k) - p.horizon - p.embargo
  }

  function FoldAt(p: Plan, k: int): Split
    requires p.folds >= 1
  {
    Split(Range(0, TrainEnd(p, k)), Range(TestStart(p, k), TestEnd(p, k)))
  }

  /** The surviving folds among the first k. */
  function Upto(p: Plan, k: nat): seq<Split>
    requires p.folds >= 1
  {
    if k == 0 then []
    else Upto(p, k - 1) + if TrainEnd(p, k) < p.minTrain then [] else [FoldAt(p, k)]
  }

  lemma DivideBounds(n: nat, d: int)
    requires d > 0
    ensures n / d >= 0
    ensures n / d == 0 <==> n < d
    ensures d * (n / d) <= n
  {
  }

  lemma WidthPositive(p: Plan)
    requires p.folds >= 1
    ensures Width(p) >= 0
    ensures Width(p) == 0 <==> p.n < p.folds + 1
    ensures (p.folds + 1) * Width(p) <= p.n
  {
    DivideBounds(p.n, p.folds + 1);
  }

  method WalkForwardSplits(p: Plan) returns (r: Result)
    ensures r == if WellFormed(p) then Ok(Upto(p, p.folds)) else ValueError
  {
    if p.folds < 1 {
      return ValueError;
    }
    if p.horizon < 0 || p.embargo < 0 {
      return ValueError;
    }
    var fold := p.n / (p.folds + 1);
    WidthPositive(p);
    if fold == 0 {
      return ValueError;
    }
    var splits := [];
    for k := 1 to p.folds + 1
      invariant splits == Upto(p, k - 1)
    {
      var testStart := k * fold;
      var testEnd := if k == p.folds then p.n else (k + 1) * fold;
      var trainEnd := testStart - p.horizon - p.embargo;
      if trainEnd < p.minTrain {
        continue;
      }
      splits := splits + [Split(Range(0, trainEnd), Range(testStart, testEnd))];
    }
    return Ok(splits);
  }

  lemma MulGap(w: int, j: int, k: int)
    requires w >= 1 && j <= k
    ensures k * w - j * w == (k - j) * w >= k - j
    ensures (k + 1) * w == k * w + w
  {
    assert (k - j) * (w - 1) >= 0;
  }

  lemma StartsAscend(p: Plan, j: int, k: int)
    requires WellFormed(p) && j <= k
    ensures TestStart(p, k) - TestStart(p, j) >= k - j
    ensures (k + 1) * Width(p) == TestStart(p, k) + Width(p)
    ensures j < k ==> TestStart(p, k) >= TestStart(p, j) + Width(p)
  {
    WidthPositive(p);
    MulGap(Width(p), j, k);
    if j < k {
      MulGap(Width(p), j + 1, k);
      MulGap(Width(p), j, j);
    }
  }

  /** With a positive minimum the skipped folds are a prefix: the result is the last folds, in order. */
  lemma {:induction false} SkippedFoldsArePrefix(p: Plan, k: nat)
    requires WellFormed(p) && k <= p.folds
    ensures |Upto(p, k)| <= k
    ensures forall i :: 0 <= i < |Upto(p, k)| ==> Upto(p, k)[i] == FoldAt(p, k - |Upto(p, k)| + 1 + i)
    ensures forall j :: 1 <= j <= k - |Upto(p, k)| ==> TrainEnd(p, j) < p.minTrain
    ensures forall j :: k - |Upto(p, k)| < j <= k ==> TrainEnd(p, j) >= p.minTrain
  {
    if k > 0 {
      SkippedFoldsArePrefix(p, k - 1);
      var before := Upto(p, k - 1);
      StartsAscend(p, k - 1, k);
      assert before != [] ==> TrainEnd(p, k - 1) >= p.minTrain;
      if TrainEnd(p, k) < p.minTrain {
        forall j | 1 <= j <= k ensures TrainEnd(p, j) < p.minTrain {
          StartsAscend(p, j, k);
        }
      }
    }
  }

  lemma WidthGreatest(p: Plan)
    requires p.folds >= 1
    ensures p.n <= (p.folds + 1) * Width(p) + p.folds
  {
  }

  lemma TestBlockNonempty(p: Plan, k: int)
    requires WellFormed(p) && 0 <= k <= p.folds
    ensures TestStart(p, k) < TestEnd(p, k) <= p.n
    ensures k < p.folds ==> TestEnd(p, k) == TestStart(p, k + 1)
  {
    WidthPositive(p);
    StartsAscend(p, k, p.folds);
    StartsAscend(p, k, k);
    if k < p.folds {
      StartsAscend(p, k + 1, p.folds);
    }
  }

  /** The rows are cut into one stretch before the first test block and the blocks, all equally long but
      the last, which takes the remainder: fewer rows than there are stretches. */
  lemma BlocksAreEven(p: Plan)
    requires WellFormed(p)
    ensures var lead := FoldAt(p, 1).test[0];
            && (forall k :: 1 <= k < p.folds ==> |FoldAt(p, k).test| == lead)
            && lead <= |FoldAt(p, p.folds).test| <= lead + p.folds
  {
    hide Width;
    WidthPositive(p);
    WidthGreatest(p);
    MulGap(Width(p), p.folds, p.folds);
    TestBlockNonempty(p, 1);
    TestBlockNonempty(p, p.folds);
    forall k | 1 <= k < p.folds ensures |FoldAt(p, k).test| == Width(p) {
      MulGap(Width(p), k, k);
    }
  }

  function Tests(s: seq<Split>): seq<int> {
    if s == [] then [] else Tests(s[..|s| - 1]) + s[|s| - 1].test
  }

  /** The first surviving fold among the first k. */
  function FirstFold(p: Plan, k: nat): int
    requires p.folds >= 1
  {
    k - |Upto(p, k)| + 1
  }

  lemma RangeJoin(a: int, b: int, c: int)
    requires a <= b <= c
    ensures Range(a, b) + Range(b, c) == Range(a, c)
  {
  }

  lemma TestsSnoc(before: seq<Split>, x: Split)
    ensures Tests(before + [x]) == Tests(before) + x.test
  {
    var all := before + [x];
    assert all[..|all| - 1] == before;
  }

  /** The block of fold k follows on from the blocks of the surviving folds before it. */
  lemma BlocksJoin(p: Plan, k: nat, first: int)
    requires WellFormed(p) && 1 <= first <= k <= p.folds
    ensures first == k ==> [] + Range(TestStart(p, k), TestEnd(p, k)) == Range(TestStart(p, first), TestEnd(p, k))
    ensures first < k ==> Range(TestStart(p, first), TestEnd(p, k - 1)) + Range(TestStart(p, k), TestEnd(p, k))
                          == Range(TestStart(p, first), TestEnd(p, k))
  {
    hide TestStart, TestEnd, Range;
    TestBlockNonempty(p, k);
    TestBlockNonempty(p, k - 1);
    StartsAscend(p, first, k);
    RangeJoin(TestStart(p, first), TestStart(p, k), TestEnd(p, k));
  }

  lemma TestsTileStep(p: Plan, k: nat)
    requires WellFormed(p) && 1 <= k <= p.folds
    requires var s := Upto(p, k - 1);
             && |s| <= k - 1
             && (s != [] ==> TrainEnd(p, k - 1) >= p.minTrain)
             && Tests(s) == if s == [] then [] else Range(TestStart(p, FirstFold(p, k - 1)), TestEnd(p, k - 1))
    ensures Tests(Upto(p, k)) == if Upto(p, k) == [] then [] else Range(TestStart(p, FirstFold(p, k)), TestEnd(p, k))
  {
    hide TestEnd, Range, Tests;
    var before := Upto(p, k - 1);
    StartsAscend(p, k - 1, k);
    if TrainEnd(p, k) < p.minTrain {
      assert before == [] && Upto(p, k) == before + [];
    } else {
      TestsSnoc(before, FoldAt(p, k));
      BlocksJoin(p, k, k - |before|);
    }
  }

  /** A fold that survives is preceded only by a surviving fold, or by none. */
  lemma {:induction false} TestsTile(p: Plan, k: nat)
    requires WellFormed(p) && k <= p.folds
    ensures Tests(Upto(p, k)) == if Upto(p, k) == [] then [] else Range(TestStart(p, FirstFold(p, k)), TestEnd(p, k))
  {
    hide Range, TestStart, TestEnd, FirstFold;
    if k > 0 {
      TestsTile(p, k - 1);
      SkippedFoldsArePrefix(p, k - 1);
      TestsTileStep(p, k);
    }
  }

  /** What a surviving fold looks like. */
  ghost predicate GoodFold(p: Plan, s: Split) {
    && |s.train| >= p.minTrain && |s.train| > 0 && s.test != []
    && s.train == Range(0, |s.train|)
    && s.test[0] - s.train[|s.train| - 1] == p.horizon + p.embargo + 1
  }

  lemma SurvivingFold(p: Plan, i: nat)
    requires WellFormed(p) && p.minTrain >= 1 && i < |Upto(p, p.folds)|
    ensures var k := FirstFold(p, p.folds) + i;
            && 1 <= k <= p.folds && TrainEnd(p, k) >= p.minTrain
            && Upto(p, p.folds)[i] == FoldAt(p, k)
            && GoodFold(p, Upto(p, p.folds)[i])
  {
    SkippedFoldsArePrefix(p, p.folds);
    TestBlockNonempty(p, FirstFold(p, p.folds) + i);
  }

  lemma TrainingGrows(p: Plan, i: nat, j: nat)
    requires WellFormed(p) && p.minTrain >= 1 && i < j < |Upto(p, p.folds)|
    ensures |Upto(p, p.folds)[i].train| < |Upto(p, p.folds)[j].train|
  {
    hide TestStart, GoodFold, Upto;
    SurvivingFold(p, i);
    SurvivingFold(p, j);
    StartsAscend(p, FirstFold(p, p.folds) + i, FirstFold(p, p.folds) + j);
  }

  lemma TestsEndAtLast(p: Plan)
    requires WellFormed(p) && p.minTrain >= 1 && Upto(p, p.folds) != []
    ensures Upto(p, p.folds)[0].test != [] && Tests(Upto(p, p.folds)) == Range(Upto(p, p.folds)[0].test[0], p.n)
  {
    hide TestStart, Upto, Tests;
    SurvivingFold(p, 0);
    TestsTile(p, p.folds);
  }

  /** The splits as a whole, for any valid arguments with a minimum of at least one training
      row: test blocks tile one suffix of the rows, training sets strictly expand, and the gap
      from last training row to first test row is exactly horizon + embargo + 1. */
  lemma SplitStructure(p: Plan)
    requires WellFormed(p) && p.minTrain >= 1
    ensures var s := Upto(p, p.folds);
            && (forall i :: 0 <= i < |s| ==> GoodFold(p, s[i]))
            && (s != [] ==> Tests(s) == Range(s[0].test[0], p.n))
            && (forall i, j :: 0 <= i < j < |s| ==> |s[i].train| < |s[j].train|)
  {
    hide Upto, Range, Tests;
    var s := Upto(p, p.folds);
    forall i | 0 <= i < |s| ensures GoodFold(p, s[i]) {
      SurvivingFold(p, i);
    }
    forall i, j | 0 <= i < j < |s| ensures |s[i].train| < |s[j].train| {
      TrainingGrows(p, i, j);
    }
    if s != [] {
      TestsEndAtLast(p);
    }
  }
}
