/** What the numbers of an evaluation report say of the predictions they were computed from. */
module Reports {
  import opened Aggregates
  import opened Ascents
  import opened Splits
  import opened Evaluation

  // --- acting on the predictions -----------------------------------------------------------

  /** Forward returns of the rows predicted above zero. */
  function Longs(yp: seq<int>, fwd: seq<real>): seq<real>
    requires |yp| == |fwd|
  {
    if yp == [] then [] else (if yp[0] > 0 then [fwd[0]] else []) + Longs(yp[1..], fwd[1..])
  }

  /** Forward returns of the rows predicted below zero. */
  function Shorts(yp: seq<int>, fwd: seq<real>): seq<real>
    requires |yp| == |fwd|
  {
    if yp == [] then [] else (if yp[0] < 0 then [fwd[0]] else []) + Shorts(yp[1..], fwd[1..])
  }

  function Total(xs: seq<real>): real {
    if xs == [] then 0.0 else xs[0] + Total(xs[1..])
  }

  /** The squares of what longs and shorts earn after costs. */
  function Squares(yp: seq<int>, fwd: seq<real>, cost: real): real
    requires |yp| == |fwd|
  {
    if yp == [] then 0.0
    else
      (if yp[0] > 0 then Product(fwd[0] - cost, fwd[0] - cost)
       else if yp[0] < 0 then Product(fwd[0] + cost, fwd[0] + cost)
       else 0.0)
      + Squares(yp[1..], fwd[1..], cost)
  }

  /** Row `i` makes money: a long whose return exceeds the cost, or a short whose loss does. */
  predicate Pays(yp: seq<int>, fwd: seq<real>, cost: real, i: int)
    requires |yp| == |fwd| && 0 <= i < |yp|
  {
    (yp[i] > 0 && fwd[i] > cost) || (yp[i] < 0 && fwd[i] < -cost)
  }

  function Paying(yp: seq<int>, fwd: seq<real>, cost: real): set<int>
    requires |yp| == |fwd|
  {
    set i | 0 <= i < |yp| && Pays(yp, fwd, cost, i)
  }

  /** The rows predicted as they turned out. */
  function Right(yt: seq<int>, yp: seq<int>): set<int>
    requires |yt| == |yp|
  {
    set i | 0 <= i < |yt| && yt[i] == yp[i]
  }

  function Shifted(rows: set<int>): set<int> {
    set i | i in rows :: i + 1
  }

  lemma InShifted(rows: set<int>, i: int)
    ensures i in Shifted(rows) <==> i - 1 in rows
  {
    assert i - 1 in rows ==> (i - 1) + 1 in Shifted(rows);
  }

  lemma {:induction false} ShiftedSize(rows: set<int>)
    ensures |Shifted(rows)| == |rows|
  {
    if rows == {} {
      assert Shifted(rows) == {};
    } else {
      assert (forall x :: x !in rows) ==> rows == {};
      var x :| x in rows;
      ShiftedSize(rows - {x});
      forall i ensures i in Shifted(rows) <==> i in Shifted(rows - {x}) + {x + 1} {
        InShifted(rows, i);
        InShifted(rows - {x}, i);
      }
      InShifted(rows - {x}, x + 1);
      assert Shifted(rows) == Shifted(rows - {x}) + {x + 1};
    }
  }

  lemma {:induction false} TotalAppend(x: real, xs: seq<real>)
    ensures Total([x] + xs) == x + Total(xs) && Total([] + xs) == Total(xs)
  {
    assert ([x] + xs)[1..] == xs && [] + xs == xs;
  }

  lemma NetOf(y: int, fwd: real, cost: real)
    ensures Net(y, fwd, cost) == if y > 0 then fwd - cost else if y < 0 then -fwd - cost else 0.0
  {
  }

  /** One more row acted on costs `cost` more. */
  lemma OneMore(cost: real, n: nat)
    ensures Product(cost, (n + 1) as real) == Product(cost, n as real) + cost
  {
  }

  lemma {:induction false} ActedOn(yp: seq<int>, fwd: seq<real>)
    requires |yp| == |fwd|
    ensures TradeCount(yp) == |Longs(yp, fwd)| + |Shorts(yp, fwd)|
  {
    if yp != [] {
      ActedOn(yp[1..], fwd[1..]);
    }
  }

  lemma {:induction false} NetSums(yp: seq<int>, fwd: seq<real>, cost: real)
    requires |yp| == |fwd|
    ensures TotalNet(yp, fwd, cost)
            == Total(Longs(yp, fwd)) - Total(Shorts(yp, fwd)) - Product(cost, TradeCount(yp) as real)
  {
    if yp == [] {
      assert Product(cost, 0.0) == 0.0;
    } else {
      hide Net, Product;
      NetSums(yp[1..], fwd[1..], cost);
      NetOf(yp[0], fwd[0], cost);
      TotalAppend(fwd[0], Longs(yp[1..], fwd[1..]));
      TotalAppend(fwd[0], Shorts(yp[1..], fwd[1..]));
      OneMore(cost, TradeCount(yp[1..]));
    }
  }

  /** The total net return: what the longs gained, less what the shorts' rows gained, less the cost
      of every row that was acted on. */
  lemma NetMeaning(yp: seq<int>, fwd: seq<real>, cost: real)
    requires |yp| == |fwd|
    ensures var longs, shorts := Longs(yp, fwd), Shorts(yp, fwd);
            && TradeCount(yp) == |longs| + |shorts|
            && TotalNet(yp, fwd, cost) == Total(longs) - Total(shorts) - cost * (|longs| + |shorts|) as real
  {
    hide Longs, Shorts, Total, TotalNet, TradeCount;
    ActedOn(yp, fwd);
    NetSums(yp, fwd, cost);
  }

  lemma PayingStep(yp: seq<int>, fwd: seq<real>, cost: real)
    requires |yp| == |fwd| > 0
    ensures var rest := Shifted(Paying(yp[1..], fwd[1..], cost));
            0 !in rest && Paying(yp, fwd, cost) == if Pays(yp, fwd, cost, 0) then {0} + rest else rest
  {
    hide Shifted;
    var rest := Paying(yp[1..], fwd[1..], cost);
    InShifted(rest, 0);
    forall i ensures i in Paying(yp, fwd, cost) <==> i in Shifted(rest) || (i == 0 && Pays(yp, fwd, cost, 0)) {
      InShifted(rest, i);
      if 1 <= i < |yp| {
        assert Pays(yp, fwd, cost, i) == Pays(yp[1..], fwd[1..], cost, i - 1);
      }
    }
  }

  /** The wins are the rows that make money. */
  lemma {:induction false} WinsMeaning(yp: seq<int>, fwd: seq<real>, cost: real)
    requires |yp| == |fwd|
    ensures Wins(yp, fwd, cost) == |Paying(yp, fwd, cost)|
  {
    if yp == [] {
      assert Paying(yp, fwd, cost) == {};
    } else {
      hide Net, Shifted, Paying;
      WinsMeaning(yp[1..], fwd[1..], cost);
      ShiftedSize(Paying(yp[1..], fwd[1..], cost));
      PayingStep(yp, fwd, cost);
      NetOf(yp[0], fwd[0], cost);
    }
  }

  lemma RightStep(yt: seq<int>, yp: seq<int>)
    requires |yt| == |yp| > 0
    ensures var rest := Shifted(Right(yt[1..], yp[1..]));
            0 !in rest && Right(yt, yp) == if yt[0] == yp[0] then {0} + rest else rest
  {
    hide Shifted;
    var rest := Right(yt[1..], yp[1..]);
    InShifted(rest, 0);
    forall i ensures i in Right(yt, yp) <==> i in Shifted(rest) || (i == 0 && yt[0] == yp[0]) {
      InShifted(rest, i);
      if 1 <= i < |yt| {
        assert yt[i] == yt[1..][i - 1] && yp[i] == yp[1..][i - 1];
      }
    }
  }

  /** The hits are the rows predicted right. */
  lemma {:induction false} HitsMeaning(yt: seq<int>, yp: seq<int>)
    requires |yt| == |yp|
    ensures Hits(yt, yp) == |Right(yt, yp)|
  {
    if yt == [] {
      assert Right(yt, yp) == {};
    } else {
      hide Shifted, Right;
      HitsMeaning(yt[1..], yp[1..]);
      ShiftedSize(Right(yt[1..], yp[1..]));
      RightStep(yt, yp);
    }
  }

  lemma SquareOfDifference(x: real, m: real)
    ensures Product(x - m, x - m) == Product(x, x) - 2.0 * Product(m, x) + Product(m, m)
  {
  }

  lemma OneMoreProduct(m: real, n: nat)
    ensures Product((n + 1) as real, m) == Product(n as real, m) + m
  {
  }

  lemma ProductAdds(m: real, a: real, b: real)
    ensures Product(m, a + b) == Product(m, a) + Product(m, b)
  {
  }

  lemma SquareOfNet(y: int, fwd: real, cost: real)
    ensures Product(Net(y, fwd, cost), Net(y, fwd, cost))
            == if y > 0 then Product(fwd - cost, fwd - cost) else if y < 0 then Product(fwd + cost, fwd + cost) else 0.0
  {
    hide Net;
    NetOf(y, fwd, cost);
    assert Product(-fwd - cost, -fwd - cost) == Product(fwd + cost, fwd + cost);
  }

  lemma {:induction false} DeviationExpands(yp: seq<int>, fwd: seq<real>, cost: real, m: real)
    requires |yp| == |fwd|
    ensures Deviation(yp, fwd, cost, m)
            == Squares(yp, fwd, cost) - 2.0 * Product(m, TotalNet(yp, fwd, cost))
               + Product(|yp| as real, Product(m, m))
  {
    if yp != [] {
      hide Net, Product;
      var net := Net(yp[0], fwd[0], cost);
      DeviationExpands(yp[1..], fwd[1..], cost, m);
      SquareOfDifference(net, m);
      ProductAdds(m, net, TotalNet(yp[1..], fwd[1..], cost));
      OneMoreProduct(Product(m, m), |yp[1..]|);
      SquareOfNet(yp[0], fwd[0], cost);
    }
  }

  lemma Undivided(a: real, n: real)
    requires n != 0.0
    ensures Product(n, a / n) == a
  {
  }

  lemma Reassociate(n: real, m: real)
    ensures Product(m, Product(n, m)) == Product(n, Product(m, m))
  {
  }

  /** Mean and variance, undivided: n times the variance is the sum of squares less n squared means. */
  lemma SpreadMeaning(yp: seq<int>, fwd: seq<real>, cost: real)
    requires |yp| == |fwd| > 0
    ensures var mean, n := MeanNet(yp, fwd, cost), |yp| as real;
            && Product(n, mean) == TotalNet(yp, fwd, cost)
            && Product(n, Variance(yp, fwd, cost)) == Squares(yp, fwd, cost) - Product(n, Product(mean, mean))
  {
    hide Product, Deviation, TotalNet, Squares;
    var mean, n := MeanNet(yp, fwd, cost), |yp| as real;
    Undivided(TotalNet(yp, fwd, cost), n);
    Undivided(Deviation(yp, fwd, cost, mean), n);
    DeviationExpands(yp, fwd, cost, mean);
    Reassociate(n, mean);
  }

  // --- accuracy and recall --------------------------------------------------------------------

  /** Over the given classes, each recall weighted by the size of its class. */
  function WeightedRecall(yt: seq<int>, yp: seq<int>, cs: seq<int>): real
    requires |yt| == |yp| && forall c :: c in cs ==> CountOf(yt, c) > 0
  {
    if cs == [] then 0.0
    else
      WeightedRecall(yt, yp, cs[..|cs| - 1])
      + Product(CountOf(yt, cs[|cs| - 1]) as real, Recall(yt, yp, cs[|cs| - 1]))
  }

  /** The hits on rows of the given classes. */
  function HitsIn(yt: seq<int>, yp: seq<int>, cs: seq<int>): nat
    requires |yt| == |yp|
  {
    if cs == [] then 0 else HitsIn(yt, yp, cs[..|cs| - 1]) + HitsOf(yt, yp, cs[|cs| - 1])
  }

  lemma {:induction false} HitsInStep(yt: seq<int>, yp: seq<int>, cs: seq<int>)
    requires |yt| == |yp| && yt != [] && Ascending(cs)
    ensures HitsIn(yt, yp, cs)
            == HitsIn(yt[1..], yp[1..], cs) + if yt[0] in cs && yt[0] == yp[0] then 1 else 0
  {
    if cs != [] {
      var front, last := cs[..|cs| - 1], cs[|cs| - 1];
      assert cs == front + [last] && last !in front;
      HitsInStep(yt, yp, front);
    }
  }

  lemma {:induction false} NoRowsNoHits(cs: seq<int>)
    ensures HitsIn([], [], cs) == 0
  {
    if cs != [] {
      NoRowsNoHits(cs[..|cs| - 1]);
    }
  }

  lemma {:induction false} HitsByClass(yt: seq<int>, yp: seq<int>, cs: seq<int>)
    requires |yt| == |yp| && Ascending(cs) && forall y :: y in yt ==> y in cs
    ensures HitsIn(yt, yp, cs) == Hits(yt, yp)
  {
    if yt == [] {
      NoRowsNoHits(cs);
    } else {
      HitsInStep(yt, yp, cs);
      HitsByClass(yt[1..], yp[1..], cs);
    }
  }

  lemma {:induction false} WeightedRecallIsHits(yt: seq<int>, yp: seq<int>, cs: seq<int>)
    requires |yt| == |yp| && forall c :: c in cs ==> CountOf(yt, c) > 0
    ensures WeightedRecall(yt, yp, cs) == HitsIn(yt, yp, cs) as real
  {
    if cs != [] {
      var c := cs[|cs| - 1];
      assert c in cs;
      WeightedRecallIsHits(yt, yp, cs[..|cs| - 1]);
      Undivided(HitsOf(yt, yp, c) as real, CountOf(yt, c) as real);
    }
  }

  lemma {:induction false} PresentIsCounted(yt: seq<int>, c: int)
    requires c in yt
    ensures CountOf(yt, c) > 0
  {
    if yt[0] != c {
      PresentIsCounted(yt[1..], c);
    }
  }

  lemma {:induction false} CountedIsPresent(yt: seq<int>, c: int) returns (i: nat)
    requires CountOf(yt, c) > 0
    ensures i < |yt| && yt[i] == c
  {
    if yt[0] == c {
      i := 0;
    } else {
      var j := CountedIsPresent(yt[1..], c);
      i := j + 1;
    }
  }

  /** Accuracy is the mean recall weighted by class size, where balanced accuracy is the plain mean;
      both are undefined exactly without rows. */
  lemma AccuracyIsWeightedRecall(yt: seq<int>, yp: seq<int>)
    requires |yt| == |yp|
    ensures forall c :: c in Unique(yt) <==> CountOf(yt, c) > 0
    ensures yt == [] <==> Accuracy(yt, yp) == Null
    ensures yt == [] <==> BalancedAccuracy(yt, yp) == Null
    ensures yt != [] ==>
              Product(|yt| as real, Accuracy(yt, yp).r) == WeightedRecall(yt, yp, Unique(yt))
              == |Right(yt, yp)| as real
  {
    UniqueMeaning(yt);
    if yt != [] {
      forall y | y in yt ensures y in Unique(yt) {
        PresentIsCounted(yt, y);
      }
      HitsByClass(yt, yp, Unique(yt));
      WeightedRecallIsHits(yt, yp, Unique(yt));
      HitsMeaning(yt, yp);
      Undivided(Hits(yt, yp) as real, |yt| as real);
    }
  }

  // --- a whole report entry ------------------------------------------------------------------------

  /** `x` is `a` divided by the number of its parts, and null when there are none. */
  predicate IsShare(x: Float, a: real, n: nat) {
    if n == 0 then x == Null else x.Num? && Product(n as real, x.r) == a
  }

  lemma RatioIsShare(a: real, n: nat)
    ensures IsShare(Ratio(a, n as real), a, n)
  {
    if n > 0 {
      Undivided(a, n as real);
    }
  }

  /** Mean and variance of what the rows earn after costs; a variance of zero is not reported. */
  predicate IsSpread(x: Sharpe, total: real, squares: real, n: nat) {
    x.MeanOverRoot? ==>
      && x.variance > 0.0 && Product(n as real, x.mean) == total
      && Product(n as real, x.variance) == squares - Product(n as real, Product(x.mean, x.mean))
  }

  /** The entry's columns in terms of labels, predictions and forward returns. */
  ghost predicate IsEntry(x: Metrics, yt: seq<int>, yp: seq<int>, fwd: seq<real>, cost: real)
    requires |yt| == |yp| == |fwd|
  {
    var longs, shorts := Longs(yp, fwd), Shorts(yp, fwd);
    && x.n == |yt| && x.hits == |Right(yt, yp)| && IsShare(x.accuracy, x.hits as real, x.n)
    && x.nTrades == |longs| + |shorts| && x.wins == |Paying(yp, fwd, cost)|
    && IsShare(x.hitRate, x.wins as real, x.nTrades)
    && x.totalNet == Total(longs) - Total(shorts) - cost * x.nTrades as real
    && IsShare(x.meanNet, x.totalNet, x.n)
    && IsSpread(x.sharpe, x.totalNet, Squares(yp, fwd, cost), x.n)
  }

  lemma SharpeIsSpread(yp: seq<int>, fwd: seq<real>, cost: real)
    requires |yp| == |fwd|
    ensures IsSpread(SharpeOf(yp, fwd, cost), TotalNet(yp, fwd, cost), Squares(yp, fwd, cost), |yp|)
  {
    hide Product, MeanNet, Variance, Squares, TotalNet;
    if yp != [] {
      SpreadMeaning(yp, fwd, cost);
    }
  }

  /** Every entry of a report, pooled or of one fold, is what its columns are documented to be. */
  lemma {:induction false} MetricsMeaning(yt: seq<int>, yp: seq<int>, fwd: seq<real>, cost: real)
    requires |yt| == |yp| == |fwd|
    ensures IsEntry(MetricsOf(yt, yp, fwd, cost), yt, yp, fwd, cost)
  {
    hide Product, Hits, Wins, TradeCount, TotalNet, Squares, SharpeOf, BalancedAccuracy, Longs, Shorts, Total, Right,
         Paying;
    HitsMeaning(yt, yp);
    WinsMeaning(yp, fwd, cost);
    NetMeaning(yp, fwd, cost);
    SharpeIsSpread(yp, fwd, cost);
    RatioIsShare(Hits(yt, yp) as real, |yt|);
    RatioIsShare(Wins(yp, fwd, cost) as real, TradeCount(yp));
    RatioIsShare(TotalNet(yp, fwd, cost), |yp|);
  }

  // --- what a report is computed from ---------------------------------------------------------------

  /** The test rows of the folds that were predicted, in order. */
  function TestedRows(s: seq<Sample>, splits: seq<Split>, k: nat): seq<int>
    requires k <= |splits| && AllFit(splits, |s|)
  {
    if k == 0 then []
    else TestedRows(s, splits, k - 1) + if SingleClass(s, splits[k - 1]) then [] else splits[k - 1].test
  }

  lemma {:induction false} TestedRowsFit(s: seq<Sample>, splits: seq<Split>, k: nat)
    requires k <= |splits| && AllFit(splits, |s|)
    ensures Indexes(TestedRows(s, splits, k), |s|)
  {
    if k > 0 {
      TestedRowsFit(s, splits, k - 1);
      assert SplitFits(splits[k - 1], |s|);
    }
  }

  /** A fold is skipped exactly if its training labels are all the same. */
  lemma SkippedIff(s: seq<Sample>, sp: Split)
    requires SplitFits(sp, |s|)
    ensures SingleClass(s, sp)
            <==> forall i, j :: 0 <= i < |sp.train| && 0 <= j < |sp.train| ==> s[sp.train[i]].y == s[sp.train[j]].y
  {
    var ys := Labels(s, sp.train);
    var cs := Unique(ys);
    UniqueMeaning(ys);
    forall i | 0 <= i < |ys| ensures ys[i] in cs {
      PresentIsCounted(ys, ys[i]);
    }
    if |cs| >= 2 {
      assert cs[0] in cs && cs[1] in cs && cs[0] < cs[1];
      var i := CountedIsPresent(ys, cs[0]);
      var j := CountedIsPresent(ys, cs[1]);
      assert s[sp.train[i]].y != s[sp.train[j]].y;
    } else {
      forall i, j | 0 <= i < |sp.train| && 0 <= j < |sp.train| ensures s[sp.train[i]].y == s[sp.train[j]].y {
        assert ys[i] in cs && ys[j] in cs;
      }
    }
  }

  lemma FoldHolds(s: seq<Sample>, sp: Split, m: Model)
    requires SplitFits(sp, |s|)
    ensures var f := RunFold(s, sp, m);
            && f.trainSize == |sp.train| && f.yt == Labels(s, sp.test) && f.fwd == Fwds(s, sp.test)
  {
  }

  lemma IndexesJoin(s: seq<Sample>, a: seq<int>, b: seq<int>)
    requires Indexes(a, |s|) && Indexes(b, |s|)
    ensures Indexes(a + b, |s|)
    ensures Labels(s, a + b) == Labels(s, a) + Labels(s, b) && Fwds(s, a + b) == Fwds(s, a) + Fwds(s, b)
  {
  }

  lemma FoldJoins(s: seq<Sample>, splits: seq<Split>, k: nat, m: Model)
    requires 0 < k <= |splits| && AllFit(splits, |s|) && SplitFits(splits[k - 1], |s|)
    ensures SingleClass(s, splits[k - 1]) ==>
              TestedRows(s, splits, k) == TestedRows(s, splits, k - 1)
              && Usable(s, splits, k, m) == Usable(s, splits, k - 1, m)
    ensures !SingleClass(s, splits[k - 1]) ==>
              TestedRows(s, splits, k) == TestedRows(s, splits, k - 1) + splits[k - 1].test
              && Usable(s, splits, k, m) == Usable(s, splits, k - 1, m) + [RunFold(s, splits[k - 1], m)]
  {
    hide SingleClass, RunFold;
  }

  /** The pooled labels and forward returns are those of the tested rows. */
  lemma {:induction false} JoinsAreTestedRows(s: seq<Sample>, splits: seq<Split>, k: nat, m: Model)
    requires k <= |splits| && AllFit(splits, |s|)
    ensures Indexes(TestedRows(s, splits, k), |s|)
    ensures JoinTrue(Usable(s, splits, k, m)) == Labels(s, TestedRows(s, splits, k))
    ensures JoinFwd(Usable(s, splits, k, m)) == Fwds(s, TestedRows(s, splits, k))
  {
    TestedRowsFit(s, splits, k);
    if k > 0 {
      hide SingleClass, RunFold, Usable, TestedRows, Indexes, Labels, Fwds, JoinTrue, JoinFwd;
      var sp := splits[k - 1];
      assert SplitFits(sp, |s|);
      JoinsAreTestedRows(s, splits, k - 1, m);
      FoldJoins(s, splits, k, m);
      if !SingleClass(s, sp) {
        JoinSnoc(Usable(s, splits, k - 1, m), RunFold(s, sp, m));
        FoldHolds(s, sp, m);
        IndexesJoin(s, TestedRows(s, splits, k - 1), sp.test);
      }
    }
  }

  lemma {:induction false} NoneSkipped(s: seq<Sample>, splits: seq<Split>, k: nat)
    requires k <= |splits| && AllFit(splits, |s|)
    requires forall i :: 0 <= i < k ==> !SingleClass(s, splits[i])
    ensures TestedRows(s, splits, k) == Tests(splits[..k])
  {
    hide SingleClass;
    if k > 0 {
      NoneSkipped(s, splits, k - 1);
      assert splits[..k] == splits[..k - 1] + [splits[k - 1]];
      TestsSnoc(splits[..k - 1], splits[k - 1]);
    }
  }

  /** The pooled entry compares some prediction of each tested row with that row's own label and
      forward return. */
  ghost predicate PoolsRows(pooled: Metrics, s: seq<Sample>, rows: seq<int>, cost: real)
    requires Indexes(rows, |s|)
  {
    exists yp: seq<int> :: |yp| == |rows| && IsEntry(pooled, Labels(s, rows), yp, Fwds(s, rows), cost)
  }

  lemma EntryPools(s: seq<Sample>, rows: seq<int>, yp: seq<int>, cost: real)
    requires Indexes(rows, |s|) && |yp| == |rows|
    ensures PoolsRows(MetricsOf(Labels(s, rows), yp, Fwds(s, rows), cost), s, rows, cost)
  {
    MetricsMeaning(Labels(s, rows), yp, Fwds(s, rows), cost);
  }

  lemma {:induction false} PooledRows(s: seq<Sample>, m: Model, p: Plan, cost: real)
    requires AnswersEveryRow(m) && p.n == |s| && p.minTrain >= 1
    requires Expected(s, m, p, cost).Evaluated?
    ensures WellFormed(p) && AllFit(Upto(p, p.folds), |s|)
    ensures var rows := TestedRows(s, Upto(p, p.folds), |Upto(p, p.folds)|);
            Indexes(rows, |s|) && PoolsRows(Expected(s, m, p, cost).report.pooled, s, rows, cost)
  {
    hide MetricsOf, Upto, SingleClass, IsEntry, PoolsRows;
    SplitsFit(p);
    var splits := Upto(p, p.folds);
    var fs, rows := Usable(s, splits, |splits|, m), TestedRows(s, splits, |splits|);
    UsableOk(s, splits, |splits|, m);
    JoinsAreTestedRows(s, splits, |splits|, m);
    JoinsAligned(fs);
    EntryPools(s, rows, JoinPred(fs), cost);
  }

  lemma {:induction false} AllUsable(s: seq<Sample>, splits: seq<Split>, k: nat, m: Model)
    requires k <= |splits| && AllFit(splits, |s|) && |Usable(s, splits, k, m)| == k
    requires AnswersEveryRow(m)
    ensures forall i :: 0 <= i < k ==> !SingleClass(s, splits[i])
  {
    hide SingleClass;
    if k > 0 {
      UsableOk(s, splits, k - 1, m);
      AllUsable(s, splits, k - 1, m);
    }
  }

  /** When no fold is skipped for its labels, the pooled metrics cover a suffix of the rows, each once. */
  lemma {:induction false} PooledCoversSuffix(s: seq<Sample>, m: Model, p: Plan, cost: real)
    requires AnswersEveryRow(m) && p.n == |s| && p.minTrain >= 1
    requires Expected(s, m, p, cost).Evaluated? && Expected(s, m, p, cost).report.nSkipped == 0
    ensures exists start: nat :: start <= |s| && Indexes(Range(start, |s|), |s|)
              && PoolsRows(Expected(s, m, p, cost).report.pooled, s, Range(start, |s|), cost)
  {
    hide MetricsOf, Upto, SingleClass, PoolsRows;
    PooledRows(s, m, p, cost);
    var splits := Upto(p, p.folds);
    UsableOk(s, splits, |splits|, m);
    AllUsable(s, splits, |splits|, m);
    NoneSkipped(s, splits, |splits|);
    assert splits[..|splits|] == splits;
    SplitStructure(p);
    assert SplitFits(splits[0], |s|);
    assert splits[0].test[0] in splits[0].test;
  }

  /** The training sizes reported are those of the folds used, and strictly grow. */
  lemma {:induction false} TrainedGrows(s: seq<Sample>, splits: seq<Split>, k: nat, m: Model)
    requires k <= |splits| && AllFit(splits, |s|)
    requires forall i, j :: 0 <= i < j < |splits| ==> |splits[i].train| < |splits[j].train|
    ensures var sizes := Trained(Usable(s, splits, k, m));
            && (forall i, j :: 0 <= i < j < |sizes| ==> sizes[i] < sizes[j])
            && (forall i :: 0 <= i < |sizes| ==> exists j :: 0 <= j < k && sizes[i] == |splits[j].train|)
  {
    hide SingleClass, RunFold;
    if k > 0 {
      TrainedGrows(s, splits, k - 1, m);
      var before, sp := Trained(Usable(s, splits, k - 1, m)), splits[k - 1];
      assert SplitFits(sp, |s|);
      FoldJoins(s, splits, k, m);
      if !SingleClass(s, sp) {
        FoldHolds(s, sp, m);
        var sizes := Trained(Usable(s, splits, k, m));
        assert sizes == before + [|sp.train|];
        forall i | 0 <= i < |before| ensures before[i] < |sp.train| {
          var j :| 0 <= j < k - 1 && before[i] == |splits[j].train|;
        }
        assert sizes[|before|] == |splits[k - 1].train|;
      }
    }
  }

  lemma ReportedSizesGrow(s: seq<Sample>, m: Model, p: Plan, cost: real)
    requires AnswersEveryRow(m) && p.n == |s| && p.minTrain >= 1
    requires Expected(s, m, p, cost).Evaluated?
    ensures var r := Expected(s, m, p, cost).report;
            && |r.trained| == |r.perFold|
            && (forall i, j :: 0 <= i < j < |r.trained| ==> r.trained[i] < r.trained[j])
            && (forall i :: 0 <= i < |r.trained| ==>
                  exists j :: 0 <= j < |Upto(p, p.folds)| && r.trained[i] == |Upto(p, p.folds)[j].train|)
  {
    hide MetricsOf, Upto, SingleClass;
    SplitsFit(p);
    var splits := Upto(p, p.folds);
    UsableOk(s, splits, |splits|, m);
    SplitStructure(p);
    TrainedGrows(s, splits, |splits|, m);
  }

  ghost predicate FromSplit(x: Metrics, size: nat, s: seq<Sample>, sp: Split, cost: real) {
    SplitFits(sp, |s|) && size == |sp.train| && PoolsRows(x, s, sp.test, cost)
  }

  /** Entry `i` is that of a fold used: over its test rows. */
  ghost predicate FromFold(x: Metrics, size: nat, s: seq<Sample>, splits: seq<Split>, cost: real)
    requires AllFit(splits, |s|)
  {
    exists j :: 0 <= j < |splits| && FromSplit(x, size, s, splits[j], cost)
  }

  lemma FoldEntry(s: seq<Sample>, sp: Split, m: Model, cost: real)
    requires SplitFits(sp, |s|) && AnswersEveryRow(m)
    ensures var f := RunFold(s, sp, m);
            FoldOk(f) && FromSplit(FoldMetrics(f, cost), f.trainSize, s, sp, cost)
  {
    hide MetricsOf, PoolsRows;
    FoldHolds(s, sp, m);
    EntryPools(s, sp.test, RunFold(s, sp, m).yp, cost);
  }

  lemma {:induction false} UsedFolds(s: seq<Sample>, splits: seq<Split>, k: nat, m: Model, i: nat)
    requires k <= |splits| && AllFit(splits, |s|) && i < |Usable(s, splits, k, m)|
    ensures exists j ::
              0 <= j < k && SplitFits(splits[j], |s|) && Usable(s, splits, k, m)[i] == RunFold(s, splits[j], m)
  {
    hide SingleClass, RunFold;
    assert SplitFits(splits[k - 1], |s|);
    FoldJoins(s, splits, k, m);
    if i < |Usable(s, splits, k - 1, m)| {
      UsedFolds(s, splits, k - 1, m, i);
    }
  }

  /** Every fold's entry compares predictions of that fold's test rows with their own labels and returns, and
      its training size is that fold's. */
  lemma FoldEntries(s: seq<Sample>, m: Model, p: Plan, cost: real, i: nat)
    requires AnswersEveryRow(m) && p.n == |s| && p.minTrain >= 1
    requires Expected(s, m, p, cost).Evaluated? && i < |Expected(s, m, p, cost).report.perFold|
    ensures WellFormed(p) && AllFit(Upto(p, p.folds), |s|)
    ensures var r := Expected(s, m, p, cost).report;
            i < |r.trained| && FromFold(r.perFold[i], r.trained[i], s, Upto(p, p.folds), cost)
  {
    hide MetricsOf, FoldMetrics, Upto, SingleClass, RunFold, FromSplit;
    SplitsFit(p);
    var splits := Upto(p, p.folds);
    UsableOk(s, splits, |splits|, m);
    var fs := Usable(s, splits, |splits|, m);
    UsedFolds(s, splits, |splits|, m, i);
    var j :| 0 <= j < |splits| && SplitFits(splits[j], |s|) && fs[i] == RunFold(s, splits[j], m);
    FoldEntry(s, splits[j], m, cost);
  }
}
