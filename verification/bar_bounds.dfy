/** Every bar stays inside its own range, when built from trades and when re-bucketed. */
module BarBounds {
  import opened Buckets
  import opened Aggregates
  import opened Bars

  predicate Within(x: Float, lo: real, hi: real) {
    x.Num? ==> lo <= x.r <= hi
  }

  predicate Sane(b: Ohlcv) {
    && b.low <= b.open <= b.high
    && b.low <= b.close <= b.high
    && Within(b.vwap, b.low, b.high)
    && b.buyVol >= 0.0 && b.sellVol >= 0.0
    && b.buyVol + b.sellVol == b.vol
    && Within(b.imbalance, -1.0, 1.0)
    && (b.vwap == Null <==> b.vol == 0.0)
    && (b.imbalance == Null <==> b.vol == 0.0)
    && b.trades >= 1
  }

  lemma RatioWithin(a: real, b: real, lo: real, hi: real)
    requires b >= 0.0 && lo * b <= a <= hi * b
    ensures Within(Ratio(a, b), lo, hi)
    ensures Ratio(a, b) == Null <==> b == 0.0
  {
    if b > 0.0 {
      RatioBounds(a, b, lo, hi);
    }
  }

  lemma ImbalanceWithin(buy: real, sell: real)
    requires buy >= 0.0 && sell >= 0.0
    ensures Within(Ratio(buy - sell, buy + sell), -1.0, 1.0)
  {
    RatioWithin(buy - sell, buy + sell, -1.0, 1.0);
  }

  lemma ScaleBounds(q: real, lo: real, p: real, hi: real)
    requires q >= 0.0 && lo <= p <= hi
    ensures lo * q <= q * p <= hi * q
  {
  }

  lemma OneTradeWeighs(t: Trade, lo: real, hi: real)
    requires t.qty >= 0.0 && lo <= t.price <= hi
    ensures WeighsBetween(Qty(t), Notional(t), lo, hi)
  {
    ScaleBounds(t.qty, lo, t.price, hi);
  }

  lemma {:induction false} NotionalBounds(ts: seq<Trade>, lo: real, hi: real)
    requires NonNegative(ts) && forall t :: t in ts ==> lo <= t.price <= hi
    ensures lo * Sum(ts, Qty) <= Sum(ts, Notional) <= hi * Sum(ts, Qty)
  {
    forall t | t in ts ensures WeighsBetween(Qty(t), Notional(t), lo, hi) {
      OneTradeWeighs(t, lo, hi);
    }
    SumBounds(ts, Qty, Notional, lo, hi);
  }

  lemma {:induction false} PricesInRange(ts: seq<Trade>)
    requires ts != []
    ensures forall t :: t in ts ==> MinOf(ts, Price) <= t.price <= MaxOf(ts, Price)
  {
    MinMeaning(ts, Price);
    MaxMeaning(ts, Price);
    forall t | t in ts ensures MinOf(ts, Price) <= t.price <= MaxOf(ts, Price) {
      assert MinOf(ts, Price) <= Price(t) <= MaxOf(ts, Price);
    }
  }

  lemma {:induction false} BuiltVwapSane(ts: seq<Trade>)
    requires ts != [] && NonNegative(ts)
    ensures var b := BarCols(ts); Within(b.vwap, b.low, b.high) && (b.vwap == Null <==> b.vol == 0.0)
  {
    hide Sum, MinOf, MaxOf;
    var lo, hi := MinOf(ts, Price), MaxOf(ts, Price);
    PricesInRange(ts);
    NotionalBounds(ts, lo, hi);
    SumNonNegative(ts, Qty);
    RatioWithin(Sum(ts, Notional), Sum(ts, Qty), lo, hi);
  }

  lemma {:induction false} BuiltVolumesSane(ts: seq<Trade>)
    requires NonNegative(ts)
    ensures var b := BarCols(ts);
            && b.buyVol >= 0.0 && b.sellVol >= 0.0 && b.buyVol + b.sellVol == b.vol
            && Within(b.imbalance, -1.0, 1.0) && (b.imbalance == Null <==> b.vol == 0.0)
  {
    SumNonNegative(ts, BuyQty);
    SumNonNegative(ts, SellQty);
    SignedIsBuyMinusSell(ts);
    ImbalanceWithin(Sum(ts, BuyQty), Sum(ts, SellQty));
    RatioWithin(Sum(ts, SignedQty), Sum(ts, Qty), -1.0, 1.0);
  }

  /** A bar built from trades of non-negative quantity is sane. */
  lemma {:induction false} BuiltBarSane(ts: seq<Trade>)
    requires ts != [] && NonNegative(ts)
    ensures Sane(BarCols(ts))
  {
    PricesInRange(ts);
    assert ts[0] in ts && ts[|ts| - 1] in ts;
    BuiltVwapSane(ts);
    BuiltVolumesSane(ts);
  }

  ghost predicate AllSane(bs: seq<Ohlcv>) {
    forall b :: b in bs ==> Sane(b)
  }

  lemma {:induction false} VolumesAdd(bs: seq<Ohlcv>)
    requires AllSane(bs)
    ensures Sum(bs, BuyVol) + Sum(bs, SellVol) == Sum(bs, Vol)
    ensures TotalTrades(bs) >= |bs|
  {
    if bs != [] {
      assert bs == [bs[0]] + bs[1..];
      assert bs[0] in bs;
      VolumesAdd(bs[1..]);
    }
  }

  lemma OneBarVwapVol(b: Ohlcv, lo: real, hi: real)
    requires Sane(b) && lo <= b.low && b.high <= hi
    ensures WeighsBetween(Vol(b), VwapVol(b), lo, hi)
  {
    if b.vwap.Num? {
      ScaleBounds(b.vol, lo, b.vwap.r, hi);
    }
  }

  lemma {:induction false} VwapVolBounds(bs: seq<Ohlcv>, lo: real, hi: real)
    requires AllSane(bs) && forall b :: b in bs ==> lo <= b.low && b.high <= hi
    ensures lo * Sum(bs, Vol) <= Sum(bs, VwapVol) <= hi * Sum(bs, Vol)
  {
    forall b | b in bs ensures WeighsBetween(Vol(b), VwapVol(b), lo, hi) {
      OneBarVwapVol(b, lo, hi);
    }
    SumBounds(bs, Vol, VwapVol, lo, hi);
  }

  lemma {:induction false} RangeCovers(bs: seq<Ohlcv>)
    requires bs != [] && AllSane(bs)
    ensures forall b :: b in bs ==> MinOf(bs, Low) <= b.low && b.high <= MaxOf(bs, High)
  {
    MinMeaning(bs, Low);
    MaxMeaning(bs, High);
    forall b | b in bs ensures MinOf(bs, Low) <= b.low && b.high <= MaxOf(bs, High) {
      assert MinOf(bs, Low) <= Low(b) && High(b) <= MaxOf(bs, High);
    }
  }

  lemma {:induction false} RebucketedFlowSane(bs: seq<Ohlcv>, lo: real, hi: real)
    requires AllSane(bs) && forall b :: b in bs ==> lo <= b.low && b.high <= hi
    ensures var r := RebucketCols(bs);
            && Within(r.vwap, lo, hi) && Within(r.imbalance, -1.0, 1.0)
            && r.buyVol >= 0.0 && r.sellVol >= 0.0 && r.buyVol + r.sellVol == r.vol
            && (r.vwap == Null <==> r.vol == 0.0) && (r.imbalance == Null <==> r.vol == 0.0)
  {
    SumNonNegative(bs, BuyVol);
    SumNonNegative(bs, SellVol);
    VolumesAdd(bs);
    VwapVolBounds(bs, lo, hi);
    RatioWithin(Sum(bs, VwapVol), Sum(bs, Vol), lo, hi);
    ImbalanceWithin(Sum(bs, BuyVol), Sum(bs, SellVol));
  }

  /** Re-bucketing any sane bars, however they were made, gives a sane bar. */
  lemma {:induction false} RebucketKeepsSane(bs: seq<Ohlcv>)
    requires bs != [] && AllSane(bs)
    ensures Sane(RebucketCols(bs))
  {
    RangeCovers(bs);
    assert Sane(bs[0]) && Sane(bs[|bs| - 1]) by {
      assert bs[0] in bs && bs[|bs| - 1] in bs;
    }
    RebucketedFlowSane(bs, MinOf(bs, Low), MaxOf(bs, High));
    VolumesAdd(bs);
  }

  lemma {:induction false} BuiltBarsSane(t: seq<Stamped<Trade>>, base: int)
    requires base > 0 && NonNegative(Bodies(t))
    ensures AllSane(Bodies(BarsOf(t, base)))
  {
    var fine, ks := BarsOf(t, base), Keys(t, base);
    KeysMeaning(t, base);
    forall b | b in Bodies(fine) ensures Sane(b) {
      var i :| 0 <= i < |fine| && Bodies(fine)[i] == b;
      assert ks[i] in ks;
      GroupNonempty(t, base, ks[i]);
      GroupSubset(t, base, ks[i]);
      BuiltBarSane(Group(t, base, ks[i]));
    }
  }

  lemma {:induction false} RebucketedBarsSane(fine: seq<Stamped<Ohlcv>>, sz: int)
    requires sz > 0 && AllSane(Bodies(fine))
    ensures AllSane(Bodies(Rebucket(fine, sz)))
  {
    var coarse, ks := Rebucket(fine, sz), Keys(fine, sz);
    KeysMeaning(fine, sz);
    forall b | b in Bodies(coarse) ensures Sane(b) {
      var i :| 0 <= i < |coarse| && Bodies(coarse)[i] == b;
      assert ks[i] in ks;
      GroupNonempty(fine, sz, ks[i]);
      GroupSubset(fine, sz, ks[i]);
      RebucketKeepsSane(Group(fine, sz, ks[i]));
    }
  }

  /** Every bar served, built directly or re-bucketed from stored bars, is sane. */
  lemma ServedBarsSane(t: seq<Stamped<Trade>>, base: int, sz: int)
    requires base > 0 && sz > 0 && NonNegative(Bodies(t))
    ensures AllSane(Bodies(BarsOf(t, base)))
    ensures AllSane(Bodies(Rebucket(BarsOf(t, base), sz)))
  {
    BuiltBarsSane(t, base);
    RebucketedBarsSane(BarsOf(t, base), sz);
  }
}
