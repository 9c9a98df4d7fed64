/** OHLCV bars: direct aggregation of trades, and re-bucketing of stored bars. */
module Bars {
  import opened Buckets
  import opened Aggregates

  datatype Trade = Trade(tradeID: int, price: real, qty: real, buyerMaker: bool)

  datatype Ohlcv = Ohlcv(
    open: real, high: real, low: real, close: real,
    vwap: Float, vol: real, trades: int,
    buyVol: real, sellVol: real, imbalance: Float)

  // --- columns of one trade ----------------------------------------------------------

  function Price(t: Trade): real { t.price }

  function Qty(t: Trade): real { t.qty }

  function Notional(t: Trade): real { t.qty * t.price }

  function BuyQty(t: Trade): real { t.qty * if t.buyerMaker then 0.0 else 1.0 }

  function SellQty(t: Trade): real { t.qty * if t.buyerMaker then 1.0 else 0.0 }

  function SignedQty(t: Trade): real { t.qty * (1.0 - 2.0 * if t.buyerMaker then 1.0 else 0.0) }

  function BarCols(ts: seq<Trade>): Ohlcv {
    Ohlcv(FirstOf(ts, Price), MaxOf(ts, Price), MinOf(ts, Price), LastOf(ts, Price),
          Ratio(Sum(ts, Notional), Sum(ts, Qty)), Sum(ts, Qty), |ts|,
          Sum(ts, BuyQty), Sum(ts, SellQty),
          Ratio(Sum(ts, SignedQty), Sum(ts, Qty)))
  }

  /** `barsOf[t;sz]`. */
  function BarsOf(t: seq<Stamped<Trade>>, sz: int): seq<Stamped<Ohlcv>>
    requires sz > 0
  {
    GroupBy(t, sz, BarCols)
  }

  /** The columns that are sums and extremes. */
  datatype Flow = Flow(high: real, low: real, vwap: Float, vol: real, trades: int,
                       buyVol: real, sellVol: real, imbalance: Float)

  function FlowCols(b: Ohlcv): Flow {
    Flow(b.high, b.low, b.vwap, b.vol, b.trades, b.buyVol, b.sellVol, b.imbalance)
  }

  // --- columns of one stored bar -------------------------------------------------------

  function Open(b: Ohlcv): real { b.open }

  function High(b: Ohlcv): real { b.high }

  function Low(b: Ohlcv): real { b.low }

  function Close(b: Ohlcv): real { b.close }

  function Vol(b: Ohlcv): real { b.vol }

  function TotalTrades(bs: seq<Ohlcv>): int {
    if bs == [] then 0 else bs[0].trades + TotalTrades(bs[1..])
  }

  function BuyVol(b: Ohlcv): real { b.buyVol }

  function SellVol(b: Ohlcv): real { b.sellVol }

  function VwapVol(b: Ohlcv): real { b.vol * OrZero(b.vwap) }

  function RebucketCols(bs: seq<Ohlcv>): Ohlcv {
    Ohlcv(FirstOf(bs, Open), MaxOf(bs, High), MinOf(bs, Low), LastOf(bs, Close),
          Ratio(Sum(bs, VwapVol), Sum(bs, Vol)), Sum(bs, Vol), TotalTrades(bs),
          Sum(bs, BuyVol), Sum(bs, SellVol),
          Ratio(Sum(bs, BuyVol) - Sum(bs, SellVol), Sum(bs, Vol)))
  }

  /** `rebucketBars[b;sz]`. */
  function Rebucket(b: seq<Stamped<Ohlcv>>, sz: int): seq<Stamped<Ohlcv>>
    requires sz > 0
  {
    GroupBy(b, sz, RebucketCols)
  }

  // --- re-bucketing is exact -------------------------------------------------------------

  predicate NonNegative(ts: seq<Trade>) {
    forall t :: t in ts ==> t.qty >= 0.0
  }

  lemma VwapUndone(b: Ohlcv, notional: real)
    requires b.vwap == Ratio(notional, b.vol) && (b.vol != 0.0 || notional == 0.0)
    ensures VwapVol(b) == notional
  {
    RatioUndone(notional, b.vol);
  }

  lemma {:induction false} SumZero(p: seq<Trade>)
    requires forall t :: t in p ==> Qty(t) == 0.0
    ensures Sum(p, Notional) == 0.0
  {
    if p != [] {
      assert p == [p[0]] + p[1..];
      assert p[0] in p;
      SumZero(p[1..]);
    }
  }

  lemma NoVolumeNoNotional(p: seq<Trade>)
    requires NonNegative(p)
    ensures Sum(p, Qty) != 0.0 || Sum(p, Notional) == 0.0
  {
    SumNonNegative(p, Qty);
    if Sum(p, Qty) == 0.0 {
      SumZero(p);
    }
  }

  /** One bar's vwap and volume turn back into the sum its re-bucketing needs. */
  lemma BarAsSummand(p: seq<Trade>)
    requires NonNegative(p)
    ensures VwapVol(BarCols(p)) == Sum(p, Notional)
  {
    NoVolumeNoNotional(p);
    VwapUndone(BarCols(p), Sum(p, Notional));
  }

  lemma {:induction false} SignedIsBuyMinusSell(p: seq<Trade>)
    ensures Sum(p, SignedQty) == Sum(p, BuyQty) - Sum(p, SellQty)
    ensures Sum(p, Qty) == Sum(p, BuyQty) + Sum(p, SellQty)
  {
    if p != [] {
      SignedIsBuyMinusSell(p[1..]);
    }
  }

  ghost predicate GoodParts(parts: seq<seq<Trade>>) {
    forall p :: p in parts ==> p != [] && NonNegative(p)
  }

  lemma {:induction false} SumsOfParts(parts: seq<seq<Trade>>)
    requires GoodParts(parts)
    ensures var bs := MapAll(parts, BarCols);
            var ts := Flatten(parts);
            && NonNegative(ts)
            && Sum(bs, Vol) == Sum(ts, Qty)
            && Sum(bs, VwapVol) == Sum(ts, Notional)
            && Sum(bs, BuyVol) == Sum(ts, BuyQty)
            && Sum(bs, SellVol) == Sum(ts, SellQty)
            && TotalTrades(bs) == |ts|
  {
    if parts != [] {
      var p, rest := parts[0], Flatten(parts[1..]);
      assert parts == [p] + parts[1..];
      assert p in parts;
      SumsOfParts(parts[1..]);
      BarAsSummand(p);
      assert MapAll(parts, BarCols)[1..] == MapAll(parts[1..], BarCols);
      SumConcat(p, rest, Qty);
      SumConcat(p, rest, Notional);
      SumConcat(p, rest, BuyQty);
      SumConcat(p, rest, SellQty);
    }
  }

  lemma {:induction false} PricesSpanned(ts: seq<Trade>)
    requires ts != []
    ensures var b := BarCols(ts);
            && (forall t :: t in ts ==> b.low <= t.price <= b.high)
            && (exists t :: t in ts && t.price == b.high) && (exists t :: t in ts && t.price == b.low)
  {
    MinMeaning(ts, Price);
    MaxMeaning(ts, Price);
    var lo :| lo in ts && Price(lo) == MinOf(ts, Price);
    var hi :| hi in ts && Price(hi) == MaxOf(ts, Price);
    assert lo.price == BarCols(ts).low && hi.price == BarCols(ts).high;
    forall t | t in ts ensures BarCols(ts).low <= t.price <= BarCols(ts).high {
      assert MinOf(ts, Price) <= Price(t) <= MaxOf(ts, Price);
    }
  }

  /** The trades whose buyer was, or was not, the maker. */
  function Made(ts: seq<Trade>, buyerMaker: bool): seq<Trade> {
    if ts == [] then []
    else (if ts[0].buyerMaker == buyerMaker then [ts[0]] else []) + Made(ts[1..], buyerMaker)
  }

  function TotalQty(ts: seq<Trade>): real {
    if ts == [] then 0.0 else ts[0].qty + TotalQty(ts[1..])
  }

  /** What the trades were worth together. */
  function TotalValue(ts: seq<Trade>): real {
    if ts == [] then 0.0 else ts[0].price * ts[0].qty + TotalValue(ts[1..])
  }

  lemma MadeStep(ts: seq<Trade>, buyerMaker: bool)
    requires ts != []
    ensures TotalQty(Made(ts, buyerMaker))
            == (if ts[0].buyerMaker == buyerMaker then ts[0].qty else 0.0) + TotalQty(Made(ts[1..], buyerMaker))
  {
    var rest := Made(ts[1..], buyerMaker);
    assert ([ts[0]] + rest)[1..] == rest && [] + rest == rest;
  }

  lemma {:induction false} SumsAreTotals(ts: seq<Trade>)
    ensures Sum(ts, Qty) == TotalQty(ts) && Sum(ts, Notional) == TotalValue(ts)
    ensures Sum(ts, BuyQty) == TotalQty(Made(ts, false)) && Sum(ts, SellQty) == TotalQty(Made(ts, true))
  {
    if ts != [] {
      SumsAreTotals(ts[1..]);
      MadeStep(ts, false);
      MadeStep(ts, true);
    }
  }

  /** The buyer was, or was not, the maker of every trade of positive quantity. */
  predicate AllMade(ts: seq<Trade>, buyerMaker: bool) {
    forall t :: t in ts && t.qty > 0.0 ==> t.buyerMaker == buyerMaker
  }

  lemma {:induction false} NothingMade(ts: seq<Trade>, buyerMaker: bool)
    requires NonNegative(ts)
    ensures TotalQty(Made(ts, buyerMaker)) >= 0.0
    ensures TotalQty(Made(ts, buyerMaker)) == 0.0 <==> AllMade(ts, !buyerMaker)
  {
    if ts != [] {
      assert ts == [ts[0]] + ts[1..];
      NothingMade(ts[1..], buyerMaker);
      MadeStep(ts, buyerMaker);
      assert AllMade(ts, !buyerMaker)
          <==> (ts[0].qty > 0.0 ==> ts[0].buyerMaker != buyerMaker) && AllMade(ts[1..], !buyerMaker);
    }
  }

  /** Signed by the aggressor, the volume leans wholly to one side exactly if all of it is on that side. */
  predicate Leans(b: Flow, ts: seq<Trade>) {
    && b.vwap.Num? && b.vwap.r * b.vol == TotalValue(ts)
    && b.imbalance.Num? && b.imbalance.r * b.vol == b.buyVol - b.sellVol
    && (b.imbalance.r == 1.0 <==> AllMade(ts, false))
    && (b.imbalance.r == -1.0 <==> AllMade(ts, true))
  }

  /** What a bar's sums and extremes say of its trades. */
  ghost predicate TellsFlow(b: Flow, ts: seq<Trade>) {
    && b.trades == |ts|
    && (forall t :: t in ts ==> b.low <= t.price <= b.high)
    && (exists t :: t in ts && t.price == b.high) && (exists t :: t in ts && t.price == b.low)
    && b.vol == TotalQty(ts)
    && b.buyVol == TotalQty(Made(ts, false)) && b.sellVol == TotalQty(Made(ts, true))
    && (b.vol == 0.0 ==> b.vwap == b.imbalance == Null)
    && (b.vol != 0.0 ==> Leans(b, ts))
  }

  lemma ZeroFactor(x: real, vol: real)
    requires vol > 0.0
    ensures x * vol == 0.0 <==> x == 0.0
  {
    if x > 0.0 {
      assert x * vol > 0.0;
    } else if x < 0.0 {
      assert x * vol < 0.0;
    }
  }

  lemma {:induction false} ScaledToEnds(x: real, vol: real, buy: real, sell: real)
    requires vol > 0.0 && vol == buy + sell && x * vol == buy - sell
    ensures x == 1.0 <==> sell == 0.0
    ensures x == -1.0 <==> buy == 0.0
  {
    ZeroFactor(x - 1.0, vol);
    ZeroFactor(x + 1.0, vol);
    assert (x - 1.0) * vol == x * vol - vol == -2.0 * sell;
    assert (x + 1.0) * vol == x * vol + vol == 2.0 * buy;
  }

  lemma VolumeLeans(ts: seq<Trade>)
    requires NonNegative(ts) && BarCols(ts).vol != 0.0
    ensures Leans(FlowCols(BarCols(ts)), ts)
  {
    hide Sum, NonNegative, AllMade;
    var b := BarCols(ts);
    SumsAreTotals(ts);
    SignedIsBuyMinusSell(ts);
    NothingMade(ts, true);
    NothingMade(ts, false);
    RatioUndone(TotalValue(ts), b.vol);
    RatioUndone(Sum(ts, SignedQty), b.vol);
    ScaledToEnds(b.imbalance.r, b.vol, b.buyVol, b.sellVol);
  }

  /** What a bar says of its trades. */
  lemma {:induction false} BarMeaning(ts: seq<Trade>)
    requires ts != [] && NonNegative(ts)
    ensures var b := BarCols(ts);
            b.open == ts[0].price && b.close == ts[|ts| - 1].price && TellsFlow(FlowCols(b), ts)
  {
    hide NonNegative;
    PricesSpanned(ts);
    SumsAreTotals(ts);
    if BarCols(ts).vol != 0.0 {
      VolumeLeans(ts);
    }
  }

  lemma {:induction false} DuringNonNegative(t: seq<Stamped<Trade>>, k: int, sz: int)
    requires NonNegative(Bodies(t))
    ensures NonNegative(During(t, k, sz))
  {
    if t != [] {
      assert Bodies(t) == [t[0].body] + Bodies(t[1..]);
      DuringNonNegative(t[1..], k, sz);
    }
  }

  /** Every bar of a scan starts at a multiple of the width and tells of exactly the trades in it,
      first and last in table order. */
  lemma ScannedBarMeaning(t: seq<Stamped<Trade>>, sz: int, i: nat)
    requires sz > 0 && NonNegative(Bodies(t)) && i < |BarsOf(t, sz)|
    ensures var b := BarsOf(t, sz)[i];
            var ts := During(t, b.time, sz);
            && b.time % sz == 0 && ts != []
            && b.body.open == ts[0].price && b.body.close == ts[|ts| - 1].price
            && TellsFlow(FlowCols(b.body), ts)
  {
    hide BarCols, TellsFlow, During, NonNegative;
    GroupByMeaning(t, sz, BarCols);
    var b := BarsOf(t, sz)[i];
    assert IsBucket(b, t, sz, BarCols);
    DuringNonNegative(t, b.time, sz);
    BarMeaning(During(t, b.time, sz));
  }

  /** Bars lose and invent nothing: whatever the order of the trades, their counts, volumes and
      notionals add up to those of all the trades. */
  lemma {:induction false} BarsConserveTrades(t: seq<Stamped<Trade>>, sz: int)
    requires sz > 0 && NonNegative(Bodies(t))
    ensures var bs, ts := Bodies(BarsOf(t, sz)), Bodies(t);
            && TotalTrades(bs) == |ts| && Sum(bs, Vol) == Sum(ts, Qty) && Sum(bs, VwapVol) == Sum(ts, Notional)
            && Sum(bs, BuyVol) == Sum(ts, BuyQty) && Sum(bs, SellVol) == Sum(ts, SellQty)
  {
    var ks, ts := Keys(t, sz), Bodies(t);
    var parts := Parts(t, sz, ks);
    var flat := Flatten(parts);
    KeysMeaning(t, sz);
    forall p | p in parts ensures p != [] && NonNegative(p) {
      var i :| 0 <= i < |parts| && parts[i] == p;
      assert ks[i] in ks;
      GroupNonempty(t, sz, ks[i]);
      GroupSubset(t, sz, ks[i]);
    }
    SumsOfParts(parts);
    assert Bodies(BarsOf(t, sz)) == MapAll(parts, BarCols);
    GroupsHoldEveryRow(t, sz);
    assert |multiset(flat)| == |multiset(ts)|;
    SumPermuted(flat, ts, Qty);
    SumPermuted(flat, ts, Notional);
    SumPermuted(flat, ts, BuyQty);
    SumPermuted(flat, ts, SellQty);
  }

  lemma {:induction false} ExtremesOfParts(parts: seq<seq<Trade>>)
    requires GoodParts(parts) && parts != []
    ensures var bs := MapAll(parts, BarCols);
            var ts := Flatten(parts);
            ts != [] && MaxOf(bs, High) == MaxOf(ts, Price) && MinOf(bs, Low) == MinOf(ts, Price)
  {
    var p, rest := parts[0], Flatten(parts[1..]);
    assert parts == [p] + parts[1..];
    assert p in parts;
    var bs := MapAll(parts, BarCols);
    assert bs[1..] == MapAll(parts[1..], BarCols);
    assert High(bs[0]) == MaxOf(p, Price) && Low(bs[0]) == MinOf(p, Price);
    if |parts| == 1 {
      assert p + rest == p;
    } else {
      ExtremesOfParts(parts[1..]);
      MaxConcat(p, rest, Price);
      MinConcat(p, rest, Price);
    }
  }

  lemma {:induction false} EndsOfParts(parts: seq<seq<Trade>>)
    requires GoodParts(parts) && parts != []
    ensures var bs := MapAll(parts, BarCols);
            var ts := Flatten(parts);
            ts != [] && FirstOf(bs, Open) == FirstOf(ts, Price) && LastOf(bs, Close) == LastOf(ts, Price)
  {
    var p, rest := parts[0], Flatten(parts[1..]);
    assert parts == [p] + parts[1..];
    assert p in parts;
    if |parts| == 1 {
      assert p + rest == p;
    } else {
      EndsOfParts(parts[1..]);
      var bs := MapAll(parts, BarCols);
      assert bs[1..] == MapAll(parts[1..], BarCols);
    }
  }

  /** Aggregating the bars of consecutive groups is aggregating all their trades. */
  lemma BarsCompose(parts: seq<seq<Trade>>)
    requires GoodParts(parts) && parts != []
    ensures RebucketCols(MapAll(parts, BarCols)) == BarCols(Flatten(parts))
  {
    SumsOfParts(parts);
    ExtremesOfParts(parts);
    EndsOfParts(parts);
    SignedIsBuyMinusSell(Flatten(parts));
  }

  lemma RebucketOne(t: seq<Stamped<Trade>>, base: int, m: int, k: int)
    requires base > 0 && m > 0 && m * base > 0
    requires InOrder(t) && NonNegative(Bodies(t)) && HasKey(t, m * base, k)
    ensures RebucketCols(Group(BarsOf(t, base), m * base, k)) == BarCols(Group(t, m * base, k))
  {
    var sz := m * base;
    var within := KeysWithin(Keys(t, base), sz, k);
    var parts := Parts(t, base, within);
    GroupOfGroups(t, base, sz, BarCols, Keys(t, base), k);
    CoarseGroupIsItsParts(t, base, m, k);
    GroupNonempty(t, sz, k);
    forall p | p in parts ensures p != [] && NonNegative(p) {
      var i :| 0 <= i < |within| && p == Group(t, base, within[i]);
      GroupSubset(t, base, within[i]);
    }
    BarsCompose(parts);
  }

  /** For trades in time order, re-bucketing the base bars to any multiple of the base
      width equals aggregating the trades directly: every bucket, every column. */
  lemma RebucketExact(t: seq<Stamped<Trade>>, base: int, m: int)
    requires base > 0 && m > 0 && m * base > 0
    requires InOrder(t) && NonNegative(Bodies(t))
    ensures Rebucket(BarsOf(t, base), m * base) == BarsOf(t, m * base)
  {
    var sz := m * base;
    var fine := BarsOf(t, base);
    NestedKeys(t, base, m, BarCols);
    KeysMeaning(t, sz);
    var ks := Keys(t, sz);
    forall i | 0 <= i < |ks|
      ensures RebucketCols(Group(fine, sz, ks[i])) == BarCols(Group(t, sz, ks[i]))
    {
      assert ks[i] in ks;
      RebucketOne(t, base, m, ks[i]);
    }
    assert Rebucket(fine, sz) == BarsOf(t, sz);
  }

  // --- bars do not depend on row order, except open and close ----------------------------------

  /** Same buckets and same values in every column but open and close. */
  ghost predicate SameFlow(a: seq<Stamped<Ohlcv>>, b: seq<Stamped<Ohlcv>>) {
    && |a| == |b|
    && forall i :: 0 <= i < |a| ==> a[i].time == b[i].time && FlowCols(a[i].body) == FlowCols(b[i].body)
  }

  lemma FlowPermuted(a: seq<Trade>, b: seq<Trade>)
    requires multiset(a) == multiset(b)
    ensures FlowCols(BarCols(a)) == FlowCols(BarCols(b))
  {
    SameMembers(a, b);
    MaxPermuted(a, b, Price);
    MinPermuted(a, b, Price);
    SumPermuted(a, b, Qty);
    SumPermuted(a, b, Notional);
    SumPermuted(a, b, BuyQty);
    SumPermuted(a, b, SellQty);
    SumPermuted(a, b, SignedQty);
  }

  lemma BarsFlowSorted(t: seq<Stamped<Trade>>, sz: int)
    requires sz > 0
    ensures SameFlow(BarsOf(t, sz), BarsOf(SortByTime(t), sz))
  {
    SortKeys(t, sz);
    var ks := Keys(t, sz);
    forall i | 0 <= i < |ks|
      ensures FlowCols(BarCols(Group(t, sz, ks[i]))) == FlowCols(BarCols(Group(SortByTime(t), sz, ks[i])))
    {
      SortGroup(t, sz, ks[i]);
      FlowPermuted(Group(t, sz, ks[i]), Group(SortByTime(t), sz, ks[i]));
    }
  }

  ghost predicate FlowsEqual(a: seq<Ohlcv>, b: seq<Ohlcv>) {
    |a| == |b| && forall i :: 0 <= i < |a| ==> FlowCols(a[i]) == FlowCols(b[i])
  }

  lemma {:induction false} RebucketColsFlow(a: seq<Ohlcv>, b: seq<Ohlcv>)
    requires FlowsEqual(a, b)
    ensures Sum(a, Vol) == Sum(b, Vol) && Sum(a, VwapVol) == Sum(b, VwapVol)
    ensures Sum(a, BuyVol) == Sum(b, BuyVol) && Sum(a, SellVol) == Sum(b, SellVol)
    ensures TotalTrades(a) == TotalTrades(b)
    ensures MaxOf(a, High) == MaxOf(b, High) && MinOf(a, Low) == MinOf(b, Low)
  {
    if a != [] {
      assert FlowCols(a[0]) == FlowCols(b[0]);
      forall i | 0 <= i < |a[1..]| ensures FlowCols(a[1..][i]) == FlowCols(b[1..][i]) {
        assert a[1..][i] == a[i + 1] && b[1..][i] == b[i + 1];
      }
      RebucketColsFlow(a[1..], b[1..]);
    }
  }

  lemma {:induction false} GroupFlow(a: seq<Stamped<Ohlcv>>, b: seq<Stamped<Ohlcv>>, sz: int, k: int)
    requires sz > 0 && SameFlow(a, b)
    ensures FlowsEqual(Group(a, sz, k), Group(b, sz, k))
  {
    if a != [] {
      forall i | 0 <= i < |a[1..]|
        ensures a[1..][i].time == b[1..][i].time && FlowCols(a[1..][i].body) == FlowCols(b[1..][i].body)
      {
        assert a[1..][i] == a[i + 1] && b[1..][i] == b[i + 1];
      }
      GroupFlow(a[1..], b[1..], sz, k);
      assert a[0].time == b[0].time;
    }
  }

  lemma {:induction false} SameFlowKeys(a: seq<Stamped<Ohlcv>>, b: seq<Stamped<Ohlcv>>, sz: int)
    requires sz > 0 && SameFlow(a, b)
    ensures Keys(a, sz) == Keys(b, sz)
  {
    if a != [] {
      forall i | 0 <= i < |a[1..]|
        ensures a[1..][i].time == b[1..][i].time && FlowCols(a[1..][i].body) == FlowCols(b[1..][i].body)
      {
        assert a[1..][i] == a[i + 1] && b[1..][i] == b[i + 1];
      }
      SameFlowKeys(a[1..], b[1..], sz);
      assert a[0].time == b[0].time;
    }
  }

  lemma RebucketFlow(a: seq<Stamped<Ohlcv>>, b: seq<Stamped<Ohlcv>>, sz: int)
    requires sz > 0 && SameFlow(a, b)
    ensures SameFlow(Rebucket(a, sz), Rebucket(b, sz))
  {
    hide Group, Keys, Xbar;
    SameFlowKeys(a, b, sz);
    var ks := Keys(a, sz);
    forall i | 0 <= i < |ks|
      ensures FlowCols(RebucketCols(Group(a, sz, ks[i]))) == FlowCols(RebucketCols(Group(b, sz, ks[i])))
    {
      GroupFlow(a, b, sz, ks[i]);
      RebucketColsFlow(Group(a, sz, ks[i]), Group(b, sz, ks[i]));
    }
  }

  lemma SortKeepsNonNegative(t: seq<Stamped<Trade>>)
    requires NonNegative(Bodies(t))
    ensures NonNegative(Bodies(SortByTime(t)))
  {
    SortBodies(t);
    SameMembers(Bodies(SortByTime(t)), Bodies(t));
  }

  /** Bars built from trades in any order, then re-bucketed, agree with aggregating the
      time-sorted trades in every column but open and close. */
  lemma FlowAlwaysAgrees(t: seq<Stamped<Trade>>, base: int, m: int)
    requires base > 0 && m > 0 && m * base > 0 && NonNegative(Bodies(t))
    ensures SameFlow(Rebucket(BarsOf(t, base), m * base), BarsOf(SortByTime(t), m * base))
  {
    SortMeaning(t);
    SortKeepsNonNegative(t);
    BarsFlowSorted(t, base);
    RebucketFlow(BarsOf(t, base), BarsOf(SortByTime(t), base), m * base);
    RebucketExact(SortByTime(t), base, m);
  }

  // --- exactly when open and close agree too ------------------------------------------------------

  /** In each base bucket the first row in the table is the earliest, and the last the latest. */
  ghost predicate EndsInOrder(t: seq<Stamped<Trade>>, base: int)
    requires base > 0
  {
    forall k :: HasKey(t, base, k) ==>
      StartsEarliest(GroupRows(t, base, k)) && EndsLatest(GroupRows(t, base, k))
  }

  /** Sorting trades whose first is earliest and last is latest keeps both ends. */
  lemma {:induction false} EndsSorted(g: seq<Stamped<Trade>>)
    requires g != [] && StartsEarliest(g) && EndsLatest(g)
    ensures FirstOf(Bodies(g), Price) == FirstOf(Bodies(SortByTime(g)), Price)
    ensures LastOf(Bodies(g), Price) == LastOf(Bodies(SortByTime(g)), Price)
  {
    SortLength(g);
    SortKeepsFirst(g);
    SortKeepsLast(g);
  }

  lemma SameBar(a: seq<Trade>, b: seq<Trade>)
    requires FlowCols(BarCols(a)) == FlowCols(BarCols(b))
    requires FirstOf(a, Price) == FirstOf(b, Price) && LastOf(a, Price) == LastOf(b, Price)
    ensures BarCols(a) == BarCols(b)
  {
  }

  lemma GroupEndsSorted(t: seq<Stamped<Trade>>, base: int, k: int)
    requires base > 0 && HasKey(t, base, k)
    requires StartsEarliest(GroupRows(t, base, k)) && EndsLatest(GroupRows(t, base, k))
    ensures BarCols(Group(t, base, k)) == BarCols(Group(SortByTime(t), base, k))
  {
    hide BarCols, FlowCols;
    GroupNonempty(t, base, k);
    GroupIsBodies(t, base, k);
    GroupIsBodies(SortByTime(t), base, k);
    GroupOfSort(t, base, k);
    EndsSorted(GroupRows(t, base, k));
    SortGroup(t, base, k);
    FlowPermuted(Group(t, base, k), Group(SortByTime(t), base, k));
    SameBar(Group(t, base, k), Group(SortByTime(t), base, k));
  }

  lemma BarsSorted(t: seq<Stamped<Trade>>, base: int)
    requires base > 0 && EndsInOrder(t, base)
    ensures BarsOf(t, base) == BarsOf(SortByTime(t), base)
  {
    SortKeys(t, base);
    KeysMeaning(t, base);
    var ks := Keys(t, base);
    forall i | 0 <= i < |ks|
      ensures BarCols(Group(t, base, ks[i])) == BarCols(Group(SortByTime(t), base, ks[i]))
    {
      assert ks[i] in ks;
      GroupEndsSorted(t, base, ks[i]);
    }
    assert BarsOf(t, base) == BarsOf(SortByTime(t), base);
  }

  /** The stored-bar read at width m * base equals the trade scan. */
  ghost predicate ReadsAgree(t: seq<Stamped<Trade>>, base: int, m: int)
    requires base > 0 && m > 0 && m * base > 0
  {
    Rebucket(BarsOf(t, base), m * base) == BarsOf(SortByTime(t), m * base)
  }

  lemma EndsInOrderAgrees(t: seq<Stamped<Trade>>, base: int, m: int)
    requires base > 0 && m > 0 && m * base > 0
    requires NonNegative(Bodies(t)) && EndsInOrder(t, base)
    ensures ReadsAgree(t, base, m)
  {
    SortMeaning(t);
    SortKeepsNonNegative(t);
    BarsSorted(t, base);
    RebucketExact(SortByTime(t), base, m);
  }

  predicate SameButPrice(a: Stamped<Trade>, b: Stamped<Trade>) {
    b.time == a.time && b.body == a.body.(price := b.body.price)
  }

  /** The same trades at the same times, at other prices. */
  ghost predicate Repriced(t: seq<Stamped<Trade>>, u: seq<Stamped<Trade>>) {
    |t| == |u| && forall i :: 0 <= i < |t| ==> SameButPrice(t[i], u[i])
  }

  /** Equal prices only at equal times. */
  ghost predicate PriceTellsTime(t: seq<Stamped<Trade>>) {
    forall a, b :: a in t && b in t && a.body.price == b.body.price ==> a.time == b.time
  }

  /** Every trade priced at its own timestamp. */
  function PricedByTime(t: seq<Stamped<Trade>>): (u: seq<Stamped<Trade>>)
    ensures Repriced(t, u)
    ensures PriceTellsTime(u)
  {
    seq(|t|, i requires 0 <= i < |t| => Stamped(t[i].time, t[i].body.(price := t[i].time as real)))
  }

  lemma {:induction false} GroupRowsRepriced(t: seq<Stamped<Trade>>, u: seq<Stamped<Trade>>, base: int, k: int)
    requires base > 0 && Repriced(t, u)
    ensures Repriced(GroupRows(t, base, k), GroupRows(u, base, k))
  {
    if t != [] {
      forall i | 0 <= i < |t[1..]| ensures SameButPrice(t[1..][i], u[1..][i]) {
        assert t[1..][i] == t[i + 1] && u[1..][i] == u[i + 1];
      }
      GroupRowsRepriced(t[1..], u[1..], base, k);
      assert SameButPrice(t[0], u[0]);
    }
  }

  lemma RepricedKeepsShape(t: seq<Stamped<Trade>>, u: seq<Stamped<Trade>>, base: int)
    requires base > 0 && Repriced(t, u)
    ensures EndsInOrder(t, base) == EndsInOrder(u, base)
    ensures NonNegative(Bodies(t)) == NonNegative(Bodies(u))
  {
    forall k ensures HasKey(t, base, k) == HasKey(u, base, k) {
      if HasKey(t, base, k) {
        var i :| 0 <= i < |t| && Xbar(base, t[i].time) == k;
        assert SameButPrice(t[i], u[i]);
      }
      if HasKey(u, base, k) {
        var i :| 0 <= i < |u| && Xbar(base, u[i].time) == k;
        assert SameButPrice(t[i], u[i]);
      }
    }
    forall k {
      GroupRowsRepriced(t, u, base, k);
    }
    forall x | NonNegative(Bodies(t)) && x in Bodies(u) ensures x.qty >= 0.0 {
      var i :| 0 <= i < |u| && Bodies(u)[i] == x;
      assert Bodies(t)[i] in Bodies(t) && SameButPrice(t[i], u[i]);
    }
    forall x | NonNegative(Bodies(u)) && x in Bodies(t) ensures x.qty >= 0.0 {
      var i :| 0 <= i < |t| && Bodies(t)[i] == x;
      assert Bodies(u)[i] in Bodies(u) && SameButPrice(t[i], u[i]);
    }
  }

  /** When prices tell times apart, equal opens and closes mean equal end times. */
  lemma {:induction false} PricesShowTimes(g: seq<Stamped<Trade>>, j: nat)
    requires j < |g| && PriceTellsTime(g)
    requires FirstOf(Bodies(g), Price) == FirstOf(Bodies(SortByTime(g)), Price)
    requires LastOf(Bodies(g), Price) == LastOf(Bodies(SortByTime(g)), Price)
    ensures g[0].time <= g[j].time <= g[|g| - 1].time
  {
    SortedEndsBound(g, j);
    var a := SortMember(g, 0);
    var b := SortMember(g, |g| - 1);
    assert g[0] in g && g[a] in g && g[b] in g && g[|g| - 1] in g;
  }

  /** If reads agree at the base width, each bucket's open and close are those of its rows in time order. */
  lemma AgreementShowsEnds(t: seq<Stamped<Trade>>, base: int, k: int)
    requires base > 0 && HasKey(t, base, k)
    requires Rebucket(BarsOf(t, base), base) == BarsOf(SortByTime(t), base)
    ensures var g := GroupRows(t, base, k);
            && FirstOf(Bodies(g), Price) == FirstOf(Bodies(SortByTime(g)), Price)
            && LastOf(Bodies(g), Price) == LastOf(Bodies(SortByTime(g)), Price)
  {
    AgreementAtOneBucket(t, base, BarCols, RebucketCols, k);
    GroupNonempty(t, base, k);
    GroupIsBodies(t, base, k);
    GroupIsBodies(SortByTime(t), base, k);
    GroupOfSort(t, base, k);
  }

  /** If reads agree for trades whose prices tell times apart, the bucket's ends are in order. */
  lemma AgreementShowsOrder(t: seq<Stamped<Trade>>, base: int, k: int)
    requires base > 0 && HasKey(t, base, k) && PriceTellsTime(t)
    requires Rebucket(BarsOf(t, base), base) == BarsOf(SortByTime(t), base)
    ensures StartsEarliest(GroupRows(t, base, k)) && EndsLatest(GroupRows(t, base, k))
  {
    hide GroupRows, Rebucket, BarsOf, SortByTime, HasKey;
    var g := GroupRows(t, base, k);
    GroupRowsMembers(t, base, k);
    forall a | a in g ensures a in t {
      var i :| 0 <= i < |g| && g[i] == a;
    }
    AgreementShowsEnds(t, base, k);
    forall j | 0 <= j < |g| {
      PricesShowTimes(g, j);
    }
  }

  /** Stored bars are built from `trade` in insertion order, before savedown sorts it by
      time. Whatever the prices, every re-bucketed read equals the trade scan if and only if
      each base bucket's first inserted row is its earliest and its last inserted row its latest. */
  lemma StoredBarsExactIff(t: seq<Stamped<Trade>>, base: int)
    requires base > 0 && NonNegative(Bodies(t))
    ensures EndsInOrder(t, base)
            <==> forall u, m: int | Repriced(t, u) && m > 0 && m * base > 0 :: ReadsAgree(u, base, m)
  {
    if EndsInOrder(t, base) {
      forall u, m: int | Repriced(t, u) && m > 0 && m * base > 0 ensures ReadsAgree(u, base, m) {
        RepricedKeepsShape(t, u, base);
        EndsInOrderAgrees(u, base, m);
      }
    } else {
      var u := PricedByTime(t);
      RepricedKeepsShape(t, u, base);
      var k :| HasKey(u, base, k) && !(StartsEarliest(GroupRows(u, base, k)) && EndsLatest(GroupRows(u, base, k)));
      assert 1 * base > 0;
      if ReadsAgree(u, base, 1) {
        AgreementShowsOrder(u, base, k);
      }
    }
  }

  /** Two trades of one bucket inserted out of order: the stored bar opens and closes the wrong way round. */
  lemma TwoTradesOutOfOrder(late: Stamped<Trade>, early: Stamped<Trade>, sz: int)
    requires sz > 0 && early.time < late.time && Xbar(sz, early.time) == Xbar(sz, late.time)
    ensures var t := [late, early];
            var read, scan := Rebucket(BarsOf(t, sz), sz), BarsOf(SortByTime(t), sz);
            && BarsOf(t, sz) != [] && |read| == |scan| == 1
            && read[0].body.open == scan[0].body.close == late.body.price
            && read[0].body.close == scan[0].body.open == early.body.price
  {
    var t := [late, early];
    TwoOutOfOrder(late, early, sz);
    OwnKeys(t, sz, BarCols);
    OwnBucket(t, sz, BarCols, Xbar(sz, late.time));
    GroupAt(BarsOf(t, sz), sz, RebucketCols, 0);
    GroupAt(t, sz, BarCols, 0);
    GroupAt([early, late], sz, BarCols, 0);
  }
}
