/** What is stored of one symbol. Its logged ids are consecutive from a floor, the greatest stored
    id is known, and inserts, bridged rows, quotes and savedowns keep both; so the store misses no
    id and the lookup can find the last one. */
module Ledgers {
  import opened Buckets
  import opened Bars
  import opened QuoteBars
  import opened Kdb
  import opened MaxId
  import opened Options
  import Roller

  /** The ids are the consecutive numbers after `floor` up to `last`; without a floor they may
      start anywhere. */
  predicate Contig(rows: seq<Stamped<Trade>>, floor: Option<int>, last: Option<int>) {
    match last
    case None => rows == [] && floor.None?
    case Some(n) =>
      && (floor.Some? ==> |rows| == n - floor.value)
      && (floor.None? ==> rows != [])
      && forall i :: 0 <= i < |rows| ==> rows[i].body.tradeID == n - |rows| + 1 + i
  }

  lemma {:induction false} ContigConcat(a: seq<Stamped<Trade>>, b: seq<Stamped<Trade>>, floor: Option<int>,
                                        mid: Option<int>, last: Option<int>)
    requires Contig(a, floor, mid) && Contig(b, mid, last)
    ensures Contig(a + b, floor, last)
  {
    if mid.Some? {
      var rows := a + b;
      assert last.Some? && last.value == mid.value + |b|;
      forall i | 0 <= i < |rows| ensures rows[i].body.tradeID == last.value - |rows| + 1 + i {
        assert rows[i] == if i < |a| then a[i] else b[i - |a|];
      }
    } else {
      assert a + b == b;
    }
  }

  predicate IdsNonNegative(rows: seq<Stamped<Trade>>) {
    forall i :: 0 <= i < |rows| ==> rows[i].body.tradeID >= 0
  }

  // --- the true maximum moves with each insert, and stays through savedowns ------------------------

  ghost predicate TopIs(db: Db, s: string, last: Option<int>) {
    TradesRise(db, s) && IsTrueMax(db.trade, db.hdb.trade, TradeId, s, last)
  }

  lemma {:induction false} TopUnique(db: Db, s: string, a: Option<int>, b: Option<int>)
    requires TopIs(db, s, a) && TopIs(db, s, b)
    ensures a == b
  {
    if a.Some? {
      assert StoredId(db.trade, db.hdb.trade, TradeId, s, a.value);
    }
    if b.Some? {
      assert StoredId(db.trade, db.hdb.trade, TradeId, s, b.value);
    }
  }

  lemma {:induction false} ContigAbove(rows: seq<Stamped<Trade>>, floor: Option<int>, last: Option<int>, w: int)
    requires Contig(rows, floor, last) && Has(rows, TradeId, w)
    ensures last.Some? && w <= last.value && (floor.Some? ==> floor.value < w)
  {
    var r :| r in rows && TradeId(r.body) == w;
    var i :| 0 <= i < |rows| && rows[i] == r;
  }

  lemma HasConcat(a: seq<Stamped<Trade>>, b: seq<Stamped<Trade>>, v: int)
    ensures Has(a + b, TradeId, v) <==> Has(a, TradeId, v) || Has(b, TradeId, v)
  {
    if Has(a, TradeId, v) {
      var r :| r in a && TradeId(r.body) == v;
      assert r in a + b;
    }
    if Has(b, TradeId, v) {
      var r :| r in b && TradeId(r.body) == v;
      assert r in a + b;
    }
  }

  lemma {:induction false} StoredAfterInsert(db: Db, rows: Table<Trade>, s: string, v: int)
    ensures var r := InsertRaw(db, rows);
            StoredId(r.trade, r.hdb.trade, TradeId, s, v)
            <==> StoredId(db.trade, db.hdb.trade, TradeId, s, v) || Has(OfSym(Stamp(rows), s), TradeId, v)
  {
    OfSymConcat(db.trade, Stamp(rows), s);
    HasConcat(OfSym(db.trade, s), OfSym(Stamp(rows), s), v);
  }

  lemma {:induction false} TopAfterInsert(db: Db, r: Db, g: seq<Stamped<Trade>>, s: string, last: Option<int>,
                                          next: Option<int>)
    requires IsTrueMax(db.trade, db.hdb.trade, TradeId, s, last) && Contig(g, last, next)
    requires forall v :: StoredId(r.trade, r.hdb.trade, TradeId, s, v)
                         <==> StoredId(db.trade, db.hdb.trade, TradeId, s, v) || Has(g, TradeId, v)
    ensures IsTrueMax(r.trade, r.hdb.trade, TradeId, s, next)
  {
    if g == [] {
      assert next == last;
    } else {
      assert g[|g| - 1] in g && TradeId(g[|g| - 1].body) == next.value;
      assert Has(g, TradeId, next.value);
      forall v | StoredId(r.trade, r.hdb.trade, TradeId, s, v) ensures v <= next.value {
        if Has(g, TradeId, v) {
          ContigAbove(g, last, next, v);
        }
      }
    }
  }

  lemma {:induction false} InsertKeepsTop(db: Db, rows: Table<Trade>, s: string, last: Option<int>, next: Option<int>)
    requires TopIs(db, s, last)
    requires Contig(OfSym(Stamp(rows), s), last, next) && IdsNonNegative(OfSym(Stamp(rows), s))
    ensures TopIs(InsertRaw(db, rows), s, next)
  {
    var g, r := OfSym(Stamp(rows), s), InsertRaw(db, rows);
    forall v, w | StoredId(db.trade, db.hdb.trade, TradeId, s, v) && Has(g, TradeId, w) ensures v < w {
      ContigAbove(g, last, next, w);
    }
    forall w | Has(g, TradeId, w) ensures w >= 0 {
      var x :| x in g && TradeId(x.body) == w;
    }
    InsertKeepsRise(db.trade, db.hdb.trade, TradeId, Stamp(rows), s);
    forall v ensures StoredId(r.trade, r.hdb.trade, TradeId, s, v)
                     <==> StoredId(db.trade, db.hdb.trade, TradeId, s, v) || Has(g, TradeId, v) {
      StoredAfterInsert(db, rows, s, v);
    }
    TopAfterInsert(db, r, g, s, last, next);
  }

  lemma {:induction false} SavedAfterAdd(before: map<int, Slices<Trade>>, now: map<int, Slices<Trade>>, s: string,
                                         day: int, written: seq<Stamped<Trade>>, v: int)
    requires SliceAdded(before, now, s, day, written)
    ensures Saved(now, TradeId, s, v) <==> Saved(before, TradeId, s, v) || Has(written, TradeId, v)
  {
    if Saved(now, TradeId, s, v) {
      var d :| Has(SliceAt(now, d, s), TradeId, v);
      AddedSlice(before, now, TradeId, s, day, written, d, v);
    }
    if Saved(before, TradeId, s, v) {
      var d :| Has(SliceAt(before, d, s), TradeId, v);
      assert d in before && SliceAt(now, d, s) == SliceAt(before, d, s);
      assert Has(SliceAt(now, d, s), TradeId, v);
    }
    if Has(written, TradeId, v) {
      assert Has(SliceAt(now, day, s), TradeId, v);
    }
  }

  lemma {:induction false} StoredAfterSavedown(db: Db, day: int, s: string, v: int)
    requires forall d :: d in db.hdb.trade ==> d < day
    ensures var r := Savedown(db, day);
            StoredId(r.trade, r.hdb.trade, TradeId, s, v) <==> StoredId(db.trade, db.hdb.trade, TradeId, s, v)
  {
    var r := Savedown(db, day);
    var written := if db.trade == [] then [] else SortByTime(OfSym(db.trade, s));
    SavedownWrites(db, day);
    SavedownAddsSlice(db, day, s);
    SortedHas(OfSym(db.trade, s), TradeId);
    SavedAfterAdd(db.hdb.trade, r.hdb.trade, s, day, written, v);
  }

  lemma {:induction false} SavedownKeepsTop(db: Db, day: int, s: string, last: Option<int>)
    requires TopIs(db, s, last) && forall d :: d in db.hdb.trade ==> d < day
    ensures TopIs(Savedown(db, day), s, last)
  {
    SavedownKeepsRise(db, day, s);
    var r := Savedown(db, day);
    forall v
      ensures StoredId(r.trade, r.hdb.trade, TradeId, s, v) <==> StoredId(db.trade, db.hdb.trade, TradeId, s, v)
    {
      StoredAfterSavedown(db, day, s, v);
    }
  }

  // --- the ledger of a symbol --------------------------------------------------------------------

  /** The days saved so far, the current day and the archive's days are in order. */
  predicate DaysRise(st: Roller.State, today: int) {
    && (forall d :: d in st.db.hdb.trade ==> d < if st.day.Some? then st.day.value else today)
    && (st.day.Some? ==> st.day.value >= today)
    && (forall d :: d in st.saved ==> d >= today)
  }

  /** The store is what the log says; the symbol's logged ids are the consecutive ones after the
      floor; and `last` is the greatest id stored. */
  ghost predicate Ledger(hdb: Hdb, st: Roller.State, log: seq<Roller.Event>, s: string, floor: Option<int>,
                         last: Option<int>, today: int) {
    && Roller.AllOk(log) && st == Roller.Run(hdb, log)
    && DaysRise(st, today)
    && TopIs(st.db, s, last)
    && Contig(OfSym(Roller.TradesIn(log), s), floor, last)
  }

  lemma {:induction false} RollKeepsTop(st: Roller.State, day: int, s: string, last: Option<int>, today: int)
    requires DaysRise(st, today) && TopIs(st.db, s, last) && day >= today
    ensures DaysRise(Roller.Roll(st, day), today) && TopIs(Roller.Roll(st, day).db, s, last)
    ensures Roller.Roll(st, day).day.Some?
  {
    if st.day.Some? && day > st.day.value {
      SavedownKeepsTop(st.db, st.day.value, s, last);
      SavedownWrites(st.db, st.day.value);
    }
  }

  lemma {:induction false} LogStep(hdb: Hdb, st: Roller.State, log: seq<Roller.Event>, e: Roller.Event)
    requires Roller.AllOk(log) && st == Roller.Run(hdb, log) && Roller.EventOk(e)
    ensures Roller.AllOk(log + [e]) && Roller.Apply(st, e) == Roller.Run(hdb, log + [e])
  {
    assert (log + [e])[..|log|] == log;
  }

  /** Storing rows whose ids for the symbol follow on keeps its ledger. */
  lemma {:induction false} FeedKeepsLedger(hdb: Hdb, st: Roller.State, log: seq<Roller.Event>, rows: Table<Trade>,
                                           s: string,
                                           floor: Option<int>, last: Option<int>, next: Option<int>, today: int)
    requires Ledger(hdb, st, log, s, floor, last, today)
    requires rows != [] && Roller.LastDay(rows) >= today
    requires Contig(OfSym(Stamp(rows), s), last, next) && IdsNonNegative(OfSym(Stamp(rows), s))
    ensures Ledger(hdb, Roller.Feed(st, rows), log + [Roller.Fed(rows)], s, floor, next, today)
  {
    var rolled := Roller.Roll(st, Roller.LastDay(rows));
    RollKeepsTop(st, Roller.LastDay(rows), s, last, today);
    InsertKeepsTop(rolled.db, rows, s, last, next);
    LogStep(hdb, st, log, Roller.Fed(rows));
    Roller.TradesInMore(log, Roller.Fed(rows), s);
    ContigConcat(OfSym(Roller.TradesIn(log), s), OfSym(Stamp(rows), s), floor, last, next);
  }

  lemma {:induction false} BridgeKeepsLedger(hdb: Hdb, st: Roller.State, log: seq<Roller.Event>, rows: Table<Trade>,
                                             s: string,
                                             floor: Option<int>, last: Option<int>, next: Option<int>, today: int)
    requires Ledger(hdb, st, log, s, floor, last, today)
    requires Contig(OfSym(Stamp(rows), s), last, next) && IdsNonNegative(OfSym(Stamp(rows), s))
    ensures Ledger(hdb, st.(db := InsertRaw(st.db, rows)), log + [Roller.Bridged(rows)], s, floor, next, today)
  {
    InsertKeepsTop(st.db, rows, s, last, next);
    LogStep(hdb, st, log, Roller.Bridged(rows));
    Roller.TradesInMore(log, Roller.Bridged(rows), s);
    ContigConcat(OfSym(Roller.TradesIn(log), s), OfSym(Stamp(rows), s), floor, last, next);
  }

  lemma {:induction false} QuotesKeepLedger(hdb: Hdb, st: Roller.State, log: seq<Roller.Event>, rows: Table<Quote>,
                                            s: string,
                                            floor: Option<int>, last: Option<int>, today: int)
    requires Ledger(hdb, st, log, s, floor, last, today)
    requires rows != [] && Roller.LastDay(rows) >= today
    ensures Ledger(hdb, Roller.FeedQuote(st, rows), log + [Roller.FedQuotes(rows)], s, floor, last, today)
  {
    RollKeepsTop(st, Roller.LastDay(rows), s, last, today);
    LogStep(hdb, st, log, Roller.FedQuotes(rows));
    Roller.TradesInMore(log, Roller.FedQuotes(rows), s);
  }

  /** With rows where the lookup searches, it finds the greatest stored id. */
  lemma LookupFindsTop(db: Db, s: string, last: Option<int>)
    requires TopIs(db, s, last) && Findable(db.trade, db.hdb.trade, s)
    ensures MaxStoredId(db, s) == last
  {
    LookupExactIff(db.trade, db.hdb.trade, TradeId, s);
    TopUnique(db, s, MaxStoredId(db, s), last);
  }
}
