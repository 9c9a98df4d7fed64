/** The per-symbol maximum stored id: the writer's cheap lookup and what it is meant to equal. */
module MaxId {
  import opened Buckets
  import opened Bars
  import opened QuoteBars
  import opened Kdb
  import opened Options
  import Days

  function TradeId(t: Trade): int { t.tradeID }

  function UpdateId(q: Quote): int { q.updateID }

  function Greatest<T>(rows: seq<Stamped<T>>, id: T -> int): int
    requires rows != []
  {
    if |rows| == 1 then id(rows[0].body)
    else
      var m := Greatest(rows[1..], id);
      if id(rows[0].body) >= m then id(rows[0].body) else m
  }

  lemma {:induction false} GreatestMeaning<T>(rows: seq<Stamped<T>>, id: T -> int)
    requires rows != []
    ensures forall r :: r in rows ==> id(r.body) <= Greatest(rows, id)
    ensures exists r :: r in rows && id(r.body) == Greatest(rows, id)
  {
    assert rows == [rows[0]] + rows[1..];
    if |rows| == 1 {
      assert rows[0] in rows && id(rows[0].body) == Greatest(rows, id);
    } else {
      GreatestMeaning(rows[1..], id);
      if id(rows[0].body) >= Greatest(rows[1..], id) {
        assert rows[0] in rows && id(rows[0].body) == Greatest(rows, id);
      } else {
        var r :| r in rows[1..] && id(r.body) == Greatest(rows[1..], id);
        assert r in rows && id(r.body) == Greatest(rows, id);
      }
    }
  }

  /** `latest_partition_dir`: the newest day holding the table. */
  function Newest<T>(parts: map<int, Slices<T>>): (d: int)
    requires parts != map[]
    ensures Days.IsGreatest(parts.Keys, d)
  {
    assert (forall k :: k !in parts.Keys) ==> parts == map[];
    var k :| k in parts.Keys;
    Days.GreatestKey(parts.Keys, k);
    assert forall d, e :: Days.IsGreatest(parts.Keys, d) && Days.IsGreatest(parts.Keys, e) ==> d == e;
    var d :| d in parts.Keys && Days.IsGreatest(parts.Keys, d);
    d
  }

  /** `_max_id`: the memory's maximum if the symbol has rows there, else the maximum in the
      newest partition alone (-1 when the symbol is absent from it), negative meaning none. */
  function Lookup<T>(rdb: Table<T>, parts: map<int, Slices<T>>, id: T -> int, s: string): Option<int> {
    var live := OfSym(rdb, s);
    if live != [] then Some(Greatest(live, id))
    else if parts == map[] then None
    else
      var slice := SliceAt(parts, Newest(parts), s);
      var v := if slice == [] then -1 else Greatest(slice, id);
      if v < 0 then None else Some(v)
  }

  function MaxStoredId(db: Db, s: string): Option<int> {
    Lookup(db.trade, db.hdb.trade, TradeId, s)
  }

  function MaxStoredQuoteId(db: Db, s: string): Option<int> {
    Lookup(db.quote, db.hdb.quote, UpdateId, s)
  }

  // --- the true maximum ------------------------------------------------------------------

  ghost predicate Has<T>(rows: seq<Stamped<T>>, id: T -> int, v: int) {
    exists r :: r in rows && id(r.body) == v
  }

  ghost predicate Saved<T>(parts: map<int, Slices<T>>, id: T -> int, s: string, v: int) {
    exists d :: Has(SliceAt(parts, d, s), id, v)
  }

  /** The id is stored for the symbol, in memory or in some partition. */
  ghost predicate StoredId<T>(rdb: Table<T>, parts: map<int, Slices<T>>, id: T -> int, s: string, v: int) {
    Has(OfSym(rdb, s), id, v) || Saved(parts, id, s, v)
  }

  ghost predicate IsTrueMax<T>(rdb: Table<T>, parts: map<int, Slices<T>>, id: T -> int, s: string, r: Option<int>) {
    match r
    case None => forall v :: !StoredId(rdb, parts, id, s, v)
    case Some(m) => StoredId(rdb, parts, id, s, m) && forall v :: StoredId(rdb, parts, id, s, v) ==> v <= m
  }

  /** Ids are non-negative and rise with the partition day and into memory. */
  ghost predicate IdsRise<T>(rdb: Table<T>, parts: map<int, Slices<T>>, id: T -> int, s: string) {
    && (forall v :: StoredId(rdb, parts, id, s, v) ==> v >= 0)
    && (forall d, e, v, w :: d < e && Has(SliceAt(parts, d, s), id, v) && Has(SliceAt(parts, e, s), id, w) ==> v < w)
    && (forall v, w :: Saved(parts, id, s, v) && Has(OfSym(rdb, s), id, w) ==> v < w)
  }

  /** The symbol has rows where the lookup searches, or nowhere at all. */
  ghost predicate Findable<T>(rdb: Table<T>, parts: map<int, Slices<T>>, s: string) {
    || OfSym(rdb, s) != []
    || (forall d :: SliceAt(parts, d, s) == [])
    || (parts != map[] && SliceAt(parts, Newest(parts), s) != [])
  }

  lemma HasFirst<T>(rows: seq<Stamped<T>>, id: T -> int)
    requires rows != []
    ensures Has(rows, id, id(rows[0].body))
  {
    assert rows[0] in rows;
  }

  lemma LookupInMemory<T>(rdb: Table<T>, parts: map<int, Slices<T>>, id: T -> int, s: string)
    requires IdsRise(rdb, parts, id, s) && OfSym(rdb, s) != []
    ensures IsTrueMax(rdb, parts, id, s, Lookup(rdb, parts, id, s))
  {
    var live := OfSym(rdb, s);
    GreatestMeaning(live, id);
    assert Has(live, id, Greatest(live, id));
  }

  lemma LookupInNewest<T>(rdb: Table<T>, parts: map<int, Slices<T>>, id: T -> int, s: string)
    requires IdsRise(rdb, parts, id, s) && OfSym(rdb, s) == []
    requires parts != map[] && SliceAt(parts, Newest(parts), s) != []
    ensures IsTrueMax(rdb, parts, id, s, Lookup(rdb, parts, id, s))
  {
    var n := Newest(parts);
    var slice := SliceAt(parts, n, s);
    GreatestMeaning(slice, id);
    var m := Greatest(slice, id);
    assert Has(slice, id, m);
    assert Saved(parts, id, s, m);
    assert StoredId(rdb, parts, id, s, m) && m >= 0;
    forall v | StoredId(rdb, parts, id, s, v) ensures v <= m {
      assert !Has(OfSym(rdb, s), id, v);
      var d :| Has(SliceAt(parts, d, s), id, v);
      assert d in parts;
      if d == n {
        var r :| r in slice && id(r.body) == v;
      }
    }
  }

  /** The lookup returns the true maximum over memory and every partition if and only if the
      symbol has rows in memory, or in the newest partition, or nowhere. */
  lemma LookupExactIff<T>(rdb: Table<T>, parts: map<int, Slices<T>>, id: T -> int, s: string)
    requires IdsRise(rdb, parts, id, s)
    ensures IsTrueMax(rdb, parts, id, s, Lookup(rdb, parts, id, s)) <==> Findable(rdb, parts, s)
  {
    if OfSym(rdb, s) != [] {
      LookupInMemory(rdb, parts, id, s);
    } else if parts != map[] && SliceAt(parts, Newest(parts), s) != [] {
      LookupInNewest(rdb, parts, id, s);
    } else {
      assert Lookup(rdb, parts, id, s) == None;
      if forall d :: SliceAt(parts, d, s) == [] {
        assert IsTrueMax(rdb, parts, id, s, None);
      } else {
        var d :| SliceAt(parts, d, s) != [];
        HasFirst(SliceAt(parts, d, s), id);
        assert Saved(parts, id, s, id(SliceAt(parts, d, s)[0].body));
        assert StoredId(rdb, parts, id, s, id(SliceAt(parts, d, s)[0].body));
      }
    }
  }

  // --- the order is kept -------------------------------------------------------------------

  ghost predicate TradesRise(db: Db, s: string) {
    IdsRise(db.trade, db.hdb.trade, TradeId, s)
  }

  ghost predicate QuotesRise(db: Db, s: string) {
    IdsRise(db.quote, db.hdb.quote, UpdateId, s)
  }

  /** Inserting rows whose ids exceed everything stored for their symbol keeps the order, in
      either table. */
  lemma {:induction false} InsertKeepsRise<T>(rdb: Table<T>, parts: map<int, Slices<T>>, id: T -> int, rows: Table<T>,
                                              s: string)
    requires IdsRise(rdb, parts, id, s)
    requires forall v, w :: StoredId(rdb, parts, id, s, v) && Has(OfSym(rows, s), id, w) ==> v < w
    requires forall w :: Has(OfSym(rows, s), id, w) ==> w >= 0
    ensures IdsRise(rdb + rows, parts, id, s)
  {
    OfSymConcat(rdb, rows, s);
    forall w ensures Has(OfSym(rdb + rows, s), id, w) <==> Has(OfSym(rdb, s), id, w) || Has(OfSym(rows, s), id, w) {
    }
    forall v | StoredId(rdb + rows, parts, id, s, v) ensures v >= 0 {
      assert Has(OfSym(rows, s), id, v) || StoredId(rdb, parts, id, s, v);
    }
    forall v, w | Saved(parts, id, s, v) && Has(OfSym(rdb + rows, s), id, w) ensures v < w {
      assert StoredId(rdb, parts, id, s, v);
    }
  }

  /** `now` is `before` with one later day's slice added. */
  ghost predicate SliceAdded<T>(before: map<int, Slices<T>>, now: map<int, Slices<T>>, s: string,
                                day: int, written: seq<Stamped<T>>) {
    && (forall d :: d in before ==> d < day)
    && (forall d :: SliceAt(now, d, s) == if d == day then written else SliceAt(before, d, s))
  }

  lemma {:induction false} AddedSlice<T>(before: map<int, Slices<T>>, now: map<int, Slices<T>>, id: T -> int, s: string,
                                         day: int, written: seq<Stamped<T>>, d: int, v: int)
    requires SliceAdded(before, now, s, day, written) && Has(SliceAt(now, d, s), id, v)
    ensures if d == day then Has(written, id, v)
            else d < day && Has(SliceAt(before, d, s), id, v) && Saved(before, id, s, v)
  {
    if d != day {
      assert Has(SliceAt(before, d, s), id, v);
      assert d in before;
    }
  }

  lemma {:induction false} RiseAfterSave<T>(rdb: Table<T>, before: map<int, Slices<T>>, now: map<int, Slices<T>>,
                                            id: T -> int, s: string, day: int, written: seq<Stamped<T>>)
    requires IdsRise(rdb, before, id, s) && SliceAdded(before, now, s, day, written)
    requires forall v :: Has(written, id, v) <==> Has(OfSym(rdb, s), id, v)
    ensures IdsRise([], now, id, s)
  {
    forall v | StoredId([], now, id, s, v) ensures v >= 0 {
      var d :| Has(SliceAt(now, d, s), id, v);
      AddedSlice(before, now, id, s, day, written, d, v);
      assert StoredId(rdb, before, id, s, v);
    }
    forall d, e, v, w | d < e && Has(SliceAt(now, d, s), id, v) && Has(SliceAt(now, e, s), id, w) ensures v < w {
      AddedSlice(before, now, id, s, day, written, d, v);
      AddedSlice(before, now, id, s, day, written, e, w);
    }
  }

  lemma {:induction false} SavedownAddsSlice(db: Db, day: int, s: string)
    requires forall d :: d in db.hdb.trade ==> d < day
    ensures SliceAdded(db.hdb.trade, Savedown(db, day).hdb.trade, s, day,
                       if db.trade == [] then [] else SortByTime(OfSym(db.trade, s)))
  {
    hide Savedown, SortByTime, OfSym;
    SavedownWrites(db, day);
    if db.trade != [] {
      SavedSlices(db, day, s);
    }
  }

  lemma SortedHas<T>(rows: seq<Stamped<T>>, id: T -> int)
    ensures forall v :: Has(SortByTime(rows), id, v) <==> Has(rows, id, v)
  {
    var t := SortByTime(rows);
    forall v ensures Has(t, id, v) <==> Has(rows, id, v) {
      if Has(t, id, v) {
        var r :| r in t && id(r.body) == v;
        SortMembers(rows, r);
      }
      if Has(rows, id, v) {
        var r :| r in rows && id(r.body) == v;
        SortMembers(rows, r);
      }
    }
  }

  /** Saving to a day after every existing partition keeps the order. */
  lemma {:induction false} SavedownKeepsRise(db: Db, day: int, s: string)
    requires TradesRise(db, s)
    requires forall d :: d in db.hdb.trade ==> d < day
    ensures TradesRise(Savedown(db, day), s)
  {
    SavedownWrites(db, day);
    SavedownAddsSlice(db, day, s);
    SortedHas(OfSym(db.trade, s), TradeId);
    RiseAfterSave(db.trade, db.hdb.trade, Savedown(db, day).hdb.trade, TradeId, s, day,
                  if db.trade == [] then [] else SortByTime(OfSym(db.trade, s)));
  }

  lemma {:induction false} QuoteSliceAdded(db: Db, day: int, s: string)
    requires forall d :: d in db.hdb.quote ==> d < day
    ensures SliceAdded(db.hdb.quote, Savedown(db, day).hdb.quote, s, day,
                       if db.quote == [] then [] else SortByTime(OfSym(db.quote, s)))
  {
    hide Savedown, SortByTime, OfSym;
    SavedownWrites(db, day);
    if db.quote != [] {
      SavedQuoteSlices(db, day, s);
    }
  }

  /** The same for quotes. */
  lemma {:induction false} SavedownKeepsQuotesRise(db: Db, day: int, s: string)
    requires QuotesRise(db, s)
    requires forall d :: d in db.hdb.quote ==> d < day
    ensures QuotesRise(Savedown(db, day), s)
  {
    SavedownWrites(db, day);
    var written := if db.quote == [] then [] else SortByTime(OfSym(db.quote, s));
    QuoteSliceAdded(db, day, s);
    SortedHas(OfSym(db.quote, s), UpdateId);
    RiseAfterSave(db.quote, db.hdb.quote, Savedown(db, day).hdb.quote, UpdateId, s, day, written);
  }

  // --- a symbol absent from the newest partition --------------------------------------------

  const BTC := "BTCUSDT"

  const ETH := "ETHUSDT"

  function OneTrade(sym: string, id: int): Table<Trade> {
    [Stamped(0, Tick(sym, Trade(id, 1.0, 1.0, false)))]
  }

  lemma {:induction false} OneTradeSlice(sym: string, id: int, s: string)
    ensures SortByTime(OfSym(Stamp(OneTrade(sym, id)), s))
            == if s == sym then [Stamped(Ms2ts(0), Trade(id, 1.0, 1.0, false))] else []
  {
    var t := Stamp(OneTrade(sym, id));
    assert t == [Stamped(Ms2ts(0), Tick(sym, Trade(id, 1.0, 1.0, false)))];
    assert OfSym(t[1..], s) == [];
    assert OfSym(t, s) == (if sym == s then [Stamped(Ms2ts(0), Trade(id, 1.0, 1.0, false))] else []) + [];
    SortedIsFixed(OfSym(t, s));
  }

  /** A day of one symbol, saved into a store with only earlier days. */
  lemma {:induction false} OneTradeSaved(db: Db, sym: string, id: int, day: int)
    requires db.trade == []
    ensures var h := Savedown(InsertRaw(db, OneTrade(sym, id)), day);
            && h.trade == [] && h.hdb.trade.Keys == db.hdb.trade.Keys + {day}
            && (forall s :: SliceAt(h.hdb.trade, day, s)
                            == if s == sym then [Stamped(Ms2ts(0), Trade(id, 1.0, 1.0, false))] else [])
            && forall d, s :: d != day ==> SliceAt(h.hdb.trade, d, s) == SliceAt(db.hdb.trade, d, s)
  {
    var live := InsertRaw(db, OneTrade(sym, id));
    assert live.trade == Stamp(OneTrade(sym, id));
    SavedownWrites(live, day);
    forall s ensures SliceAt(Savedown(live, day).hdb.trade, day, s)
                     == if s == sym then [Stamped(Ms2ts(0), Trade(id, 1.0, 1.0, false))] else [] {
      SavedSlices(live, day, s);
      OneTradeSlice(sym, id, s);
    }
  }

  lemma FourOps(a: Op, b: Op, c: Op, d: Op)
    ensures Kdb.Run([a, b, c, d]) == Kdb.Apply(Kdb.Apply(Kdb.Apply(Kdb.Apply(EMPTY, a), b), c), d)
  {
    assert [a, b, c, d][..3] == [a, b, c] && [a, b, c][..2] == [a, b] && [a, b][..1] == [a] && [a][..0] == [];
    assert Kdb.Run([a]) == Kdb.Apply(Kdb.Run([]), a);
    assert Kdb.Run([a, b]) == Kdb.Apply(Kdb.Run([a]), b);
    assert Kdb.Run([a, b, c]) == Kdb.Apply(Kdb.Run([a, b]), c);
  }

  /** Day 1 holds BTC's trade 7, day 2 only ETH: the lookup says BTC has nothing stored. */
  lemma {:induction false} LookupMissesOlderDay()
    ensures var ops := [Insert(OneTrade(BTC, 7)), SavedownAt(1), Insert(OneTrade(ETH, 3)), SavedownAt(2)];
            && MaxStoredId(Kdb.Run(ops), BTC) == None
            && StoredId(Kdb.Run(ops).trade, Kdb.Run(ops).hdb.trade, TradeId, BTC, 7)
  {
    var one := Savedown(InsertRaw(EMPTY, OneTrade(BTC, 7)), 1);
    var two := Savedown(InsertRaw(one, OneTrade(ETH, 3)), 2);
    FourOps(Insert(OneTrade(BTC, 7)), SavedownAt(1), Insert(OneTrade(ETH, 3)), SavedownAt(2));
    OneTradeSaved(EMPTY, BTC, 7, 1);
    OneTradeSaved(one, ETH, 3, 2);
    assert BTC != ETH;
    var parts := two.hdb.trade;
    assert 1 in parts.Keys && 2 in parts.Keys && Newest(parts) == 2;
    var row := Stamped(Ms2ts(0), Trade(7, 1.0, 1.0, false));
    assert SliceAt(parts, 1, BTC) == [row];
    assert row in SliceAt(parts, 1, BTC) && TradeId(row.body) == 7;
    assert Has(SliceAt(parts, 1, BTC), TradeId, 7);
  }
}
