/** What the feed handler saves is read exactly: over every run, a symbol whose rows were inserted in time
    order is served through its stored bars just as a scan of its partition would serve it. */
module ServedReads {
  import opened Bars
  import opened Buckets
  import opened Feed
  import opened HoleFree
  import opened Kdb
  import opened Ledgers
  import opened MaxId
  import opened QuoteBars
  import opened Views
  import opened Options
  import Roller

  /** The partition's bars, read through the stored ones at a multiple of their width, are those of a scan. */
  ghost predicate ReadExact(h: Hdb, day: int, s: string, m: int)
    requires m > 0
  {
    ReadBars(h, s, day, m * BAR_SIZE) == BarsFromTrades(h, s, day, m * BAR_SIZE)
  }

  ghost predicate AlwaysExact(h: Hdb, day: int, s: string) {
    forall m: int :: m > 0 ==> ReadExact(h, day, s, m)
  }

  ghost predicate QuoteReadExact(h: Hdb, day: int, s: string, m: int)
    requires m > 0
  {
    ReadQuoteBars(h, s, day, m * BAR_SIZE) == QuoteBarsFromQuotes(h, s, day, m * BAR_SIZE)
  }

  ghost predicate QuotesAlwaysExact(h: Hdb, day: int, s: string) {
    forall m: int :: m > 0 ==> QuoteReadExact(h, day, s, m)
  }

  // --- memory is the end of what was inserted --------------------------------------------------

  lemma TailInOrder<T>(all: seq<Stamped<T>>, tail: seq<Stamped<T>>)
    requires IsTail(all, tail) && InOrder(all)
    ensures InOrder(tail)
  {
    var k := |all| - |tail|;
    assert forall i :: 0 <= i < |tail| ==> tail[i] == all[k + i];
  }

  lemma TailNonNegative(all: seq<Stamped<Trade>>, tail: seq<Stamped<Trade>>)
    requires IsTail(all, tail) && NonNegative(Bodies(all))
    ensures NonNegative(Bodies(tail))
  {
    var k := |all| - |tail|;
    assert forall i :: 0 <= i < |tail| ==> Bodies(tail)[i] == Bodies(all)[k + i];
  }

  ghost predicate MemoryIsTail(st: Roller.State, es: seq<Roller.Event>, s: string) {
    && IsTail(OfSym(Roller.TradesIn(es), s), OfSym(st.db.trade, s))
    && IsTail(OfSym(Roller.QuotesIn(es), s), OfSym(st.db.quote, s))
  }

  // --- one savedown ----------------------------------------------------------------------------------

  /** Stored bars lie only where rows do. */
  predicate BarsWithRows(h: Hdb) {
    h.bar.Keys <= h.trade.Keys && h.quoteBar.Keys <= h.quote.Keys
  }

  lemma SavedReadsExact(db: Db, day: int, s: string)
    requires InOrder(OfSym(db.trade, s)) && NonNegative(Bodies(OfSym(db.trade, s)))
    requires BarsWithRows(db.hdb) && day !in db.hdb.trade
    ensures AlwaysExact(Savedown(db, day).hdb, day, s)
  {
    hide Savedown, OfSym;
    SavedownWrites(db, day);
    InOrderEnds(OfSym(db.trade, s), BAR_SIZE);
    forall m: int | m > 0 ensures ReadExact(Savedown(db, day).hdb, day, s, m) {
      if db.trade != [] {
        FastPathRefinesScan(db, day, s, m);
      }
    }
  }

  lemma InOrderLasts(q: seq<Stamped<Quote>>, base: int)
    requires base > 0 && InOrder(q)
    ensures LastsInOrder(q, base)
  {
    hide GroupRows;
    forall k | HasKey(q, base, k) ensures EndsLatest(GroupRows(q, base, k)) {
      InOrderGroup(q, base, k);
    }
  }

  lemma SavedQuoteReadsExact(db: Db, day: int, s: string)
    requires InOrder(OfSym(db.quote, s)) && BarsWithRows(db.hdb) && day !in db.hdb.quote
    ensures QuotesAlwaysExact(Savedown(db, day).hdb, day, s)
  {
    hide Savedown, OfSym, LastsInOrder;
    SavedownWrites(db, day);
    InOrderLasts(OfSym(db.quote, s), BAR_SIZE);
    forall m: int | m > 0 ensures QuoteReadExact(Savedown(db, day).hdb, day, s, m) {
      if db.quote != [] {
        QuoteFastPathRefinesScan(db, day, s, m);
      }
    }
  }

  /** A savedown to another day leaves a day's reads alone. */
  lemma OtherDayReads(db: Db, day: int, d: int, s: string)
    requires d != day
    ensures AlwaysExact(db.hdb, d, s) <==> AlwaysExact(Savedown(db, day).hdb, d, s)
    ensures QuotesAlwaysExact(db.hdb, d, s) <==> QuotesAlwaysExact(Savedown(db, day).hdb, d, s)
  {
    hide Savedown, BarsOf, Rebucket, QuoteBarsOf, RebucketQuoteBars;
    SavedownWrites(db, day);
    var h, r := db.hdb, Savedown(db, day).hdb;
    assert SliceAt(h.trade, d, s) == SliceAt(r.trade, d, s) && SliceAt(h.bar, d, s) == SliceAt(r.bar, d, s);
    assert SliceAt(h.quote, d, s) == SliceAt(r.quote, d, s) && SliceAt(h.quoteBar, d, s) == SliceAt(r.quoteBar, d, s);
    assert forall m: int :: m > 0 ==> ReadExact(h, d, s, m) == ReadExact(r, d, s, m);
    assert forall m: int :: m > 0 ==> QuoteReadExact(h, d, s, m) == QuoteReadExact(r, d, s, m);
  }

  lemma BarsStayWithRows(db: Db, day: int)
    requires BarsWithRows(db.hdb)
    ensures BarsWithRows(Savedown(db, day).hdb)
  {
    hide Savedown;
    SavedownWrites(db, day);
  }

  // --- over every run -----------------------------------------------------------------------------------

  /** The symbol's trades were inserted in time order. */
  ghost predicate TradesOrdered(es: seq<Roller.Event>, s: string) {
    InOrder(OfSym(Roller.TradesIn(es), s)) && NonNegative(Bodies(OfSym(Roller.TradesIn(es), s)))
  }

  ghost predicate QuotesOrdered(es: seq<Roller.Event>, s: string) {
    InOrder(OfSym(Roller.QuotesIn(es), s))
  }

  /** Every partition saved so far is read exactly, if the symbol's rows came in time order. */
  ghost predicate SavedExact(st: Roller.State, es: seq<Roller.Event>, s: string) {
    && BarsWithRows(st.db.hdb) && MemoryIsTail(st, es, s)
    && (TradesOrdered(es, s) ==> forall d :: d in st.saved ==> AlwaysExact(st.db.hdb, d, s))
    && (QuotesOrdered(es, s) ==> forall d :: d in st.saved ==> QuotesAlwaysExact(st.db.hdb, d, s))
  }

  lemma NoRows(s: string)
    ensures OfSym<Trade>([], s) == [] && OfSym<Quote>([], s) == []
  {
  }

  /** Saving memory into its day, which had no partition, keeps that. */
  lemma SaveKeepsExact(st: Roller.State, es: seq<Roller.Event>, s: string, next: Option<int>)
    requires SavedExact(st, es, s) && st.day.Some? && st.day.value !in st.saved
    requires st.day.value !in st.db.hdb.trade && st.day.value !in st.db.hdb.quote
    ensures var day := st.day.value;
            SavedExact(Roller.State(Savedown(st.db, day), next, st.saved + [day]), es, s)
  {
    hide Savedown, OfSym, AlwaysExact, QuotesAlwaysExact, NonNegative, InOrder, Roller.TradesIn, Roller.QuotesIn,
         BarsWithRows;
    var day := st.day.value;
    var r := Savedown(st.db, day);
    SavedownWrites(st.db, day);
    BarsStayWithRows(st.db, day);
    NoRows(s);
    if TradesOrdered(es, s) {
      TailInOrder(OfSym(Roller.TradesIn(es), s), OfSym(st.db.trade, s));
      TailNonNegative(OfSym(Roller.TradesIn(es), s), OfSym(st.db.trade, s));
      SavedReadsExact(st.db, day, s);
    }
    if QuotesOrdered(es, s) {
      TailInOrder(OfSym(Roller.QuotesIn(es), s), OfSym(st.db.quote, s));
      SavedQuoteReadsExact(st.db, day, s);
    }
    forall d | d in st.saved
      ensures AlwaysExact(st.db.hdb, d, s) <==> AlwaysExact(r.hdb, d, s)
      ensures QuotesAlwaysExact(st.db.hdb, d, s) <==> QuotesAlwaysExact(r.hdb, d, s)
    {
      OtherDayReads(st.db, day, d, s);
    }
  }

  /** The day of a clear run has no partition yet. */
  lemma DayIsClear(hdb: Hdb, st: Roller.State)
    requires Roller.DaysOk(hdb, st) && Roller.Clear(hdb, st) && st.day.Some?
    ensures st.day.value !in st.saved && st.day.value !in st.db.hdb.trade && st.day.value !in st.db.hdb.quote
  {
  }

  lemma SameStore(st: Roller.State, r: Roller.State, es: seq<Roller.Event>, s: string)
    requires SavedExact(st, es, s) && r.db == st.db && r.saved == st.saved
    ensures SavedExact(r, es, s)
  {
  }

  lemma RollKeepsExact(hdb: Hdb, st: Roller.State, day: int, es: seq<Roller.Event>, s: string)
    requires SavedExact(st, es, s) && Roller.DaysOk(hdb, st) && Roller.Clear(hdb, st)
    ensures SavedExact(Roller.Roll(st, day), es, s)
  {
    hide Savedown, SavedExact, Roller.DaysOk, Roller.Clear;
    if st.day.Some? && day > st.day.value {
      DayIsClear(hdb, st);
      SaveKeepsExact(st, es, s, Some(day));
    } else {
      SameStore(st, Roller.Roll(st, day), es, s);
    }
  }

  lemma FrontInOrder<T>(a: seq<Stamped<T>>, b: seq<Stamped<T>>)
    ensures InOrder(a + b) ==> InOrder(a)
  {
    assert forall i :: 0 <= i < |a| ==> (a + b)[i] == a[i];
  }

  lemma FrontNonNegative(a: seq<Stamped<Trade>>, b: seq<Stamped<Trade>>)
    ensures NonNegative(Bodies(a + b)) ==> NonNegative(Bodies(a))
  {
    assert forall i :: 0 <= i < |a| ==> Bodies(a + b)[i] == Bodies(a)[i];
  }

  lemma {:induction false} EarlierOrdered(front: seq<Roller.Event>, e: Roller.Event, s: string)
    ensures TradesOrdered(front + [e], s) ==> TradesOrdered(front, s)
    ensures QuotesOrdered(front + [e], s) ==> QuotesOrdered(front, s)
  {
    hide OfSym, Stamp, InOrder, NonNegative, Bodies, Roller.TradesIn, Roller.QuotesIn;
    Roller.TradesInMore(front, e, s);
    Roller.QuotesInMore(front, e, s);
    var more := if e.FedQuotes? then [] else OfSym(Stamp(e.rows), s);
    FrontInOrder(OfSym(Roller.TradesIn(front), s), more);
    FrontNonNegative(OfSym(Roller.TradesIn(front), s), more);
    FrontInOrder(OfSym(Roller.QuotesIn(front), s), if e.FedQuotes? then OfSym(Stamp(e.quotes), s) else []);
  }

  /** What an event puts into memory it also adds to what was inserted. */
  lemma {:induction false} InsertKeepsExact(st: Roller.State, r: Roller.State, front: seq<Roller.Event>,
                                            e: Roller.Event, s: string)
    requires SavedExact(st, front, s) && r.saved == st.saved
    requires if e.FedQuotes? then r.db == InsertRawQuote(st.db, e.quotes) else r.db == InsertRaw(st.db, e.rows)
    ensures SavedExact(r, front + [e], s)
  {
    hide OfSym, Stamp, AlwaysExact, QuotesAlwaysExact, TradesOrdered, QuotesOrdered, BarsWithRows, Roller.TradesIn,
         Roller.QuotesIn;
    EarlierOrdered(front, e, s);
    Roller.TradesInMore(front, e, s);
    Roller.QuotesInMore(front, e, s);
    if e.FedQuotes? {
      OfSymConcat(st.db.quote, Stamp(e.quotes), s);
      TailLonger(OfSym(Roller.QuotesIn(front), s), OfSym(st.db.quote, s), OfSym(Stamp(e.quotes), s));
    } else {
      OfSymConcat(st.db.trade, Stamp(e.rows), s);
      TailLonger(OfSym(Roller.TradesIn(front), s), OfSym(st.db.trade, s), OfSym(Stamp(e.rows), s));
    }
  }

  lemma {:induction false} RunSavesExact(hdb: Hdb, es: seq<Roller.Event>, s: string)
    requires Roller.AllOk(es) && Roller.Clear(hdb, Roller.Run(hdb, es)) && BarsWithRows(hdb)
    ensures SavedExact(Roller.Run(hdb, es), es, s)
  {
    if es == [] {
      NoRows(s);
    } else {
      hide SavedExact, Roller.DaysOk, Roller.Clear, Savedown;
      var front, e := es[..|es| - 1], es[|es| - 1];
      var st := Roller.Run(hdb, front);
      assert es == front + [e];
      Roller.ClearBackwards(hdb, st, e);
      Roller.RunKeeps(hdb, front, s);
      RunSavesExact(hdb, front, s);
      match e {
        case Fed(rows) =>
          RollKeepsExact(hdb, st, Roller.LastDay(rows), front, s);
          InsertKeepsExact(Roller.Roll(st, Roller.LastDay(rows)), Roller.Run(hdb, es), front, e, s);
        case FedQuotes(quotes) =>
          RollKeepsExact(hdb, st, Roller.LastDay(quotes), front, s);
          InsertKeepsExact(Roller.Roll(st, Roller.LastDay(quotes)), Roller.Run(hdb, es), front, e, s);
        case Bridged(rows) =>
          InsertKeepsExact(st, Roller.Run(hdb, es), front, e, s);
      }
    }
  }

  /** Over every run of feeds and bridges whose days had no partition, and after the flush that ends it: if
      the symbol's trades were inserted in time order, every partition saved is read through its stored
      bars, at every multiple of their width, exactly as a scan would; and so are the quotes. */
  lemma {:induction false} SavedAreServedExactly(hdb: Hdb, es: seq<Roller.Event>, s: string)
    requires Roller.AllOk(es) && Roller.Clear(hdb, Roller.Run(hdb, es)) && BarsWithRows(hdb)
    ensures var st := Roller.Run(hdb, es);
            && (TradesOrdered(es, s) ==> forall d :: d in st.saved ==> AlwaysExact(st.db.hdb, d, s))
            && (QuotesOrdered(es, s) ==> forall d :: d in st.saved ==> QuotesAlwaysExact(st.db.hdb, d, s))
    ensures var st := Roller.Flush(Roller.Run(hdb, es));
            && (TradesOrdered(es, s) ==> forall d :: d in st.saved ==> AlwaysExact(st.db.hdb, d, s))
            && (QuotesOrdered(es, s) ==> forall d :: d in st.saved ==> QuotesAlwaysExact(st.db.hdb, d, s))
  {
    hide Savedown, AlwaysExact, QuotesAlwaysExact, TradesOrdered, QuotesOrdered, Roller.DaysOk, Roller.Clear,
         Roller.Run;
    var st := Roller.Run(hdb, es);
    RunSavesExact(hdb, es, s);
    Roller.RunKeeps(hdb, es, s);
    if st.day.Some? {
      DayIsClear(hdb, st);
      SaveKeepsExact(st, es, s, None);
    }
  }

  // --- the feed handler ---------------------------------------------------------------------------------------

  /** Stored times do not fall as ids rise. */
  ghost predicate TimesFollowIds(rows: seq<Stamped<Trade>>) {
    forall i, j ::
      0 <= i < |rows| && 0 <= j < |rows| && rows[i].body.tradeID < rows[j].body.tradeID ==> rows[i].time <= rows[j].time
  }

  lemma ContigInOrder(rows: seq<Stamped<Trade>>, floor: Option<int>, last: Option<int>)
    requires Contig(rows, floor, last) && TimesFollowIds(rows)
    ensures InOrder(rows)
  {
  }

  lemma LedgerIsRun(hdb: Hdb, h: Handler, s: string, floor: Option<int>, last: Option<int>, today: int)
    requires LedgerOf(hdb, h, s, floor, last, today) && Archive(hdb, s, floor, today)
    ensures Roller.AllOk(h.log) && h.roll == Roller.Run(hdb, h.log) && Roller.Clear(hdb, h.roll)
  {
  }

  /** From an archive through any run of the feed handler that keeps the store free of holes, reconnects and
      bridges included: when a symbol's times do not fall as its ids rise, every partition saved, the last
      one after the shutdown flush included, serves its bars exactly, at every multiple of a minute. */
  lemma {:induction false} HandlerServesExactly(hdb: Hdb, syms: seq<string>, rest: Exchange, es: seq<Event>, s: string,
                                                floor: Option<int>, today: int)
    requires s in syms && Archive(hdb, s, floor, today) && StartOk(New(hdb), syms, rest, s) && BarsWithRows(hdb)
    requires RunOk(Start(hdb, syms, rest), es, Tracked(syms), s, today)
    requires var rows := Inserted(Feed.Run(Start(hdb, syms, rest), es, Tracked(syms)), s);
             TimesFollowIds(rows) && NonNegative(Bodies(rows))
    ensures var st := Feed.Run(Start(hdb, syms, rest), es, Tracked(syms)).roll;
            && (forall d :: d in st.saved ==> AlwaysExact(st.db.hdb, d, s))
            && forall d :: d in Roller.Flush(st).saved ==> AlwaysExact(Roller.Flush(st).db.hdb, d, s)
  {
    hide RunOk, StartOk, Archive, AlwaysExact, Start, Feed.Run, Contig, TopIs, IsTrueMax;
    NoHolesEver(hdb, syms, rest, es, s, floor, today);
    var h := Feed.Run(Start(hdb, syms, rest), es, Tracked(syms));
    ContigInOrder(Inserted(h, s), floor, Last(h.lastId, s));
    StartInv(hdb, syms, rest, s, floor, today);
    RunKeepsInv(hdb, Start(hdb, syms, rest), es, Tracked(syms), s, floor, today);
    LedgerIsRun(hdb, h, s, floor, Last(h.lastId, s), today);
    SavedAreServedExactly(hdb, h.log, s);
  }
}
