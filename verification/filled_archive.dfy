/** From the archive fill to the feed handler: what a clean fill leaves is a store the handler can start on. */
module FilledArchive {
  import opened Backfill
  import opened Bars
  import opened Buckets
  import opened HoleFree
  import opened Kdb
  import opened Ledgers
  import opened MaxId
  import opened Options

  /** Where a day's rows of the symbol come from: its partition, if it has one, else the day's fetches. */
  function Source(hdb: Hdb, dates: seq<int>, syms: seq<string>, archive: Archive, d: int,
                  s: string): seq<Stamped<Trade>> {
    if d in hdb.trade then SliceAt(hdb.trade, d, s)
    else if d in dates then OfSym(Stamp(DayRows(syms, d, archive)), s)
    else []
  }

  /** Ids are not negative and rise with the day, over stored and published days alike. */
  ghost predicate SourcesRise(hdb: Hdb, dates: seq<int>, syms: seq<string>, archive: Archive, s: string) {
    && (forall d, v :: Has(Source(hdb, dates, syms, archive, d, s), TradeId, v) ==> v >= 0)
    && (forall d, e, v, w ::
          (d < e && Has(Source(hdb, dates, syms, archive, d, s), TradeId, v)
           && Has(Source(hdb, dates, syms, archive, e, s), TradeId, w))
          ==> v < w)
  }

  /** The greatest id of any day, if there is one. */
  ghost predicate SourceTop(hdb: Hdb, dates: seq<int>, syms: seq<string>, archive: Archive, s: string,
                            top: Option<int>) {
    match top
    case None => forall d, v :: !Has(Source(hdb, dates, syms, archive, d, s), TradeId, v)
    case Some(m) =>
      && (exists d :: Has(Source(hdb, dates, syms, archive, d, s), TradeId, m))
      && (forall d, v :: Has(Source(hdb, dates, syms, archive, d, s), TradeId, v) ==> v <= m)
  }

  lemma SameHas(a: seq<Stamped<Trade>>, b: seq<Stamped<Trade>>)
    requires multiset(a) == multiset(b)
    ensures forall v :: Has(a, TradeId, v) <==> Has(b, TradeId, v)
  {
    forall r ensures r in a <==> r in b {
      assert r in multiset(a) <==> r in multiset(b);
    }
  }

  /** A fill adds partitions only for the days it saves. */
  lemma {:induction false} OnlySavedDays(f: Filled, dates: seq<int>, existing: set<int>, syms: seq<string>,
                                         archive: Archive)
    ensures var r := Fill(f, dates, existing, syms, archive);
            && (forall d :: d in r.db.hdb.trade ==> d in f.db.hdb.trade || d in r.saved)
            && (forall d :: d in r.db.hdb.quote ==> d in f.db.hdb.quote || d in r.saved)
            && (forall d :: d in f.saved ==> d in r.saved)
            && (f.db.quote == [] ==> r.db.quote == [])
  {
    hide Savedown, Inserted, Wrote;
    if dates != [] {
      var front, day := dates[..|dates| - 1], dates[|dates| - 1];
      OnlySavedDays(f, front, existing, syms, archive);
      var m := Fill(f, front, existing, syms, archive);
      SavedownWrites(InsertRaw(m.db, Inserted(syms, day, archive)), day);
    }
  }

  lemma {:induction false} NothingWritten(syms: seq<string>, day: int, archive: Archive)
    requires !Wrote(syms, day, archive)
    ensures DayRows(syms, day, archive) == []
  {
    if syms != [] {
      assert syms[0] in syms;
      assert forall s :: s in syms[1..] ==> s in syms;
      NothingWritten(syms[1..], day, archive);
    }
  }

  lemma NothingStamped(s: string)
    ensures OfSym(Stamp<Trade>([]), s) == []
  {
  }

  /** After a clean fill every day holds its source's rows. */
  lemma {:induction false} HoldsSource(db: Db, dates: seq<int>, syms: seq<string>, archive: Archive, d: int, s: string)
    requires Distinct(dates) && db.trade == [] && CleanArchive(dates, syms, archive)
    ensures multiset(SliceAt(FillStore(db, dates, ExistingDates(db.hdb), syms, archive).db.hdb.trade, d, s))
            == multiset(Source(db.hdb, dates, syms, archive, d, s))
  {
    hide Fill, DayRows, Wrote, OfSym, CleanArchive;
    var existing := ExistingDates(db.hdb);
    var r := FillStore(db, dates, existing, syms, archive);
    SavedOnce(db, dates, existing, syms, archive);
    OnlySavedDays(Filled(db, []), dates, existing, syms, archive);
    if d in existing || d !in dates {
      FillFrame(Filled(db, []), dates, existing, syms, archive, d);
    } else if Wrote(syms, d, archive) {
      CleanFillIsPure(db, dates, existing, syms, archive);
      assert d in r.saved;
    } else {
      assert d !in r.db.hdb.trade;
      NothingWritten(syms, d, archive);
      NothingStamped(s);
    }
  }

  lemma NoMemory(s: string)
    ensures forall v :: !Has(OfSym<Trade>([], s), TradeId, v)
  {
  }

  /** Partitions that hold what the sources do have their order and their greatest id. */
  lemma {:induction false} SourcesAreTop(db: Db, h: Hdb, dates: seq<int>, syms: seq<string>, archive: Archive,
                                         s: string, top: Option<int>)
    requires forall d, v ::
               Has(SliceAt(h.trade, d, s), TradeId, v) <==> Has(Source(db.hdb, dates, syms, archive, d, s), TradeId, v)
    requires SourcesRise(db.hdb, dates, syms, archive, s) && SourceTop(db.hdb, dates, syms, archive, s, top)
    ensures TopIs(Db([], [], h), s, top)
  {
    hide Source, SliceAt, Has;
    NoMemory(s);
    if top.Some? {
      var d :| Has(Source(db.hdb, dates, syms, archive, d, s), TradeId, top.value);
      assert Has(SliceAt(h.trade, d, s), TradeId, top.value);
    }
  }

  lemma CleanIsSwept(db: Db, dates: seq<int>, existing: set<int>, syms: seq<string>, archive: Archive)
    requires db.trade == [] && CleanArchive(dates, syms, archive)
    ensures Swept(db.trade, dates, existing, syms, archive)
  {
    hide Debris, LastWritten;
    assert forall j :: 0 <= j < |dates| ==> dates[j] in dates;
  }

  /** A clean fill of the planned days, over published and stored days whose ids rise with the day, leaves a
      store with empty memory that is an archive for the feed handler: its ids rise with the day up to the
      greatest one published or stored, and all its days are past. */
  lemma {:induction false} FillMakesArchive(db: Db, today: int, days: nat, syms: seq<string>, archive: Archive,
                                            s: string, top: Option<int>)
    requires db.trade == [] && db.quote == []
    requires (forall d :: d in db.hdb.trade ==> d < today) && (forall d :: d in db.hdb.quote ==> d < today)
    requires CleanArchive(PlanDates(today, days), syms, archive)
    requires SourcesRise(db.hdb, PlanDates(today, days), syms, archive, s)
    requires SourceTop(db.hdb, PlanDates(today, days), syms, archive, s, top)
    ensures var r := FillStore(db, PlanDates(today, days), ExistingDates(db.hdb), syms, archive).db;
            r == Db([], [], r.hdb) && HoleFree.Archive(r.hdb, s, top, today)
  {
    hide Fill, DayRows, Wrote, OfSym, CleanArchive, SourcesRise, SourceTop, Source, Has, TopIs, PlanDates, SliceAt;
    var dates, existing := PlanDates(today, days), ExistingDates(db.hdb);
    var r := FillStore(db, dates, existing, syms, archive);
    PlannedDistinct(today, days);
    SavedOnce(db, dates, existing, syms, archive);
    OnlySavedDays(Filled(db, []), dates, existing, syms, archive);
    forall d, v
      ensures Has(SliceAt(r.db.hdb.trade, d, s), TradeId, v)
              <==> Has(Source(db.hdb, dates, syms, archive, d, s), TradeId, v)
    {
      HoldsSource(db, dates, syms, archive, d, s);
      SameHas(SliceAt(r.db.hdb.trade, d, s), Source(db.hdb, dates, syms, archive, d, s));
    }
    SourcesAreTop(db, r.db.hdb, dates, syms, archive, s, top);
    LeftoverIff(Filled(db, []), dates, existing, syms, archive);
    CleanIsSwept(db, dates, existing, syms, archive);
  }
}
