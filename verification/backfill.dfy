/** The archive fill: each missing day fetched for every symbol and saved once. */
module Backfill {
  import opened Buckets
  import opened Bars
  import opened Kdb
  import opened MaxId

  /** What fetching one symbol's day comes to: not published, an exception after some chunks, or all chunks. */
  datatype Fetch =
    | Missing
    | Failed(partial: seq<Table<Trade>>)
    | Complete(chunks: seq<Table<Trade>>)

  type Archive = (string, int) -> Fetch

  datatype Summary = Summary(written: nat, rows: nat, skipped: nat, missing: nat, failed: nat)

  /** `plan_dates`: the days before `today`, ascending. */
  function PlanDates(today: int, days: nat): (r: seq<int>)
    ensures |r| == days && forall i :: 0 <= i < days ==> r[i] == today - days + i
  {
    seq(days, i => today - days + i)
  }

  /** `existing_partition_dates`. */
  function ExistingDates(hdb: Hdb): set<int> {
    hdb.trade.Keys
  }

  /** The rows a fetch puts into memory, complete or not. */
  function Fetched(f: Fetch): Table<Trade> {
    match f
    case Missing => []
    case Failed(partial) => Flatten(partial)
    case Complete(chunks) => Flatten(chunks)
  }

  function Whole(f: Fetch): Table<Trade> {
    if f.Complete? then Flatten(f.chunks) else []
  }

  function Partial(f: Fetch): Table<Trade> {
    if f.Failed? then Flatten(f.partial) else []
  }

  /** All the rows the day's fetches put into memory. */
  function Inserted(syms: seq<string>, day: int, archive: Archive): Table<Trade> {
    if syms == [] then [] else Fetched(archive(syms[0], day)) + Inserted(syms[1..], day, archive)
  }

  /** The day's own rows: those of the complete fetches. */
  function DayRows(syms: seq<string>, day: int, archive: Archive): Table<Trade> {
    if syms == [] then [] else Whole(archive(syms[0], day)) + DayRows(syms[1..], day, archive)
  }

  /** What failed fetches left behind. */
  function Debris(syms: seq<string>, day: int, archive: Archive): Table<Trade> {
    if syms == [] then [] else Partial(archive(syms[0], day)) + Debris(syms[1..], day, archive)
  }

  /** Some symbol's fetch completed. */
  predicate Wrote(syms: seq<string>, day: int, archive: Archive) {
    exists s :: s in syms && archive(s, day).Complete?
  }

  /** The store and the days it was saved down as, in order. */
  datatype Filled = Filled(db: Db, saved: seq<int>)

  function SaveDay(f: Filled, day: int): Filled {
    Filled(Savedown(f.db, day), f.saved + [day])
  }

  function FillDay(f: Filled, day: int, existing: set<int>, syms: seq<string>, archive: Archive): Filled {
    if day in existing then f
    else
      var r := f.(db := InsertRaw(f.db, Inserted(syms, day, archive)));
      if Wrote(syms, day, archive) then SaveDay(r, day) else r
  }

  /** `run_backfill`'s effect on the store, and the savedowns it makes. */
  function Fill(f: Filled, dates: seq<int>, existing: set<int>, syms: seq<string>, archive: Archive): Filled {
    if dates == [] then f
    else FillDay(Fill(f, dates[..|dates| - 1], existing, syms, archive), dates[|dates| - 1], existing, syms, archive)
  }

  /** The fill of a store by one call. */
  function FillStore(db: Db, dates: seq<int>, existing: set<int>, syms: seq<string>, archive: Archive): Filled {
    Fill(Filled(db, []), dates, existing, syms, archive)
  }

  // --- rows of one day ------------------------------------------------------------------------

  lemma {:induction false} StampedOfSym(a: Table<Trade>, b: Table<Trade>, s: string)
    ensures OfSym(Stamp(a + b), s) == OfSym(Stamp(a), s) + OfSym(Stamp(b), s)
  {
    StampJoin(a, b);
    OfSymConcat(Stamp(a), Stamp(b), s);
  }

  lemma FetchIsOne(f: Fetch, s: string)
    ensures multiset(OfSym(Stamp(Fetched(f)), s))
            == multiset(OfSym(Stamp(Whole(f)), s)) + multiset(OfSym(Stamp(Partial(f)), s))
  {
    assert Stamp<Trade>([]) == [];
  }

  /** What goes into memory is the day's rows and the debris, for every symbol. */
  lemma {:induction false} InsertedIsRowsAndDebris(syms: seq<string>, day: int, archive: Archive, s: string)
    ensures multiset(OfSym(Stamp(Inserted(syms, day, archive)), s))
            == multiset(OfSym(Stamp(DayRows(syms, day, archive)), s))
               + multiset(OfSym(Stamp(Debris(syms, day, archive)), s))
  {
    if syms != [] {
      var f := archive(syms[0], day);
      InsertedIsRowsAndDebris(syms[1..], day, archive, s);
      StampedOfSym(Fetched(f), Inserted(syms[1..], day, archive), s);
      StampedOfSym(Whole(f), DayRows(syms[1..], day, archive), s);
      StampedOfSym(Partial(f), Debris(syms[1..], day, archive), s);
      FetchIsOne(f, s);
    }
  }

  // --- what a saved day holds ----------------------------------------------------------------------

  /** The partition holds, for every symbol, exactly the rows. */
  ghost predicate Holds(hdb: Hdb, day: int, rows: Table<Trade>) {
    forall s :: multiset(SliceAt(hdb.trade, day, s)) == multiset(OfSym(rows, s))
  }

  /** Memory before the day, then what the day put in, in the partition written. */
  lemma {:induction false} SavedSlice(db: Db, day: int, syms: seq<string>, archive: Archive, s: string)
    requires Wrote(syms, day, archive) && day !in db.hdb.trade
    ensures var r := Savedown(InsertRaw(db, Inserted(syms, day, archive)), day);
            multiset(SliceAt(r.hdb.trade, day, s))
            == multiset(OfSym(db.trade, s)) + multiset(OfSym(Stamp(Inserted(syms, day, archive)), s))
  {
    var d := InsertRaw(db, Inserted(syms, day, archive));
    OfSymConcat(db.trade, Stamp(Inserted(syms, day, archive)), s);
    if d.trade == [] {
      SavedownWrites(d, day);
    } else {
      SavedSlices(d, day, s);
      SortMeaning(OfSym(d.trade, s));
    }
  }

  lemma NoRowsNoSlice()
    ensures forall s :: OfSym<Trade>([], s) == []
  {
  }

  lemma NothingAdded<T>(m: multiset<T>, a: seq<T>, b: seq<T>)
    ensures m == multiset(a) + (m + multiset(b)) ==> a == [] && b == []
  {
    var all := multiset(a) + (m + multiset(b));
    if a != [] {
      assert a[0] in multiset(a) && all[a[0]] == multiset(a)[a[0]] + m[a[0]] + multiset(b)[a[0]];
    }
    if b != [] {
      assert b[0] in multiset(b) && all[b[0]] == multiset(a)[b[0]] + m[b[0]] + multiset(b)[b[0]];
    }
  }

  lemma NoSymbolNoRow(t: Table<Trade>)
    requires forall s :: OfSym(t, s) == []
    ensures t == []
  {
    forall s ensures s !in Syms(t) {
      OfSymMembers(t, s);
    }
    assert Syms(t) == {};
    SymsEmpty(t);
  }

  /** The day is pure just when nothing was in memory before and no fetch failed part way. */
  lemma {:induction false} DayPureIff(f: Filled, day: int, existing: set<int>, syms: seq<string>, archive: Archive)
    requires day !in existing && day !in f.db.hdb.trade && Wrote(syms, day, archive)
    ensures Holds(FillDay(f, day, existing, syms, archive).db.hdb, day, Stamp(DayRows(syms, day, archive)))
            <==> f.db.trade == [] && Debris(syms, day, archive) == []
  {
    hide Savedown, InsertRaw, SliceAt, OfSym, DayRows, Debris, Inserted;
    var r := FillDay(f, day, existing, syms, archive).db;
    var own, debris := Stamp(DayRows(syms, day, archive)), Stamp(Debris(syms, day, archive));
    forall s ensures multiset(SliceAt(r.hdb.trade, day, s))
                     == multiset(OfSym(f.db.trade, s)) + (multiset(OfSym(own, s)) + multiset(OfSym(debris, s))) {
      SavedSlice(f.db, day, syms, archive, s);
      InsertedIsRowsAndDebris(syms, day, archive, s);
    }
    NoRowsNoSlice();
    if Holds(r.hdb, day, own) {
      forall s ensures OfSym(f.db.trade, s) == [] && OfSym(debris, s) == [] {
        assert multiset(SliceAt(r.hdb.trade, day, s)) == multiset(OfSym(own, s));
        NothingAdded(multiset(OfSym(own, s)), OfSym(f.db.trade, s), OfSym(debris, s));
      }
      NoSymbolNoRow(f.db.trade);
      NoSymbolNoRow(debris);
    }
  }

  // --- the whole fill ------------------------------------------------------------------------------

  predicate Distinct(dates: seq<int>) {
    forall i, j :: 0 <= i < j < |dates| ==> dates[i] != dates[j]
  }

  lemma PlannedDistinct(today: int, days: nat)
    ensures Distinct(PlanDates(today, days))
    ensures forall d :: d in PlanDates(today, days) <==> today - days <= d < today
  {
    var r := PlanDates(today, days);
    forall d | today - days <= d < today ensures d in r {
      assert r[d - (today - days)] == d;
    }
  }

  /** Filling touches only the partitions of days filled. */
  lemma {:induction false} FillFrame(f: Filled, dates: seq<int>, existing: set<int>, syms: seq<string>,
                                     archive: Archive, d: int)
    requires d in existing || d !in dates
    ensures var r := Fill(f, dates, existing, syms, archive).db;
            (d in r.hdb.trade <==> d in f.db.hdb.trade) && (d in f.db.hdb.trade ==> r.hdb.trade[d] == f.db.hdb.trade[d])
  {
    hide Savedown, Inserted;
    if dates != [] {
      var front, day := dates[..|dates| - 1], dates[|dates| - 1];
      assert day in dates && forall x :: x in front ==> x in dates;
      FillFrame(f, front, existing, syms, archive, d);
      var m := Fill(f, front, existing, syms, archive);
      if day !in existing && Wrote(syms, day, archive) {
        SavedownWrites(InsertRaw(m.db, Inserted(syms, day, archive)), day);
      }
    }
  }

  lemma {:induction false} FillMore(f: Filled, dates: seq<int>, i: nat, existing: set<int>, syms: seq<string>,
                                    archive: Archive)
    requires i <= |dates|
    ensures Fill(f, dates, existing, syms, archive)
            == Fill(Fill(f, dates[..i], existing, syms, archive), dates[i..], existing, syms, archive)
    decreases |dates| - i
  {
    hide FillDay;
    if i == |dates| {
      assert dates[..i] == dates;
    } else {
      var front, rest := dates[..|dates| - 1], dates[i..];
      FillMore(f, front, i, existing, syms, archive);
      assert front[..i] == dates[..i] && front[i..] == rest[..|rest| - 1];
    }
  }

  // --- what a fill leaves in memory -----------------------------------------------------------------

  /** How many of the dates it takes to reach the last one saved; 0 if none is. */
  function LastWritten(dates: seq<int>, existing: set<int>, syms: seq<string>, archive: Archive): (k: nat)
    ensures k <= |dates|
  {
    if dates == [] then 0
    else
      var day := dates[|dates| - 1];
      if day !in existing && Wrote(syms, day, archive) then |dates|
      else LastWritten(dates[..|dates| - 1], existing, syms, archive)
  }

  lemma {:induction false} LastWrittenMeaning(dates: seq<int>, existing: set<int>, syms: seq<string>, archive: Archive)
    ensures var k := LastWritten(dates, existing, syms, archive);
            && (k > 0 ==> dates[k - 1] !in existing && Wrote(syms, dates[k - 1], archive))
            && forall j :: k <= j < |dates| ==> dates[j] in existing || !Wrote(syms, dates[j], archive)
  {
    if dates != [] {
      LastWrittenMeaning(dates[..|dates| - 1], existing, syms, archive);
    }
  }

  /** No fetch of the missing days from the `k`th on broke off after its first rows. */
  ghost predicate NoDebrisFrom(dates: seq<int>, k: nat, existing: set<int>, syms: seq<string>, archive: Archive) {
    forall j :: k <= j < |dates| && dates[j] !in existing ==> Debris(syms, dates[j], archive) == []
  }

  /** Nothing broke off since the last day saved and, when no day was, memory began empty. */
  ghost predicate Swept(trade: Table<Trade>, dates: seq<int>, existing: set<int>, syms: seq<string>, archive: Archive) {
    var k := LastWritten(dates, existing, syms, archive);
    NoDebrisFrom(dates, k, existing, syms, archive) && (k == 0 ==> trade == [])
  }

  lemma {:induction false} OnlyDebris(syms: seq<string>, day: int, archive: Archive)
    requires !Wrote(syms, day, archive)
    ensures Inserted(syms, day, archive) == Debris(syms, day, archive)
  {
    if syms != [] {
      assert syms[0] in syms;
      assert forall s :: s in syms[1..] ==> s in syms;
      OnlyDebris(syms[1..], day, archive);
    }
  }

  lemma {:induction false} NoDebrisSnoc(front: seq<int>, day: int, k: nat, existing: set<int>, syms: seq<string>,
                                        archive: Archive)
    requires k <= |front|
    ensures NoDebrisFrom(front + [day], k, existing, syms, archive)
            <==> NoDebrisFrom(front, k, existing, syms, archive)
                 && (day !in existing ==> Debris(syms, day, archive) == [])
  {
    hide Debris;
    var all := front + [day];
    if NoDebrisFrom(all, k, existing, syms, archive) {
      assert all[|front|] == day;
      forall j | k <= j < |front| && front[j] !in existing ensures Debris(syms, front[j], archive) == [] {
        assert all[j] == front[j];
      }
    }
  }

  lemma NothingAfterLast(dates: seq<int>, existing: set<int>, syms: seq<string>, archive: Archive)
    ensures NoDebrisFrom(dates, |dates|, existing, syms, archive)
  {
  }

  /** The memory a fill leaves is empty exactly when it was swept. */
  lemma {:induction false} LeftoverIff(f: Filled, dates: seq<int>, existing: set<int>, syms: seq<string>,
                                       archive: Archive)
    ensures Fill(f, dates, existing, syms, archive).db.trade == []
            <==> Swept(f.db.trade, dates, existing, syms, archive)
  {
    hide Savedown, Wrote, Inserted, Debris, NoDebrisFrom;
    if dates == [] {
      NothingAfterLast(dates, existing, syms, archive);
    } else {
      var front, day := dates[..|dates| - 1], dates[|dates| - 1];
      var m := Fill(f, front, existing, syms, archive);
      if day !in existing && Wrote(syms, day, archive) {
        SavedownWrites(InsertRaw(m.db, Inserted(syms, day, archive)), day);
        NothingAfterLast(dates, existing, syms, archive);
      } else {
        LeftoverIff(f, front, existing, syms, archive);
        assert dates == front + [day];
        NoDebrisSnoc(front, day, LastWritten(front, existing, syms, archive), existing, syms, archive);
        if day !in existing {
          OnlyDebris(syms, day, archive);
        }
      }
    }
  }

  // --- what each saved day holds after the fill ---------------------------------------------------------

  lemma SameSlices(a: Hdb, b: Hdb, day: int, rows: Table<Trade>)
    requires (day in b.trade <==> day in a.trade) && (day in a.trade ==> b.trade[day] == a.trade[day])
    ensures Holds(a, day, rows) <==> Holds(b, day, rows)
  {
    assert forall s :: SliceAt(a.trade, day, s) == SliceAt(b.trade, day, s);
  }

  /** After the whole fill, a newly saved day's partition holds exactly that day's rows, for every
      symbol, if and only if none of the day's fetches broke off after yielding chunks, none of an
      earlier missing day's did since the last day saved, and memory began empty if no earlier day
      was saved. */
  lemma {:induction false} SavedDayPureIff(f: Filled, dates: seq<int>, existing: set<int>, syms: seq<string>,
                                           archive: Archive, i: nat)
    requires Distinct(dates) && i < |dates| && existing == ExistingDates(f.db.hdb)
    requires dates[i] !in existing && Wrote(syms, dates[i], archive)
    ensures var day := dates[i];
            Holds(Fill(f, dates, existing, syms, archive).db.hdb, day, Stamp(DayRows(syms, day, archive)))
            <==> Swept(f.db.trade, dates[..i], existing, syms, archive) && Debris(syms, day, archive) == []
  {
    hide FillDay, Swept, Holds, Wrote, DayRows, Debris;
    var day := dates[i];
    var was, now := Fill(f, dates[..i], existing, syms, archive), Fill(f, dates[..i + 1], existing, syms, archive);
    assert dates[..i + 1][..i] == dates[..i];
    assert now == FillDay(was, day, existing, syms, archive);
    FillFrame(f, dates[..i], existing, syms, archive, day);
    DayPureIff(was, day, existing, syms, archive);
    LeftoverIff(f, dates[..i], existing, syms, archive);
    FillMore(f, dates, i + 1, existing, syms, archive);
    FillFrame(now, dates[i + 1..], existing, syms, archive, day);
    SameSlices(now.db.hdb, Fill(f, dates, existing, syms, archive).db.hdb, day, Stamp(DayRows(syms, day, archive)));
  }

  /** The fill saves each missing day that has a complete fetch exactly once, and no other day. */
  lemma {:induction false} SavedOnce(db: Db, dates: seq<int>, existing: set<int>, syms: seq<string>, archive: Archive)
    requires Distinct(dates)
    ensures var saved := FillStore(db, dates, existing, syms, archive).saved;
            && Distinct(saved)
            && forall d :: d in saved <==> d in dates && d !in existing && Wrote(syms, d, archive)
  {
    hide Savedown, InsertRaw, Inserted, Wrote;
    if dates != [] {
      var front, day := dates[..|dates| - 1], dates[|dates| - 1];
      SavedOnce(db, front, existing, syms, archive);
      assert dates == front + [day];
      assert day !in front;
    }
  }

  /** Every fetch of the planned days either completes or fails before its first row. */
  ghost predicate CleanArchive(dates: seq<int>, syms: seq<string>, archive: Archive) {
    forall d :: d in dates ==> Debris(syms, d, archive) == []
  }

  /** Filling from an empty memory with clean fetches: every newly saved day's partition holds
      exactly that day's rows for every symbol. */
  lemma {:induction false} CleanFillIsPure(db: Db, dates: seq<int>, existing: set<int>, syms: seq<string>,
                                           archive: Archive)
    requires Distinct(dates) && existing == ExistingDates(db.hdb)
    requires db.trade == [] && CleanArchive(dates, syms, archive)
    ensures var r := FillStore(db, dates, existing, syms, archive);
            forall d :: d in r.saved ==> Holds(r.db.hdb, d, Stamp(DayRows(syms, d, archive)))
  {
    hide Fill, Holds, Wrote, DayRows, Debris;
    var r := FillStore(db, dates, existing, syms, archive);
    SavedOnce(db, dates, existing, syms, archive);
    forall d | d in r.saved ensures Holds(r.db.hdb, d, Stamp(DayRows(syms, d, archive))) {
      var i :| 0 <= i < |dates| && dates[i] == d;
      assert forall j :: 0 <= j < i ==> dates[..i][j] == dates[j] && dates[j] in dates;
      SavedDayPureIff(Filled(db, []), dates, existing, syms, archive, i);
    }
  }

  /** Filling again over the dates then present, whatever the archive now answers, rewrites no
      partition, new or old. */
  lemma {:induction false} RerunRewritesNothing(db: Db, dates: seq<int>, existing: set<int>, syms: seq<string>,
                                                archive: Archive,
                                                later: Db, again: seq<int>, archive2: Archive)
    requires later.hdb == FillStore(db, dates, existing, syms, archive).db.hdb
    ensures var r := FillStore(later, again, ExistingDates(later.hdb), syms, archive2).db;
            forall d :: d in later.hdb.trade ==> d in r.hdb.trade && r.hdb.trade[d] == later.hdb.trade[d]
  {
    hide Fill;
    forall d | d in later.hdb.trade
      ensures var r := FillStore(later, again, ExistingDates(later.hdb), syms, archive2).db;
              d in r.hdb.trade && r.hdb.trade[d] == later.hdb.trade[d]
    {
      FillFrame(Filled(later, []), again, ExistingDates(later.hdb), syms, archive2, d);
    }
  }

  // --- a fetch that fails part way ----------------------------------------------------------------------

  const ROW := Stamped(0, Tick(ETH, Trade(1, 1.0, 1.0, false)))

  /** The archive has BTC's day 2; ETH's day 1 breaks off after one row. */
  function BrokenArchive(s: string, day: int): Fetch {
    if s == ETH && day == 1 then Failed([[ROW]])
    else if s == BTC && day == 2 then Complete([])
    else Missing
  }

  lemma {:induction false} OneInserted()
    ensures Inserted([BTC, ETH], 1, BrokenArchive) == [ROW]
    ensures Inserted([BTC, ETH], 2, BrokenArchive) == []
  {
    var syms := [BTC, ETH];
    assert syms[1..] == [ETH] && [ETH][1..] == [] && BTC != ETH;
    assert Flatten([[ROW]]) == [ROW] + Flatten([]);
    assert Inserted([ETH], 1, BrokenArchive) == Fetched(BrokenArchive(ETH, 1)) + Inserted([], 1, BrokenArchive);
    assert Inserted([ETH], 2, BrokenArchive) == Fetched(BrokenArchive(ETH, 2)) + Inserted([], 2, BrokenArchive);
    assert Inserted(syms, 1, BrokenArchive) == Fetched(BrokenArchive(BTC, 1)) + Inserted([ETH], 1, BrokenArchive);
    assert Inserted(syms, 2, BrokenArchive) == Fetched(BrokenArchive(BTC, 2)) + Inserted([ETH], 2, BrokenArchive);
  }

  lemma {:induction false} BrokenDayOne(f: Filled)
    ensures Fill(f, [1], {}, [BTC, ETH], BrokenArchive) == f.(db := InsertRaw(f.db, [ROW]))
  {
    OneInserted();
    assert BTC != ETH;
    assert !Wrote([BTC, ETH], 1, BrokenArchive);
    assert [1][..0] == [];
    assert Fill(f, [1], {}, [BTC, ETH], BrokenArchive)
        == FillDay(Fill(f, [], {}, [BTC, ETH], BrokenArchive), 1, {}, [BTC, ETH], BrokenArchive);
  }

  lemma {:induction false} BrokenDayTwo(f: Filled)
    requires f.db.trade == [Stamped(Ms2ts(0), ROW.body)] && f.db.hdb == EMPTY_HDB
    ensures var r := FillDay(f, 2, {}, [BTC, ETH], BrokenArchive).db;
            SliceAt(r.hdb.trade, 2, ETH) == [Stamped(Ms2ts(0), ROW.body.body)]
            && !Holds(r.hdb, 2, Stamp(DayRows([BTC, ETH], 2, BrokenArchive)))
  {
    var x := Stamped(Ms2ts(0), ROW.body.body);
    OneInserted();
    assert Wrote([BTC, ETH], 2, BrokenArchive) by {
      assert BTC in [BTC, ETH] && BrokenArchive(BTC, 2).Complete?;
    }
    DayPureIff(f, 2, {}, [BTC, ETH], BrokenArchive);
    assert InsertRaw(f.db, []).trade == f.db.trade;
    SavedSlices(InsertRaw(f.db, []), 2, ETH);
    assert OfSym(f.db.trade, ETH) == [x] + OfSym(f.db.trade[1..], ETH);
    assert OfSym(f.db.trade, ETH) == [x] && SortByTime([x]) == [x];
  }

  /** The rows of a fetch that failed on one day are saved under the next. */
  lemma {:induction false} BrokenFetchPollutesNextDay()
    ensures var r := FillStore(EMPTY, [1, 2], {}, [BTC, ETH], BrokenArchive).db;
            SliceAt(r.hdb.trade, 2, ETH) == [Stamped(Ms2ts(0), ROW.body.body)]
            && !Holds(r.hdb, 2, Stamp(DayRows([BTC, ETH], 2, BrokenArchive)))
  {
    hide FillDay, Holds, DayRows;
    var f := Filled(EMPTY, []);
    BrokenDayOne(f);
    assert [1, 2][..1] == [1];
    assert InsertRaw(EMPTY, [ROW]).trade == [Stamped(Ms2ts(0), ROW.body)];
    BrokenDayTwo(f.(db := InsertRaw(EMPTY, [ROW])));
  }

  // --- the method --------------------------------------------------------------------------------------

  function Rows(syms: seq<string>, day: int, archive: Archive): nat {
    if syms == [] then 0 else |Whole(archive(syms[0], day))| + Rows(syms[1..], day, archive)
  }

  function CountMissing(syms: seq<string>, day: int, archive: Archive): nat {
    if syms == [] then 0 else (if archive(syms[0], day).Missing? then 1 else 0) + CountMissing(syms[1..], day, archive)
  }

  function CountFailed(syms: seq<string>, day: int, archive: Archive): nat {
    if syms == [] then 0 else (if archive(syms[0], day).Failed? then 1 else 0) + CountFailed(syms[1..], day, archive)
  }

  function DaySummary(sum: Summary, day: int, existing: set<int>, syms: seq<string>, archive: Archive): Summary {
    if day in existing then sum.(skipped := sum.skipped + 1)
    else
      Summary(sum.written + (if Wrote(syms, day, archive) then 1 else 0), sum.rows + Rows(syms, day, archive),
              sum.skipped, sum.missing + CountMissing(syms, day, archive), sum.failed + CountFailed(syms, day, archive))
  }

  function Tally(dates: seq<int>, existing: set<int>, syms: seq<string>, archive: Archive): Summary {
    if dates == [] then Summary(0, 0, 0, 0, 0)
    else DaySummary(Tally(dates[..|dates| - 1], existing, syms, archive), dates[|dates| - 1], existing, syms, archive)
  }

  /** The summary's count of written days is the number of days saved. */
  lemma {:induction false} WrittenCountsSaved(db: Db, dates: seq<int>, existing: set<int>, syms: seq<string>,
                                              archive: Archive)
    ensures Tally(dates, existing, syms, archive).written == |FillStore(db, dates, existing, syms, archive).saved|
  {
    hide Savedown, InsertRaw, Inserted, Wrote, Rows, CountMissing, CountFailed;
    if dates != [] {
      WrittenCountsSaved(db, dates[..|dates| - 1], existing, syms, archive);
    }
  }

  /** Insert a fetch's chunks one by one. */
  method InsertChunks(writer: Process, chunks: seq<Table<Trade>>) returns (rows: nat)
    modifies writer
    ensures writer.Model() == InsertRaw(old(writer.Model()), Flatten(chunks)) && rows == |Flatten(chunks)|
  {
    rows := 0;
    var i := 0;
    ghost var goal := InsertRaw(writer.Model(), Flatten(chunks));
    InsertTwice(writer.Model(), [], []);
    assert chunks[0..] == chunks;
    while i < |chunks|
      invariant 0 <= i <= |chunks|
      invariant InsertRaw(writer.Model(), Flatten(chunks[i..])) == goal
      invariant rows + |Flatten(chunks[i..])| == |Flatten(chunks)|
    {
      assert chunks[i..][0] == chunks[i] && chunks[i..][1..] == chunks[i + 1..];
      InsertTwice(writer.Model(), chunks[i], Flatten(chunks[i + 1..]));
      var n := writer.InsertTrades(chunks[i]);
      rows := rows + n;
      i := i + 1;
    }
    assert writer.Model().trade + Stamp([]) == writer.Model().trade;
  }

  lemma NoSymbols(day: int, archive: Archive)
    ensures !Wrote([], day, archive) && Rows([], day, archive) == 0
    ensures CountMissing([], day, archive) == 0 && CountFailed([], day, archive) == 0
  {
  }

  lemma NothingInserted(db: Db, day: int, archive: Archive)
    ensures InsertRaw(db, []) == db && InsertRaw(db, Inserted([], day, archive)) == db
  {
    assert db.trade + Stamp([]) == db.trade;
  }

  /** What one more symbol does to the day. */
  lemma {:induction false} OneSymbol(db: Db, syms: seq<string>, i: nat, day: int, archive: Archive)
    requires i < |syms|
    ensures var f := archive(syms[i], day);
            && InsertRaw(InsertRaw(db, Fetched(f)), Inserted(syms[i + 1..], day, archive))
               == InsertRaw(db, Inserted(syms[i..], day, archive))
            && Wrote(syms[..i + 1], day, archive) == (Wrote(syms[..i], day, archive) || f.Complete?)
            && Rows(syms[i..], day, archive) == |Whole(f)| + Rows(syms[i + 1..], day, archive)
            && CountMissing(syms[i..], day, archive)
               == (if f.Missing? then 1 else 0) + CountMissing(syms[i + 1..], day, archive)
            && CountFailed(syms[i..], day, archive)
               == (if f.Failed? then 1 else 0) + CountFailed(syms[i + 1..], day, archive)
  {
    hide InsertRaw, Fetched, Whole;
    assert syms[i..][0] == syms[i] && syms[i..][1..] == syms[i + 1..];
    assert syms[..i + 1] == syms[..i] + [syms[i]];
    assert syms[i] in syms[..i + 1];
    InsertTwice(db, Fetched(archive(syms[i], day)), Inserted(syms[i + 1..], day, archive));
  }

  /** Fetch every symbol's day. */
  method FetchDay(writer: Process, day: int, syms: seq<string>, archive: Archive)
    returns (wrote: bool, rows: nat, missing: nat, failed: nat)
    modifies writer
    ensures writer.Model() == InsertRaw(old(writer.Model()), Inserted(syms, day, archive))
    ensures wrote == Wrote(syms, day, archive) && rows == Rows(syms, day, archive)
    ensures missing == CountMissing(syms, day, archive) && failed == CountFailed(syms, day, archive)
  {
    hide InsertRaw, Inserted, Wrote, Rows, CountMissing, CountFailed, Flatten;
    wrote, rows, missing, failed := false, 0, 0, 0;
    ghost var goal := InsertRaw(writer.Model(), Inserted(syms, day, archive));
    var i := 0;
    assert syms[0..] == syms && syms[..0] == [];
    NoSymbols(day, archive);
    while i < |syms|
      invariant 0 <= i <= |syms|
      invariant InsertRaw(writer.Model(), Inserted(syms[i..], day, archive)) == goal
      invariant wrote == Wrote(syms[..i], day, archive)
      invariant rows + Rows(syms[i..], day, archive) == Rows(syms, day, archive)
      invariant missing + CountMissing(syms[i..], day, archive) == CountMissing(syms, day, archive)
      invariant failed + CountFailed(syms[i..], day, archive) == CountFailed(syms, day, archive)
    {
      var f := archive(syms[i], day);
      OneSymbol(writer.Model(), syms, i, day, archive);
      match f {
        case Missing =>
          NothingInserted(writer.Model(), day, archive);
          missing := missing + 1;
        case Failed(partial) =>
          var n := InsertChunks(writer, partial);
          failed := failed + 1;
        case Complete(chunks) =>
          var n := InsertChunks(writer, chunks);
          rows := rows + n;
          wrote := true;
      }
      i := i + 1;
    }
    assert syms[..i] == syms && syms[i..] == [];
    NothingInserted(writer.Model(), day, archive);
  }

  lemma NoDates(f: Filled, existing: set<int>, syms: seq<string>, archive: Archive)
    ensures Fill(f, [], existing, syms, archive) == f && Tally([], existing, syms, archive) == Summary(0, 0, 0, 0, 0)
  {
  }

  lemma {:induction false} StepsSnoc(f: Filled, dates: seq<int>, i: nat, existing: set<int>, syms: seq<string>,
                                     archive: Archive)
    requires i < |dates|
    ensures Fill(f, dates[..i + 1], existing, syms, archive)
            == FillDay(Fill(f, dates[..i], existing, syms, archive), dates[i], existing, syms, archive)
    ensures Tally(dates[..i + 1], existing, syms, archive)
            == DaySummary(Tally(dates[..i], existing, syms, archive), dates[i], existing, syms, archive)
  {
    hide FillDay, DaySummary;
    assert dates[..i + 1][..i] == dates[..i];
  }

  /** `run_backfill`; `saved` is the history of its savedowns. */
  method RunBackfill(writer: Process, dates: seq<int>, existing: set<int>, syms: seq<string>, archive: Archive)
    returns (summary: Summary, ghost saved: seq<int>)
    modifies writer
    ensures Filled(writer.Model(), saved) == FillStore(old(writer.Model()), dates, existing, syms, archive)
    ensures summary == Tally(dates, existing, syms, archive)
    ensures summary.written == |saved|
  {
    hide Fill, Tally, Savedown, InsertRaw, Inserted, Wrote, Rows, CountMissing, CountFailed;
    summary, saved := Summary(0, 0, 0, 0, 0), [];
    ghost var start := Filled(writer.Model(), []);
    var i := 0;
    NoDates(start, existing, syms, archive);
    assert dates[..0] == [];
    while i < |dates|
      invariant 0 <= i <= |dates|
      invariant Filled(writer.Model(), saved) == Fill(start, dates[..i], existing, syms, archive)
      invariant summary == Tally(dates[..i], existing, syms, archive)
    {
      var day := dates[i];
      StepsSnoc(start, dates, i, existing, syms, archive);
      if day in existing {
        summary := summary.(skipped := summary.skipped + 1);
      } else {
        var wrote, rows, missing, failed := FetchDay(writer, day, syms, archive);
        if wrote {
          writer.SavedownDay(day);
          saved := saved + [day];
        }
        summary := Summary(summary.written + (if wrote then 1 else 0), summary.rows + rows, summary.skipped,
                           summary.missing + missing, summary.failed + failed);
      }
      i := i + 1;
    }
    assert dates[..i] == dates;
    WrittenCountsSaved(start.db, dates, existing, syms, archive);
  }
}
