/** The writer's kdb process with its date partitions and savedown, and the reader's bar queries. */
module Kdb {
  import opened Buckets
  import opened Bars
  import opened QuoteBars

  datatype Tick<T> = Tick(sym: string, body: T)

  /** An in-memory table, rows in insertion order. */
  type Table<T> = seq<Stamped<Tick<T>>>

  /** One partition of one table: a slice of rows per symbol (the `p#` attribute). */
  type Slices<T> = map<string, seq<Stamped<T>>>

  datatype Hdb = Hdb(
    trade: map<int, Slices<Trade>>,
    quote: map<int, Slices<Quote>>,
    bar: map<int, Slices<Ohlcv>>,
    quoteBar: map<int, Slices<Book>>)

  datatype Db = Db(trade: Table<Trade>, quote: Table<Quote>, hdb: Hdb)

  const EMPTY_HDB := Hdb(map[], map[], map[], map[])

  const EMPTY := Db([], [], EMPTY_HDB)

  const NS_PER_MS := 1_000_000

  // One minute, in nanoseconds.
  const BAR_SIZE := 60_000_000_000

  // 1970-01-01 in nanoseconds from kdb's epoch, 2000-01-01.
  const UNIX_EPOCH := -10_957 * 86_400_000_000_000

  /** Epoch milliseconds to a kdb timestamp. */
  function Ms2ts(ms: int): int {
    UNIX_EPOCH + NS_PER_MS * ms
  }

  /** A timestamp counts nanoseconds from 2000-01-01 UTC, so a stored bar holds one UTC minute. */
  lemma StampMeaning(ms: int)
    ensures Ms2ts(ms) == (ms - 946_684_800_000) * 1_000_000
    ensures Xbar(BAR_SIZE, Ms2ts(ms)) == Ms2ts(ms / 60_000 * 60_000)
  {
    XbarMeaning(BAR_SIZE, Ms2ts(ms), Ms2ts(ms / 60_000 * 60_000));
  }

  // --- tables --------------------------------------------------------------------------

  /** `select from t where sym=s`. */
  function OfSym<T>(t: Table<T>, s: string): seq<Stamped<T>> {
    if t == [] then []
    else (if t[0].body.sym == s then [Stamped(t[0].time, t[0].body.body)] else []) + OfSym(t[1..], s)
  }

  function Syms<T>(t: Table<T>): set<string> {
    set i | 0 <= i < |t| :: t[i].body.sym
  }

  function SlicesOf<T>(t: Table<T>): Slices<T> {
    map s | s in Syms(t) :: OfSym(t, s)
  }

  function Stamp<T>(rows: Table<T>): (r: Table<T>)
    ensures |r| == |rows| && forall i :: 0 <= i < |r| ==> r[i] == Stamped(Ms2ts(rows[i].time), rows[i].body)
  {
    seq(|rows|, i requires 0 <= i < |rows| => Stamped(Ms2ts(rows[i].time), rows[i].body))
  }

  function InsertRaw(db: Db, rows: Table<Trade>): Db {
    db.(trade := db.trade + Stamp(rows))
  }

  function InsertRawQuote(db: Db, rows: Table<Quote>): Db {
    db.(quote := db.quote + Stamp(rows))
  }

  lemma StampJoin<T>(a: Table<T>, b: Table<T>)
    ensures Stamp(a + b) == Stamp(a) + Stamp(b)
  {
  }

  lemma {:induction false} InsertTwice(db: Db, a: Table<Trade>, b: Table<Trade>)
    ensures InsertRaw(InsertRaw(db, a), b) == InsertRaw(db, a + b)
  {
    StampJoin(a, b);
    assert db.trade + Stamp(a) + Stamp(b) == db.trade + (Stamp(a) + Stamp(b));
  }

  /** `buildBars[t;sz]`: from the rows as they lie in memory. */
  function BuildBars(t: Table<Trade>, sz: int): Slices<Ohlcv>
    requires sz > 0
  {
    map s | s in Syms(t) :: BarsOf(OfSym(t, s), sz)
  }

  function BuildAllQuoteBars(q: Table<Quote>, sz: int): Slices<Book>
    requires sz > 0
  {
    map s | s in Syms(q) :: BuildQuoteBars(OfSym(q, s), sz)
  }

  function SaveTrade(db: Db, day: int): Db {
    if db.trade == [] then db
    else db.(hdb := db.hdb.(trade := db.hdb.trade[day := SlicesOf(SortByTime(db.trade))]), trade := [])
  }

  function SaveQuote(db: Db, day: int): Db {
    if db.quote == [] then db
    else db.(hdb := db.hdb.(quote := db.hdb.quote[day := SlicesOf(SortByTime(db.quote))]), quote := [])
  }

  function SaveBars(db: Db, day: int, b: Slices<Ohlcv>): Db {
    if b == map[] then db else db.(hdb := db.hdb.(bar := db.hdb.bar[day := b]))
  }

  function SaveQuoteBars(db: Db, day: int, b: Slices<Book>): Db {
    if b == map[] then db else db.(hdb := db.hdb.(quoteBar := db.hdb.quoteBar[day := b]))
  }

  /** `savedown[dt]`: bars first, from the unsorted rows; then each table, then the bars. */
  function Savedown(db: Db, day: int): Db {
    var b := BuildBars(db.trade, BAR_SIZE);
    var qb := BuildAllQuoteBars(db.quote, BAR_SIZE);
    SaveQuoteBars(SaveBars(SaveQuote(SaveTrade(db, day), day), day, b), day, qb)
  }

  // --- reading -------------------------------------------------------------------------

  function SliceAt<T>(parts: map<int, Slices<T>>, day: int, s: string): seq<Stamped<T>> {
    if day in parts && s in parts[day] then parts[day][s] else []
  }

  /** `barsFromTrades[s;d;sz]`. */
  function BarsFromTrades(hdb: Hdb, s: string, day: int, sz: int): seq<Stamped<Ohlcv>>
    requires sz > 0
  {
    BarsOf(SliceAt(hdb.trade, day, s), sz)
  }

  /** `bars[s;d;sz]`: the stored bars re-bucketed when there are any, else a trade scan. */
  function ReadBars(hdb: Hdb, s: string, day: int, sz: int): seq<Stamped<Ohlcv>>
    requires sz > 0
  {
    var b := SliceAt(hdb.bar, day, s);
    if b != [] then Rebucket(b, sz) else BarsFromTrades(hdb, s, day, sz)
  }

  function QuoteBarsFromQuotes(hdb: Hdb, s: string, day: int, sz: int): seq<Stamped<Features>>
    requires sz > 0
  {
    QuoteBarsOf(SliceAt(hdb.quote, day, s), sz)
  }

  /** `quoteBars[s;d;sz]`. */
  function ReadQuoteBars(hdb: Hdb, s: string, day: int, sz: int): seq<Stamped<Features>>
    requires sz > 0
  {
    var b := SliceAt(hdb.quoteBar, day, s);
    if b != [] then RebucketQuoteBars(b, sz) else QuoteBarsFromQuotes(hdb, s, day, sz)
  }

  // --- one symbol's slice through a savedown -------------------------------------------

  lemma {:induction false} OfSymConcat<T>(a: Table<T>, b: Table<T>, s: string)
    ensures OfSym(a + b, s) == OfSym(a, s) + OfSym(b, s)
  {
    if a == [] {
      assert a + b == b;
    } else {
      var x := if a[0].body.sym == s then [Stamped(a[0].time, a[0].body.body)] else [];
      assert (a + b)[1..] == a[1..] + b && (a + b)[0] == a[0];
      OfSymConcat(a[1..], b, s);
      assert x + (OfSym(a[1..], s) + OfSym(b, s)) == (x + OfSym(a[1..], s)) + OfSym(b, s);
    }
  }

  lemma {:induction false} OfSymMembers<T>(t: Table<T>, s: string)
    ensures OfSym(t, s) != [] <==> s in Syms(t)
    ensures forall x ::
              x in OfSym(t, s) ==> exists i :: 0 <= i < |t| && t[i].time == x.time && t[i].body == Tick(s, x.body)
  {
    if t != [] {
      OfSymMembers(t[1..], s);
      assert forall i :: 0 <= i < |t[1..]| ==> t[1..][i] == t[i + 1];
      if s in Syms(t[1..]) {
        var i :| 0 <= i < |t[1..]| && t[1..][i].body.sym == s;
        assert t[i + 1].body.sym == s;
      }
      if s in Syms(t) {
        var i :| 0 <= i < |t| && t[i].body.sym == s;
        assert i > 0 ==> t[1..][i - 1].body.sym == s;
      }
      forall x | x in OfSym(t, s)
        ensures exists i :: 0 <= i < |t| && t[i].time == x.time && t[i].body == Tick(s, x.body)
      {
        if x in OfSym(t[1..], s) {
          var i :| 0 <= i < |t[1..]| && t[1..][i].time == x.time && t[1..][i].body == Tick(s, x.body);
          assert t[i + 1].time == x.time && t[i + 1].body == Tick(s, x.body);
        } else {
          assert t[0].time == x.time && t[0].body == Tick(s, x.body);
        }
      }
    }
  }

  lemma OfSymStartsNoEarlier<T>(t: Table<T>, s: string)
    requires t != [] && InOrder(t)
    ensures OfSym(t, s) != [] ==> t[0].time <= OfSym(t, s)[0].time
  {
    OfSymMembers(t, s);
    if OfSym(t, s) != [] {
      var x := OfSym(t, s)[0];
      assert x in OfSym(t, s);
    }
  }

  lemma {:induction false} OfSymInsert<T>(x: Stamped<Tick<T>>, t: Table<T>, s: string)
    requires InOrder(t)
    ensures OfSym(InsertByTime(x, t), s)
            == if x.body.sym == s then InsertByTime(Stamped(x.time, x.body.body), OfSym(t, s)) else OfSym(t, s)
  {
    var r := InsertByTime(x, t);
    if t == [] {
    } else if x.time <= t[0].time {
      assert r[1..] == t;
      OfSymStartsNoEarlier(t, s);
      var g := OfSym(t, s);
      assert OfSym(r, s) == (if x.body.sym == s then [Stamped(x.time, x.body.body)] else []) + g;
    } else {
      OfSymInsert(x, t[1..], s);
      assert r[1..] == InsertByTime(x, t[1..]);
      if t[0].body.sym == s {
        assert OfSym(t, s)[1..] == OfSym(t[1..], s);
      } else {
        assert OfSym(t, s) == OfSym(t[1..], s);
        assert OfSym(r, s) == OfSym(r[1..], s);
      }
    }
  }

  /** Sorting the whole table by time sorts each symbol's slice by time. */
  lemma {:induction false} OfSymSorted<T>(t: Table<T>, s: string)
    ensures OfSym(SortByTime(t), s) == SortByTime(OfSym(t, s))
  {
    if t != [] {
      OfSymSorted(t[1..], s);
      SortMeaning(t[1..]);
      OfSymInsert(t[0], SortByTime(t[1..]), s);
      if t[0].body.sym == s {
        assert OfSym(t, s)[1..] == OfSym(t[1..], s);
      } else {
        assert OfSym(t, s) == OfSym(t[1..], s);
      }
    }
  }

  lemma SortedSyms<T>(t: Table<T>)
    ensures Syms(SortByTime(t)) == Syms(t)
  {
    forall s ensures s in Syms(SortByTime(t)) <==> s in Syms(t) {
      OfSymMembers(t, s);
      OfSymMembers(SortByTime(t), s);
      OfSymSorted(t, s);
      SortLength(OfSym(t, s));
    }
  }

  lemma SymsEmpty<T>(t: Table<T>)
    ensures Syms(t) == {} <==> t == []
  {
    if t != [] {
      assert t[0].body.sym in Syms(t);
    }
  }

  lemma BarMapsEmpty(t: Table<Trade>, q: Table<Quote>)
    ensures BuildBars(t, BAR_SIZE) == map[] <==> t == []
    ensures BuildAllQuoteBars(q, BAR_SIZE) == map[] <==> q == []
  {
    SymsEmpty(t);
    SymsEmpty(q);
    assert BuildBars(t, BAR_SIZE).Keys == Syms(t);
    assert BuildAllQuoteBars(q, BAR_SIZE).Keys == Syms(q);
  }

  /** A savedown clears the memory and writes, for a table with rows, exactly two partitions:
      its time-sorted slices and its bars. A table without rows writes nothing. */
  lemma SavedownWrites(db: Db, day: int)
    ensures var r := Savedown(db, day);
            && r.trade == [] && r.quote == []
            && r.hdb.trade == (if db.trade == [] then db.hdb.trade
                               else db.hdb.trade[day := SlicesOf(SortByTime(db.trade))])
            && r.hdb.bar == (if db.trade == [] then db.hdb.bar
                             else db.hdb.bar[day := BuildBars(db.trade, BAR_SIZE)])
            && r.hdb.quote == (if db.quote == [] then db.hdb.quote
                               else db.hdb.quote[day := SlicesOf(SortByTime(db.quote))])
            && r.hdb.quoteBar == (if db.quote == [] then db.hdb.quoteBar
                                  else db.hdb.quoteBar[day := BuildAllQuoteBars(db.quote, BAR_SIZE)])
  {
    BarMapsEmpty(db.trade, db.quote);
  }

  lemma SlicesOfSorted<T>(t: Table<T>, s: string)
    ensures (if s in SlicesOf(SortByTime(t)) then SlicesOf(SortByTime(t))[s] else []) == SortByTime(OfSym(t, s))
  {
    SortedSyms(t);
    OfSymSorted(t, s);
    OfSymMembers(t, s);
  }

  /** What a savedown with trades in memory writes for one symbol. */
  lemma SavedSlices(db: Db, day: int, s: string)
    requires db.trade != []
    ensures var h := Savedown(db, day).hdb;
            && SliceAt(h.trade, day, s) == SortByTime(OfSym(db.trade, s))
            && SliceAt(h.bar, day, s) == BarsOf(OfSym(db.trade, s), BAR_SIZE)
  {
    SavedownWrites(db, day);
    SlicesOfSorted(db.trade, s);
    OfSymMembers(db.trade, s);
  }

  lemma SavedQuoteSlices(db: Db, day: int, s: string)
    requires db.quote != []
    ensures var h := Savedown(db, day).hdb;
            && SliceAt(h.quote, day, s) == SortByTime(OfSym(db.quote, s))
            && SliceAt(h.quoteBar, day, s) == BuildQuoteBars(OfSym(db.quote, s), BAR_SIZE)
  {
    SavedownWrites(db, day);
    SlicesOfSorted(db.quote, s);
    OfSymMembers(db.quote, s);
  }

  /** After a savedown, a read at any multiple of the base width that goes through the stored
      bars equals the scan of that day's trades, if each minute's first and last inserted
      trades of the symbol were its earliest and latest. */
  lemma FastPathRefinesScan(db: Db, day: int, s: string, m: int)
    requires m > 0 && m * BAR_SIZE > 0 && db.trade != []
    requires NonNegative(Bodies(OfSym(db.trade, s))) && EndsInOrder(OfSym(db.trade, s), BAR_SIZE)
    ensures var h := Savedown(db, day).hdb;
            ReadBars(h, s, day, m * BAR_SIZE) == BarsFromTrades(h, s, day, m * BAR_SIZE)
  {
    SavedSlices(db, day, s);
    EndsInOrderAgrees(OfSym(db.trade, s), BAR_SIZE, m);
  }

  lemma InOrderGroup<T>(t: seq<Stamped<T>>, base: int, k: int)
    requires base > 0 && InOrder(t)
    ensures InOrder(GroupRows(t, base, k))
  {
    hide GroupRows, SortByTime;
    GroupOfSort(t, base, k);
    SortedIsFixed(t);
    SortMeaning(GroupRows(t, base, k));
  }

  lemma InOrderEnds(t: seq<Stamped<Trade>>, base: int)
    requires base > 0 && InOrder(t)
    ensures EndsInOrder(t, base)
  {
    forall k | HasKey(t, base, k)
      ensures StartsEarliest(GroupRows(t, base, k)) && EndsLatest(GroupRows(t, base, k))
    {
      InOrderGroup(t, base, k);
    }
  }

  /** The quote fast path is exact under the matching condition on last rows. */
  lemma QuoteFastPathRefinesScan(db: Db, day: int, s: string, m: int)
    requires m > 0 && m * BAR_SIZE > 0 && db.quote != []
    requires LastsInOrder(OfSym(db.quote, s), BAR_SIZE)
    ensures var h := Savedown(db, day).hdb;
            ReadQuoteBars(h, s, day, m * BAR_SIZE) == QuoteBarsFromQuotes(h, s, day, m * BAR_SIZE)
  {
    SavedQuoteSlices(db, day, s);
    LastsInOrderAgree(OfSym(db.quote, s), BAR_SIZE, m);
  }

  // --- every reachable store ---------------------------------------------------------------

  datatype Op = Insert(rows: Table<Trade>) | InsertQuotes(quotes: Table<Quote>) | SavedownAt(day: int)

  function Apply(db: Db, op: Op): Db {
    match op
    case Insert(rows) => InsertRaw(db, rows)
    case InsertQuotes(quotes) => InsertRawQuote(db, quotes)
    case SavedownAt(day) => Savedown(db, day)
  }

  function Run(ops: seq<Op>): Db {
    if ops == [] then EMPTY else Apply(Run(ops[..|ops| - 1]), ops[|ops| - 1])
  }

  predicate QuantitiesOk(t: Table<Trade>) {
    forall i :: 0 <= i < |t| ==> t[i].body.body.qty >= 0.0
  }

  predicate OpOk(op: Op) {
    op.Insert? ==> QuantitiesOk(op.rows)
  }

  /** The day's slice and its stored bars come from the same rows. */
  ghost predicate SavedFrom(h: Hdb, day: int, s: string, t: seq<Stamped<Trade>>) {
    && NonNegative(Bodies(t))
    && SliceAt(h.trade, day, s) == SortByTime(t)
    && SliceAt(h.bar, day, s) == BarsOf(t, BAR_SIZE)
  }

  ghost predicate Matched(h: Hdb, day: int, s: string) {
    exists t :: SavedFrom(h, day, s, t)
  }

  ghost predicate StoreOk(db: Db) {
    QuantitiesOk(db.trade) && forall day, s :: Matched(db.hdb, day, s)
  }

  lemma {:induction false} SliceNonNegative(t: Table<Trade>, s: string)
    requires QuantitiesOk(t)
    ensures NonNegative(Bodies(OfSym(t, s)))
  {
    OfSymMembers(t, s);
    forall x | x in Bodies(OfSym(t, s)) ensures x.qty >= 0.0 {
      var i :| 0 <= i < |OfSym(t, s)| && OfSym(t, s)[i].body == x;
      assert OfSym(t, s)[i] in OfSym(t, s);
    }
  }

  lemma {:induction false} SavedownFrame(db: Db, day: int, d: int, s: string)
    requires db.trade == [] || d != day
    ensures var h := Savedown(db, day).hdb;
            SliceAt(h.trade, d, s) == SliceAt(db.hdb.trade, d, s) && SliceAt(h.bar, d, s) == SliceAt(db.hdb.bar, d, s)
  {
    SavedownWrites(db, day);
  }

  lemma {:induction false} MatchFrame(was: Hdb, h: Hdb, d: int, s: string)
    requires Matched(was, d, s)
    requires SliceAt(h.trade, d, s) == SliceAt(was.trade, d, s) && SliceAt(h.bar, d, s) == SliceAt(was.bar, d, s)
    ensures Matched(h, d, s)
  {
    var t :| SavedFrom(was, d, s, t);
    assert SavedFrom(h, d, s, t);
  }

  lemma {:induction false} SavedownKeepsMatch(db: Db, day: int, d: int, s: string)
    requires QuantitiesOk(db.trade) && Matched(db.hdb, d, s)
    ensures Matched(Savedown(db, day).hdb, d, s)
  {
    var h := Savedown(db, day).hdb;
    if db.trade != [] && d == day {
      SavedSlices(db, day, s);
      SliceNonNegative(db.trade, s);
      assert SavedFrom(h, d, s, OfSym(db.trade, s));
    } else {
      SavedownFrame(db, day, d, s);
      MatchFrame(db.hdb, h, d, s);
    }
  }

  lemma SavedownKeepsStore(db: Db, day: int)
    requires StoreOk(db)
    ensures StoreOk(Savedown(db, day))
  {
    SavedownWrites(db, day);
    forall d, s ensures Matched(Savedown(db, day).hdb, d, s) {
      assert Matched(db.hdb, d, s);
      SavedownKeepsMatch(db, day, d, s);
    }
  }

  lemma {:induction false} RunKeepsStore(ops: seq<Op>)
    requires forall op :: op in ops ==> OpOk(op)
    ensures StoreOk(Run(ops))
  {
    if ops == [] {
      forall day, s ensures Matched(EMPTY_HDB, day, s) {
        assert SavedFrom(EMPTY_HDB, day, s, []);
      }
    } else {
      var front, op := ops[..|ops| - 1], ops[|ops| - 1];
      RunKeepsStore(front);
      var db := Run(front);
      assert op in ops;
      match op
      case Insert(rows) =>
        assert forall i :: |db.trade| <= i < |db.trade + Stamp(rows)| ==>
          (db.trade + Stamp(rows))[i].body == rows[i - |db.trade|].body;
      case InsertQuotes(quotes) =>
      case SavedownAt(day) => SavedownKeepsStore(db, day);
    }
  }

  /** In every store reachable by inserts and savedowns in any order, for every day, symbol
      and multiple of the base width, the bar read has the buckets and every sum and extreme
      column of the trade scan. */
  lemma EveryReadHasScanFlow(ops: seq<Op>, s: string, day: int, m: int)
    requires m > 0 && m * BAR_SIZE > 0
    requires forall op :: op in ops ==> OpOk(op)
    ensures var h := Run(ops).hdb;
            SameFlow(ReadBars(h, s, day, m * BAR_SIZE), BarsFromTrades(h, s, day, m * BAR_SIZE))
  {
    RunKeepsStore(ops);
    assert Matched(Run(ops).hdb, day, s);
    var t :| SavedFrom(Run(ops).hdb, day, s, t);
    FlowAlwaysAgrees(t, BAR_SIZE, m);
  }

  /** What every bar served says of the stored trades: it starts at a multiple of the width, and its
      counts, volumes, sides, weighted price and extremes are those of the trades within it. */
  lemma ServedBarMeaning(ops: seq<Op>, s: string, day: int, m: int, i: nat)
    requires m > 0 && m * BAR_SIZE > 0
    requires forall op :: op in ops ==> OpOk(op)
    requires i < |ReadBars(Run(ops).hdb, s, day, m * BAR_SIZE)|
    ensures var h, sz := Run(ops).hdb, m * BAR_SIZE;
            var b := ReadBars(h, s, day, sz)[i];
            var ts := During(SliceAt(h.trade, day, s), b.time, sz);
            b.time % sz == 0 && ts != [] && TellsFlow(FlowCols(b.body), ts)
  {
    hide ReadBars, BarsOf, Run, TellsFlow, During, NonNegative;
    var h, sz := Run(ops).hdb, m * BAR_SIZE;
    RunKeepsStore(ops);
    assert Matched(h, day, s);
    var t :| SavedFrom(h, day, s, t);
    SortKeepsNonNegative(t);
    EveryReadHasScanFlow(ops, s, day, m);
    var read, scan := ReadBars(h, s, day, sz), BarsFromTrades(h, s, day, sz);
    assert read[i].time == scan[i].time && FlowCols(read[i].body) == FlowCols(scan[i].body);
    ScannedBarMeaning(SliceAt(h.trade, day, s), sz, i);
  }

  // --- a read that is wrong -----------------------------------------------------------------

  /** Two rows of one minute, the later one first. */
  function LateFirst<T>(sym: string, late: T, early: T): Table<T> {
    [Stamped(30, Tick(sym, late)), Stamped(10, Tick(sym, early))]
  }

  lemma LateFirstSlice<T>(sym: string, late: T, early: T)
    ensures OfSym([] + Stamp(LateFirst(sym, late, early)), sym) == [Stamped(Ms2ts(30), late), Stamped(Ms2ts(10), early)]
    ensures Xbar(BAR_SIZE, Ms2ts(10)) == Xbar(BAR_SIZE, Ms2ts(30))
  {
    var t := [] + Stamp(LateFirst(sym, late, early));
    var a, b := Stamped(Ms2ts(30), Tick(sym, late)), Stamped(Ms2ts(10), Tick(sym, early));
    assert t == [a, b] && t[1..] == [b] && t[1..][1..] == [];
    assert OfSym([b], sym) == [Stamped(b.time, early)] + OfSym([b][1..], sym);
  }

  lemma TwoOps(a: Op, b: Op)
    ensures Run([a, b]) == Apply(Apply(EMPTY, a), b)
  {
    assert [a, b][..1] == [a] && [a][..0] == [];
    assert Run([a]) == Apply(Run([]), a);
  }

  /** Two trades of a minute inserted out of order and saved: the read through the stored bar gives the
      later price as the open and the earlier as the close, the scan of the same partition the reverse. */
  lemma OutOfOrderRead(sym: string, day: int)
    ensures var late, early := Trade(2, 101.0, 1.0, false), Trade(1, 100.0, 1.0, false);
            var h := Run([Insert(LateFirst(sym, late, early)), SavedownAt(day)]).hdb;
            var read, scan := ReadBars(h, sym, day, BAR_SIZE), BarsFromTrades(h, sym, day, BAR_SIZE);
            && |read| == |scan| == 1
            && read[0].body.open == 101.0 && read[0].body.close == 100.0
            && scan[0].body.open == 100.0 && scan[0].body.close == 101.0
  {
    hide Savedown, OfSym, BarsOf, Rebucket;
    var late, early := Trade(2, 101.0, 1.0, false), Trade(1, 100.0, 1.0, false);
    var rows := LateFirst(sym, late, early);
    TwoOps(Insert(rows), SavedownAt(day));
    LateFirstSlice(sym, late, early);
    TwoTradesOutOfOrder(Stamped(Ms2ts(30), late), Stamped(Ms2ts(10), early), BAR_SIZE);
    SavedSlices(InsertRaw(EMPTY, rows), day, sym);
  }

  /** And for two quotes the stored bar serves the earlier book, the scan the later one. */
  lemma OutOfOrderQuoteRead(sym: string, day: int)
    ensures var late, early := Quote(2, 11.0, 1.0, 12.0, 1.0), Quote(1, 10.0, 1.0, 11.0, 1.0);
            var h := Run([InsertQuotes(LateFirst(sym, late, early)), SavedownAt(day)]).hdb;
            var read, scan := ReadQuoteBars(h, sym, day, BAR_SIZE), QuoteBarsFromQuotes(h, sym, day, BAR_SIZE);
            && |read| == |scan| == 1 && read[0].body.book.bid == 10.0 && scan[0].body.book.bid == 11.0
  {
    hide Savedown, OfSym, QuoteBarsOf, RebucketQuoteBars, BuildQuoteBars;
    var late, early := Quote(2, 11.0, 1.0, 12.0, 1.0), Quote(1, 10.0, 1.0, 11.0, 1.0);
    var rows := LateFirst(sym, late, early);
    TwoOps(InsertQuotes(rows), SavedownAt(day));
    LateFirstSlice(sym, late, early);
    TwoQuotesOutOfOrder(Stamped(Ms2ts(30), late), Stamped(Ms2ts(10), early), BAR_SIZE);
    SavedQuoteSlices(InsertRawQuote(EMPTY, rows), day, sym);
  }

  // --- the process --------------------------------------------------------------------------

  class Process {
    var trade: Table<Trade>
    var quote: Table<Quote>
    var hdb: Hdb

    ghost function Model(): Db
      reads this
    {
      Db(trade, quote, hdb)
    }

    constructor ()
      ensures Model() == EMPTY
    {
      trade, quote, hdb := [], [], EMPTY_HDB;
    }

    method InsertTrades(rows: Table<Trade>) returns (n: nat)
      modifies this
      ensures Model() == InsertRaw(old(Model()), rows) && n == |rows|
    {
      trade := trade + Stamp(rows);
      n := |rows|;
    }

    method InsertQuotes(rows: Table<Quote>) returns (n: nat)
      modifies this
      ensures Model() == InsertRawQuote(old(Model()), rows) && n == |rows|
    {
      quote := quote + Stamp(rows);
      n := |rows|;
    }

    /** Persist both tables and their bars as `day`, and clear the memory. */
    method SavedownDay(day: int)
      modifies this
      ensures Model() == Savedown(old(Model()), day)
      ensures trade == [] && quote == []
    {
      BarMapsEmpty(trade, quote);
      var b := BuildBars(trade, BAR_SIZE);
      var qb := BuildAllQuoteBars(quote, BAR_SIZE);
      if trade != [] {
        hdb := hdb.(trade := hdb.trade[day := SlicesOf(SortByTime(trade))]);
        trade := [];
      }
      if quote != [] {
        hdb := hdb.(quote := hdb.quote[day := SlicesOf(SortByTime(quote))]);
        quote := [];
      }
      if b != map[] {
        hdb := hdb.(bar := hdb.bar[day := b]);
      }
      if qb != map[] {
        hdb := hdb.(quoteBar := hdb.quoteBar[day := qb]);
      }
    }
  }
}
