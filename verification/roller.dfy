/** Day rollover of the live tables: every feed may close the day before it, every flush closes the
    current one, and each row inserted ends in memory or in exactly one partition. The last sections
    show when a savedown overwrites, and that no row is filed under a day before its own. */
module Roller {
  import opened Ascents
  import opened Buckets
  import opened Bars
  import opened QuoteBars
  import opened Kdb
  import opened Options

  const MS_PER_DAY := 86_400_000

  /** `_utc_date`: days since 1970. */
  function UtcDate(ms: int): int {
    ms / MS_PER_DAY
  }

  /** `saved` is a history variable: the days saved so far, in order. */
  datatype State = State(db: Db, day: Option<int>, saved: seq<int>)

  function LastDay<T>(rows: Table<T>): int
    requires rows != []
  {
    UtcDate(rows[|rows| - 1].time)
  }

  function Roll(st: State, day: int): State {
    match st.day
    case None => st.(day := Some(day))
    case Some(current) =>
      if day > current then State(Savedown(st.db, current), Some(day), st.saved + [current]) else st
  }

  function Feed(st: State, rows: Table<Trade>): State
    requires rows != []
  {
    var r := Roll(st, LastDay(rows));
    r.(db := InsertRaw(r.db, rows))
  }

  function FeedQuote(st: State, rows: Table<Quote>): State
    requires rows != []
  {
    var r := Roll(st, LastDay(rows));
    r.(db := InsertRawQuote(r.db, rows))
  }

  function Flush(st: State): State {
    match st.day
    case None => st
    case Some(current) => State(Savedown(st.db, current), None, st.saved + [current])
  }

  // --- runs ------------------------------------------------------------------------------

  /** `Bridged` rows go straight into memory, past the roller. */
  datatype Event = Fed(rows: Table<Trade>) | FedQuotes(quotes: Table<Quote>) | Bridged(rows: Table<Trade>)

  predicate EventOk(e: Event) {
    match e
    case Fed(rows) => rows != []
    case FedQuotes(quotes) => quotes != []
    case Bridged(_) => true
  }

  function Apply(st: State, e: Event): State
    requires EventOk(e)
  {
    match e
    case Fed(rows) => Feed(st, rows)
    case FedQuotes(quotes) => FeedQuote(st, quotes)
    case Bridged(rows) => st.(db := InsertRaw(st.db, rows))
  }

  predicate AllOk(es: seq<Event>) {
    forall i :: 0 <= i < |es| ==> EventOk(es[i])
  }

  function Run(hdb: Hdb, es: seq<Event>): State
    requires AllOk(es)
  {
    if es == [] then State(Db([], [], hdb), None, [])
    else Apply(Run(hdb, es[..|es| - 1]), es[|es| - 1])
  }

  /** Every trade row inserted, in order, as stored. */
  function TradesIn(es: seq<Event>): Table<Trade> {
    if es == [] then []
    else TradesIn(es[..|es| - 1])
         + if es[|es| - 1].FedQuotes? then [] else Stamp(es[|es| - 1].rows)
  }

  function QuotesIn(es: seq<Event>): Table<Quote> {
    if es == [] then []
    else QuotesIn(es[..|es| - 1])
         + if es[|es| - 1].FedQuotes? then Stamp(es[|es| - 1].quotes) else []
  }

  lemma {:induction false} TradesInMore(es: seq<Event>, e: Event, s: string)
    ensures OfSym(TradesIn(es + [e]), s)
            == OfSym(TradesIn(es), s) + if e.FedQuotes? then [] else OfSym(Stamp(e.rows), s)
  {
    assert (es + [e])[..|es|] == es;
    if e.FedQuotes? {
      assert TradesIn(es) + [] == TradesIn(es);
    } else {
      OfSymConcat(TradesIn(es), Stamp(e.rows), s);
    }
  }

  lemma {:induction false} QuotesInMore(es: seq<Event>, e: Event, s: string)
    ensures OfSym(QuotesIn(es + [e]), s)
            == OfSym(QuotesIn(es), s) + if e.FedQuotes? then OfSym(Stamp(e.quotes), s) else []
  {
    assert (es + [e])[..|es|] == es;
    if e.FedQuotes? {
      OfSymConcat(QuotesIn(es), Stamp(e.quotes), s);
    } else {
      assert QuotesIn(es) + [] == QuotesIn(es);
    }
  }

  // --- conservation ------------------------------------------------------------------------

  /** The symbol's rows in the partitions of the given days, with multiplicity. */
  ghost function SavedRows<T>(parts: map<int, Slices<T>>, days: seq<int>, s: string): multiset<Stamped<T>> {
    if days == [] then multiset{}
    else SavedRows(parts, days[..|days| - 1], s) + multiset(SliceAt(parts, days[|days| - 1], s))
  }

  /** Each row of `all` is in memory or in exactly one of the saved days' partitions. */
  ghost predicate Conserved<T>(all: Table<T>, rdb: Table<T>, parts: map<int, Slices<T>>, days: seq<int>, s: string) {
    multiset(OfSym(all, s)) == multiset(OfSym(rdb, s)) + SavedRows(parts, days, s)
  }

  function SaveInto<T>(rdb: Table<T>, parts: map<int, Slices<T>>, day: int): map<int, Slices<T>> {
    if rdb == [] then parts else parts[day := SlicesOf(SortByTime(rdb))]
  }

  lemma {:induction false} SavedRowsFrame<T>(parts: map<int, Slices<T>>, now: map<int, Slices<T>>, days: seq<int>,
                                             s: string)
    requires forall d :: d in days ==> SliceAt(parts, d, s) == SliceAt(now, d, s)
    ensures SavedRows(parts, days, s) == SavedRows(now, days, s)
  {
    if days != [] {
      assert days[|days| - 1] in days;
      SavedRowsFrame(parts, now, days[..|days| - 1], s);
    }
  }

  /** The partition written holds the memory's rows of the symbol, by time. */
  lemma SaveIntoSlice<T>(rdb: Table<T>, parts: map<int, Slices<T>>, day: int, s: string)
    requires rdb == [] ==> day !in parts
    ensures SliceAt(SaveInto(rdb, parts, day), day, s) == SortByTime(OfSym(rdb, s))
  {
    SlicesOfSorted(rdb, s);
  }

  /** Saving memory into a day without a partition moves every row and loses none. */
  lemma {:induction false} SaveConserves<T>(all: Table<T>, rdb: Table<T>, parts: map<int, Slices<T>>,
                                            days: seq<int>, day: int, s: string)
    requires Conserved(all, rdb, parts, days, s) && day !in parts && day !in days
    ensures Conserved(all, [], SaveInto(rdb, parts, day), days + [day], s)
  {
    var now := SaveInto(rdb, parts, day);
    SavedRowsFrame(parts, now, days, s);
    assert (days + [day])[..|days|] == days;
    SaveIntoSlice(rdb, parts, day, s);
    hide SaveInto, SortByTime;
    SortMeaning(OfSym(rdb, s));
  }

  lemma {:induction false} InsertConserves<T>(all: Table<T>, rdb: Table<T>, parts: map<int, Slices<T>>,
                                              days: seq<int>, rows: Table<T>, s: string)
    requires Conserved(all, rdb, parts, days, s)
    ensures Conserved(all + rows, rdb + rows, parts, days, s)
  {
    OfSymConcat(all, rows, s);
    OfSymConcat(rdb, rows, s);
  }

  /** No partition existed at the start for any day the run uses. */
  predicate Clear(hdb: Hdb, st: State) {
    && (forall d :: d in st.saved ==> d !in hdb.trade && d !in hdb.quote)
    && (st.day.Some? ==> st.day.value !in hdb.trade && st.day.value !in hdb.quote)
  }

  /** Days advance, and partitions are the ones at the start plus saved days. */
  ghost predicate DaysOk(hdb: Hdb, st: State) {
    && Ascending(st.saved)
    && (st.day.None? ==> st.saved == [])
    && (st.day.Some? ==> forall d :: d in st.saved ==> d < st.day.value)
    && (forall d :: d in st.db.hdb.trade ==> d in hdb.trade || d in st.saved)
    && (forall d :: d in st.db.hdb.quote ==> d in hdb.quote || d in st.saved)
    && (forall d :: d in hdb.trade && d !in st.saved ==> d in st.db.hdb.trade && st.db.hdb.trade[d] == hdb.trade[d])
    && (forall d :: d in hdb.quote && d !in st.saved ==> d in st.db.hdb.quote && st.db.hdb.quote[d] == hdb.quote[d])
  }

  ghost predicate RowsOk(st: State, trades: Table<Trade>, quotes: Table<Quote>, s: string) {
    && Conserved(trades, st.db.trade, st.db.hdb.trade, st.saved, s)
    && Conserved(quotes, st.db.quote, st.db.hdb.quote, st.saved, s)
  }

  lemma {:induction false} SavedownKeepsDays(hdb: Hdb, st: State, next: int)
    requires DaysOk(hdb, st) && st.day.Some? && next > st.day.value
    ensures DaysOk(hdb, State(Savedown(st.db, st.day.value), Some(next), st.saved + [st.day.value]))
  {
    SavedownWrites(st.db, st.day.value);
    assert forall i :: 0 <= i < |st.saved| ==> st.saved[i] in st.saved;
  }

  lemma {:induction false} SavedownKeepsRows(hdb: Hdb, st: State, trades: Table<Trade>, quotes: Table<Quote>, s: string)
    requires DaysOk(hdb, st) && st.day.Some? && Clear(hdb, st) && RowsOk(st, trades, quotes, s)
    ensures var db := Savedown(st.db, st.day.value);
            && Conserved(trades, [], db.hdb.trade, st.saved + [st.day.value], s)
            && Conserved(quotes, [], db.hdb.quote, st.saved + [st.day.value], s)
            && db.trade == [] && db.quote == []
  {
    var day := st.day.value;
    SavedownWrites(st.db, day);
    SaveConserves(trades, st.db.trade, st.db.hdb.trade, st.saved, day, s);
    SaveConserves(quotes, st.db.quote, st.db.hdb.quote, st.saved, day, s);
  }

  lemma {:induction false} RollKeeps(hdb: Hdb, st: State, day: int, trades: Table<Trade>, quotes: Table<Quote>,
                                     s: string)
    requires DaysOk(hdb, st) && RowsOk(st, trades, quotes, s) && Clear(hdb, Roll(st, day))
    ensures DaysOk(hdb, Roll(st, day)) && RowsOk(Roll(st, day), trades, quotes, s) && Clear(hdb, st)
  {
    if st.day.Some? && day > st.day.value {
      var r := Roll(st, day);
      assert r.saved == st.saved + [st.day.value];
      assert st.day.value in r.saved && forall d :: d in st.saved ==> d in r.saved;
      SavedownKeepsDays(hdb, st, day);
      SavedownKeepsRows(hdb, st, trades, quotes, s);
    }
  }

  lemma {:induction false} FedKeeps(hdb: Hdb, st: State, rows: Table<Trade>, trades: Table<Trade>, quotes: Table<Quote>,
                                    s: string)
    requires rows != [] && DaysOk(hdb, st) && RowsOk(st, trades, quotes, s) && Clear(hdb, Feed(st, rows))
    ensures DaysOk(hdb, Feed(st, rows)) && RowsOk(Feed(st, rows), trades + Stamp(rows), quotes, s)
  {
    RollKeeps(hdb, st, LastDay(rows), trades, quotes, s);
    var r := Roll(st, LastDay(rows));
    InsertConserves(trades, r.db.trade, r.db.hdb.trade, r.saved, Stamp(rows), s);
  }

  lemma {:induction false} FedQuotesKeeps(hdb: Hdb, st: State, rows: Table<Quote>, trades: Table<Trade>,
                                          quotes: Table<Quote>, s: string)
    requires rows != [] && DaysOk(hdb, st) && RowsOk(st, trades, quotes, s) && Clear(hdb, FeedQuote(st, rows))
    ensures DaysOk(hdb, FeedQuote(st, rows)) && RowsOk(FeedQuote(st, rows), trades, quotes + Stamp(rows), s)
  {
    RollKeeps(hdb, st, LastDay(rows), trades, quotes, s);
    var r := Roll(st, LastDay(rows));
    InsertConserves(quotes, r.db.quote, r.db.hdb.quote, r.saved, Stamp(rows), s);
  }

  lemma {:induction false} BridgedKeeps(hdb: Hdb, st: State, rows: Table<Trade>, trades: Table<Trade>,
                                        quotes: Table<Quote>, s: string)
    requires DaysOk(hdb, st) && RowsOk(st, trades, quotes, s)
    ensures var r := st.(db := InsertRaw(st.db, rows));
            DaysOk(hdb, r) && RowsOk(r, trades + Stamp(rows), quotes, s)
  {
    InsertConserves(trades, st.db.trade, st.db.hdb.trade, st.saved, Stamp(rows), s);
  }

  lemma InputsOfLast(es: seq<Event>)
    requires es != []
    ensures var front, e := es[..|es| - 1], es[|es| - 1];
            && TradesIn(es) == (if e.FedQuotes? then TradesIn(front) else TradesIn(front) + Stamp(e.rows))
            && QuotesIn(es) == (if e.FedQuotes? then QuotesIn(front) + Stamp(e.quotes) else QuotesIn(front))
  {
  }

  lemma ClearBackwards(hdb: Hdb, st: State, e: Event)
    requires EventOk(e) && Clear(hdb, Apply(st, e))
    ensures Clear(hdb, st)
  {
    var r := Apply(st, e);
    assert forall d :: d in st.saved ==> d in r.saved;
    assert st.day.Some? ==> st.day == r.day || st.day.value in r.saved by {
      if st.day.Some? && st.day != r.day {
        assert r.saved == st.saved + [st.day.value];
      }
    }
  }

  lemma {:induction false} RunKeeps(hdb: Hdb, es: seq<Event>, s: string)
    requires AllOk(es) && Clear(hdb, Run(hdb, es))
    ensures DaysOk(hdb, Run(hdb, es))
    ensures RowsOk(Run(hdb, es), TradesIn(es), QuotesIn(es), s)
  {
    if es != [] {
      var front, e := es[..|es| - 1], es[|es| - 1];
      var st := Run(hdb, front);
      ClearBackwards(hdb, st, e);
      RunKeeps(hdb, front, s);
      InputsOfLast(es);
      match e
      case Fed(rows) => FedKeeps(hdb, st, rows, TradesIn(front), QuotesIn(front), s);
      case FedQuotes(quotes) => FedQuotesKeeps(hdb, st, quotes, TradesIn(front), QuotesIn(front), s);
      case Bridged(rows) => BridgedKeeps(hdb, st, rows, TradesIn(front), QuotesIn(front), s);
    }
  }

  /** Over every run from an empty memory, when no partition exists yet for the days of the
      run: the saved days strictly increase, so none is overwritten; partitions of other days
      stay as they were; and every trade and quote inserted, fed or bridged, is in memory or
      in exactly one saved day's partition. */
  lemma {:induction false} RolloverConserves(hdb: Hdb, es: seq<Event>, s: string)
    requires AllOk(es) && Clear(hdb, Run(hdb, es))
    ensures var st := Run(hdb, es);
            && Ascending(st.saved)
            && (forall d :: d in hdb.trade ==> d in st.db.hdb.trade && st.db.hdb.trade[d] == hdb.trade[d])
            && (forall d :: d in hdb.quote ==> d in st.db.hdb.quote && st.db.hdb.quote[d] == hdb.quote[d])
            && multiset(OfSym(TradesIn(es), s))
               == multiset(OfSym(st.db.trade, s)) + SavedRows(st.db.hdb.trade, st.saved, s)
            && multiset(OfSym(QuotesIn(es), s))
               == multiset(OfSym(st.db.quote, s)) + SavedRows(st.db.hdb.quote, st.saved, s)
  {
    RunKeeps(hdb, es, s);
  }

  /** The shutdown flush of a run that has fed something leaves nothing in memory: every row is
      in exactly one saved day's partition, the last saved day included. */
  lemma {:induction false} FlushConserves(hdb: Hdb, es: seq<Event>, s: string)
    requires AllOk(es) && Clear(hdb, Run(hdb, es)) && Run(hdb, es).day.Some?
    ensures var st := Flush(Run(hdb, es));
            && Ascending(st.saved) && st.db.trade == [] && st.db.quote == []
            && multiset(OfSym(TradesIn(es), s)) == SavedRows(st.db.hdb.trade, st.saved, s)
            && multiset(OfSym(QuotesIn(es), s)) == SavedRows(st.db.hdb.quote, st.saved, s)
            && Flush(st) == st
  {
    RunKeeps(hdb, es, s);
    var st := Run(hdb, es);
    SavedownKeepsRows(hdb, st, TradesIn(es), QuotesIn(es), s);
    SavedownKeepsDays(hdb, st, st.day.value + 1);
  }

  ghost predicate RowKept<T>(parts: map<int, Slices<T>>, now: map<int, Slices<T>>, s: string) {
    forall d :: multiset(SliceAt(parts, d, s)) <= multiset(SliceAt(now, d, s))
  }

  lemma NoCopies<T>(a: seq<T>, b: seq<T>)
    ensures multiset(a) !! multiset(b) ==> (multiset(a) <= multiset(b) <==> a == [])
  {
    if a != [] {
      assert a[0] in multiset(a);
    }
  }

  lemma SlicesAfter(db: Db, day: int, s: string)
    ensures var now := Savedown(db, day).hdb.trade;
            && (forall d :: d != day ==> SliceAt(now, d, s) == SliceAt(db.hdb.trade, d, s))
            && multiset(SliceAt(now, day, s))
               == if db.trade == [] then multiset(SliceAt(db.hdb.trade, day, s)) else multiset(OfSym(db.trade, s))
  {
    hide Savedown, SortByTime, OfSym, SlicesOf, BuildBars;
    SavedownWrites(db, day);
    if db.trade != [] {
      SavedSlices(db, day, s);
      SortMeaning(OfSym(db.trade, s));
    }
  }

  lemma SliceReplaced<T>(parts: map<int, Slices<T>>, now: map<int, Slices<T>>, day: int, s: string)
    requires forall d :: d != day ==> SliceAt(now, d, s) == SliceAt(parts, d, s)
    ensures RowKept(parts, now, s) <==> multiset(SliceAt(parts, day, s)) <= multiset(SliceAt(now, day, s))
  {
  }

  /** A savedown replaces its partition. It keeps a symbol's stored rows if and only if memory is
      empty, or holds a copy of every row of the symbol in the partition being written. When memory
      holds no such copy, that is when the partition had no row of the symbol. */
  lemma SavedownKeepsStoredIff(db: Db, day: int, s: string)
    ensures var was, live := multiset(SliceAt(db.hdb.trade, day, s)), multiset(OfSym(db.trade, s));
            var kept := RowKept(db.hdb.trade, Savedown(db, day).hdb.trade, s);
            && (kept <==> db.trade == [] || was <= live)
            && (was !! live ==> (kept <==> db.trade == [] || SliceAt(db.hdb.trade, day, s) == []))
  {
    NoCopies(SliceAt(db.hdb.trade, day, s), OfSym(db.trade, s));
    SlicesAfter(db, day, s);
    SliceReplaced(db.hdb.trade, Savedown(db, day).hdb.trade, day, s);
  }

  // --- rows never land before their own day -----------------------------------------------------

  /** The UTC day of a kdb timestamp. */
  function DayOf(ns: int): int {
    (ns - UNIX_EPOCH) / (NS_PER_MS * MS_PER_DAY)
  }

  lemma DayOfStamp(ms: int)
    ensures DayOf(Ms2ts(ms)) == UtcDate(ms)
  {
    var q, r := ms / MS_PER_DAY, ms % MS_PER_DAY;
    assert NS_PER_MS * ms == q * (NS_PER_MS * MS_PER_DAY) + NS_PER_MS * r;
    QuotientUnique(NS_PER_MS * MS_PER_DAY, q, NS_PER_MS * r);
  }

  /** A minute starts on the day it belongs to. */
  lemma MinuteInDay(ms: int)
    ensures UtcDate(ms / 60_000 * 60_000) == UtcDate(ms)
  {
    var day, rest := ms / 86_400_000, ms % 86_400_000;
    assert ms / 60_000 == day * 1_440 + rest / 60_000;
    assert ms / 60_000 * 60_000 == day * 86_400_000 + rest / 60_000 * 60_000;
  }

  /** Days are counted from 1970 and change at UTC midnight, where a new stored bar begins too. */
  lemma DayMeaning(ms: int, day: int)
    ensures UtcDate(ms) == day <==> 86_400_000 * day <= ms < 86_400_000 * (day + 1)
    ensures DayOf(Xbar(BAR_SIZE, Ms2ts(ms))) == UtcDate(ms)
  {
    hide Ms2ts, Xbar, DayOf;
    StampMeaning(ms);
    DayOfStamp(ms / 60_000 * 60_000);
    MinuteInDay(ms);
  }

  /** A chunk fed with nondecreasing times; bridged rows are not fed. */
  predicate Ordered(e: Event) {
    match e
    case Fed(rows) => InOrder(rows)
    case FedQuotes(quotes) => InOrder(quotes)
    case Bridged(_) => false
  }

  /** The trades that came in bridged or in an unordered chunk. */
  function LooseTrades(es: seq<Event>, s: string): seq<Stamped<Trade>> {
    if es == [] then []
    else
      var e := es[|es| - 1];
      LooseTrades(es[..|es| - 1], s) + if e.FedQuotes? || Ordered(e) then [] else OfSym(Stamp(e.rows), s)
  }

  function LooseQuotes(es: seq<Event>, s: string): seq<Stamped<Quote>> {
    if es == [] then []
    else
      var e := es[|es| - 1];
      LooseQuotes(es[..|es| - 1], s) + if !e.FedQuotes? || Ordered(e) then [] else OfSym(Stamp(e.quotes), s)
  }

  /** Each row is no later than the day, or is one of the loose ones. */
  ghost predicate Timely<T>(rows: seq<Stamped<T>>, day: Option<int>, loose: seq<Stamped<T>>) {
    forall r :: r in rows ==> r in loose || (day.Some? && DayOf(r.time) <= day.value)
  }

  lemma TimelyLater<T>(rows: seq<Stamped<T>>, day: Option<int>, loose: seq<Stamped<T>>, later: Option<int>,
                       more: seq<Stamped<T>>)
    requires Timely(rows, day, loose)
    requires day.Some? ==> later.Some? && day.value <= later.value
    ensures Timely(rows, later, loose + more)
  {
  }

  lemma TimelyConcat<T>(a: seq<Stamped<T>>, b: seq<Stamped<T>>, day: Option<int>, loose: seq<Stamped<T>>)
    requires Timely(a, day, loose) && Timely(b, day, loose)
    ensures Timely(a + b, day, loose)
  {
  }

  /** An ordered chunk is no later than its last row's day. */
  lemma OrderedIsTimely<T>(rows: Table<T>, day: int, s: string)
    requires rows != [] && InOrder(rows) && LastDay(rows) <= day
    ensures Timely(OfSym(Stamp(rows), s), Some(day), [])
  {
    OfSymMembers(Stamp(rows), s);
    forall r | r in OfSym(Stamp(rows), s) ensures DayOf(r.time) <= day {
      var i :| 0 <= i < |Stamp(rows)| && Stamp(rows)[i].time == r.time && Stamp(rows)[i].body == Tick(s, r.body);
      DayOfStamp(rows[i].time);
      XbarMonotone(MS_PER_DAY, rows[i].time, rows[|rows| - 1].time);
    }
  }

  /** What a chunk brings is timely, the chunk itself counting as loose unless it is ordered. */
  lemma ChunkIsTimely<T>(rows: Table<T>, day: int, s: string, ordered: bool, loose: seq<Stamped<T>>)
    requires ordered ==> rows != [] && InOrder(rows) && LastDay(rows) <= day
    ensures Timely(OfSym(Stamp(rows), s), Some(day), loose + if ordered then [] else OfSym(Stamp(rows), s))
  {
    if ordered {
      OrderedIsTimely(rows, day, s);
    }
  }

  lemma SavedIsTimely<T>(rdb: Table<T>, parts: map<int, Slices<T>>, day: int, s: string, loose: seq<Stamped<T>>)
    requires Timely(OfSym(rdb, s), Some(day), loose) && (rdb == [] ==> day !in parts)
    ensures Timely(SliceAt(SaveInto(rdb, parts, day), day, s), Some(day), loose)
  {
    SaveIntoSlice(rdb, parts, day, s);
    hide SaveInto, SliceAt;
    var t := SliceAt(SaveInto(rdb, parts, day), day, s);
    forall r | r in t ensures r in loose || DayOf(r.time) <= day {
      SortMembers(OfSym(rdb, s), r);
    }
  }

  /** No row but a loose one lies in memory or in a saved partition of a day before its own. */
  ghost predicate TableTimely<T>(rdb: Table<T>, parts: map<int, Slices<T>>, day: Option<int>, saved: seq<int>,
                                 s: string,
                                 loose: seq<Stamped<T>>)
  {
    && Timely(OfSym(rdb, s), day, loose)
    && forall d :: d in saved ==> Timely(SliceAt(parts, d, s), Some(d), loose)
  }

  ghost predicate NotEarly(st: State, es: seq<Event>, s: string) {
    && TableTimely(st.db.trade, st.db.hdb.trade, st.day, st.saved, s, LooseTrades(es, s))
    && TableTimely(st.db.quote, st.db.hdb.quote, st.day, st.saved, s, LooseQuotes(es, s))
  }

  lemma TableSaved<T>(rdb: Table<T>, parts: map<int, Slices<T>>, current: int, saved: seq<int>, s: string,
                      loose: seq<Stamped<T>>, next: int)
    requires TableTimely(rdb, parts, Some(current), saved, s, loose)
    requires current !in saved && current !in parts
    ensures TableTimely([], SaveInto(rdb, parts, current), Some(next), saved + [current], s, loose)
  {
    SavedIsTimely(rdb, parts, current, s, loose);
    var now := SaveInto(rdb, parts, current);
    forall d | d in saved + [current] ensures Timely(SliceAt(now, d, s), Some(d), loose) {
      if d != current {
        assert d in saved && SliceAt(now, d, s) == SliceAt(parts, d, s);
      }
    }
  }

  lemma TableInserted<T>(rdb: Table<T>, parts: map<int, Slices<T>>, day: Option<int>, saved: seq<int>, s: string,
                         loose: seq<Stamped<T>>, rows: Table<T>, more: seq<Stamped<T>>)
    requires TableTimely(rdb, parts, day, saved, s, loose) && Timely(OfSym(rows, s), day, loose + more)
    ensures TableTimely(rdb + rows, parts, day, saved, s, loose + more)
  {
    OfSymConcat(rdb, rows, s);
    TimelyLater(OfSym(rdb, s), day, loose, day, more);
    TimelyConcat(OfSym(rdb, s), OfSym(rows, s), day, loose + more);
    forall d | d in saved ensures Timely(SliceAt(parts, d, s), Some(d), loose + more) {
      TimelyLater(SliceAt(parts, d, s), Some(d), loose, Some(d), more);
    }
  }

  /** Rolling to the day of the next chunk keeps every row timely. */
  lemma RollKeepsTimely<T>(st: State, day: int, s: string, rdb: Table<T>, parts: map<int, Slices<T>>,
                           loose: seq<Stamped<T>>)
    requires TableTimely(rdb, parts, st.day, st.saved, s, loose)
    requires st.day.Some? && day > st.day.value ==> st.day.value !in st.saved && st.day.value !in parts
    ensures var r := Roll(st, day);
            var saved := st.day.Some? && day > st.day.value;
            && r.day.Some? && r.day.value >= day
            && TableTimely(if saved then [] else rdb, if saved then SaveInto(rdb, parts, st.day.value) else parts,
                           r.day, r.saved, s, loose)
  {
    if st.day.Some? && day > st.day.value {
      TableSaved(rdb, parts, st.day.value, st.saved, s, loose, day);
    } else {
      TimelyLater(OfSym(rdb, s), st.day, loose, Roll(st, day).day, []);
      assert loose + [] == loose;
    }
  }

  lemma RollTables(st: State, day: int)
    ensures var r := Roll(st, day);
            var saved := st.day.Some? && day > st.day.value;
            && r.db.trade == (if saved then [] else st.db.trade)
            && r.db.quote == (if saved then [] else st.db.quote)
            && r.db.hdb.trade
               == (if saved then SaveInto(st.db.trade, st.db.hdb.trade, st.day.value) else st.db.hdb.trade)
            && r.db.hdb.quote
               == (if saved then SaveInto(st.db.quote, st.db.hdb.quote, st.day.value) else st.db.hdb.quote)
  {
    if st.day.Some? {
      SavedownWrites(st.db, st.day.value);
    }
  }

  lemma RollNotEarly(hdb: Hdb, st: State, es: seq<Event>, day: int, s: string)
    requires DaysOk(hdb, st) && NotEarly(st, es, s) && Clear(hdb, st)
    ensures NotEarly(Roll(st, day), es, s) && Roll(st, day).day.Some? && Roll(st, day).day.value >= day
  {
    hide TableTimely, Roll;
    RollTables(st, day);
    RollKeepsTimely(st, day, s, st.db.trade, st.db.hdb.trade, LooseTrades(es, s));
    RollKeepsTimely(st, day, s, st.db.quote, st.db.hdb.quote, LooseQuotes(es, s));
  }

  lemma LooseMore(es: seq<Event>, e: Event, s: string)
    ensures LooseTrades(es + [e], s)
            == LooseTrades(es, s) + if e.FedQuotes? || Ordered(e) then [] else OfSym(Stamp(e.rows), s)
    ensures LooseQuotes(es + [e], s)
            == LooseQuotes(es, s) + if !e.FedQuotes? || Ordered(e) then [] else OfSym(Stamp(e.quotes), s)
  {
    assert (es + [e])[..|es|] == es;
  }

  lemma FedTimely<T>(rdb: Table<T>, parts: map<int, Slices<T>>, day: int, saved: seq<int>, s: string,
                     loose: seq<Stamped<T>>, rows: Table<T>)
    requires TableTimely(rdb, parts, Some(day), saved, s, loose) && rows != [] && LastDay(rows) <= day
    ensures TableTimely(rdb + Stamp(rows), parts, Some(day), saved, s,
                        loose + if InOrder(rows) then [] else OfSym(Stamp(rows), s))
  {
    ChunkIsTimely(rows, day, s, InOrder(rows), loose);
    TableInserted(rdb, parts, Some(day), saved, s, loose, Stamp(rows),
                  if InOrder(rows) then [] else OfSym(Stamp(rows), s));
  }

  lemma BridgedTimely<T>(rdb: Table<T>, parts: map<int, Slices<T>>, day: Option<int>, saved: seq<int>, s: string,
                         loose: seq<Stamped<T>>, rows: Table<T>)
    requires TableTimely(rdb, parts, day, saved, s, loose)
    ensures TableTimely(rdb + Stamp(rows), parts, day, saved, s, loose + OfSym(Stamp(rows), s))
  {
    TableInserted(rdb, parts, day, saved, s, loose, Stamp(rows), OfSym(Stamp(rows), s));
  }

  lemma ApplyNotEarly(hdb: Hdb, st: State, es: seq<Event>, e: Event, s: string)
    requires EventOk(e) && DaysOk(hdb, st) && Clear(hdb, st) && NotEarly(st, es, s)
    ensures NotEarly(Apply(st, e), es + [e], s)
  {
    hide TableTimely, Timely, Roll, LooseTrades, LooseQuotes;
    LooseMore(es, e, s);
    var lt, lq := LooseTrades(es, s), LooseQuotes(es, s);
    match e
    case Fed(rows) =>
      RollNotEarly(hdb, st, es, LastDay(rows), s);
      var r := Roll(st, LastDay(rows));
      FedTimely(r.db.trade, r.db.hdb.trade, r.day.value, r.saved, s, lt, rows);
      assert lq + [] == lq;
    case FedQuotes(quotes) =>
      RollNotEarly(hdb, st, es, LastDay(quotes), s);
      var r := Roll(st, LastDay(quotes));
      FedTimely(r.db.quote, r.db.hdb.quote, r.day.value, r.saved, s, lq, quotes);
      assert lt + [] == lt;
    case Bridged(rows) =>
      BridgedTimely(st.db.trade, st.db.hdb.trade, st.day, st.saved, s, lt, rows);
      assert lq + [] == lq;
  }

  lemma NothingIsEarly(hdb: Hdb, s: string)
    ensures NotEarly(Run(hdb, []), [], s)
  {
  }

  /** Over every run, whatever it bridges and in whatever order chunks come: a row in memory is no
      later than the current day, and a row in a saved partition no later than that day, unless it
      came in bridged or in an unordered chunk. So a row fed in an ordered chunk is never filed
      under a day before its own. */
  lemma {:induction false} RowsNeverLandEarly(hdb: Hdb, es: seq<Event>, s: string)
    requires AllOk(es) && Clear(hdb, Run(hdb, es))
    ensures NotEarly(Run(hdb, es), es, s)
  {
    hide NotEarly, DaysOk, RowsOk, Apply, Clear;
    if es == [] {
      NothingIsEarly(hdb, s);
    } else {
      var front, e := es[..|es| - 1], es[|es| - 1];
      var st := Run(hdb, front);
      ClearBackwards(hdb, st, e);
      RowsNeverLandEarly(hdb, front, s);
      RunKeeps(hdb, front, s);
      assert es == front + [e];
      ApplyNotEarly(hdb, st, front, e, s);
    }
  }

  // --- the object ---------------------------------------------------------------------------------

  class RdbRoller {
    const writer: Process
    var currentDay: Option<int>
    ghost var saved: seq<int>

    ghost function Model(): State
      reads this, writer
    {
      State(writer.Model(), currentDay, saved)
    }

    constructor (writer: Process)
      ensures this.writer == writer && currentDay == None && saved == []
    {
      this.writer := writer;
      currentDay, saved := None, [];
    }

    method RollTo(day: int) returns (rolled: Option<int>)
      modifies this, writer
      ensures Model() == Roll(old(Model()), day)
      ensures rolled.Some? <==> old(currentDay).Some? && day > old(currentDay).value
      ensures rolled.Some? ==> rolled == old(currentDay)
    {
      rolled := None;
      match currentDay
      case None => currentDay := Some(day);
      case Some(current) =>
        if day > current {
          writer.SavedownDay(current);
          saved := saved + [current];
          rolled := currentDay;
          currentDay := Some(day);
        }
    }

    method FeedTrades(rows: Table<Trade>) returns (inserted: nat, rolled: Option<int>)
      requires rows != []
      modifies this, writer
      ensures Model() == Feed(old(Model()), rows) && inserted == |rows|
    {
      rolled := RollTo(UtcDate(rows[|rows| - 1].time));
      inserted := writer.InsertTrades(rows);
    }

    method FeedQuotes(rows: Table<Quote>) returns (inserted: nat, rolled: Option<int>)
      requires rows != []
      modifies this, writer
      ensures Model() == FeedQuote(old(Model()), rows) && inserted == |rows|
    {
      rolled := RollTo(UtcDate(rows[|rows| - 1].time));
      inserted := writer.InsertQuotes(rows);
    }

    method FlushDay() returns (day: Option<int>)
      modifies this, writer
      ensures Model() == Flush(old(Model())) && day == old(currentDay)
    {
      day := currentDay;
      if currentDay.Some? {
        currentDay := None;
        writer.SavedownDay(day.value);
        saved := saved + [day.value];
      }
    }
  }
}
