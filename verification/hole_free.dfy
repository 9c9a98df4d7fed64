/** The store stays free of holes and duplicates across reconnects. One symbol's ledger is carried
    through its own groups, other symbols' groups, quotes, rollovers, turns and whole runs, over any
    run of the feed handler. */
module HoleFree {
  import opened Bars
  import opened Kdb
  import opened MaxId
  import opened Dedup
  import opened Feed
  import opened Views
  import opened Ledgers
  import opened Options
  import Ascents
  import Bridge
  import Roller

  // --- one connection's ids ------------------------------------------------------------------------

  /** The id comes right after the highest so far; or it is the first new one while the gap before
      it is still to be bridged, or there is no floor. */
  predicate NextAfter<T>(before: seq<Msg<T>>, last: Option<int>, flagged: bool, id: int) {
    var top := Top(before, last);
    top.None? || (flagged && top == last) || id == top.value + 1
  }

  /** Each id is at or below the floor, a replay, or the next. */
  predicate Connection<T>(s: seq<Msg<T>>, last: Option<int>, flagged: bool) {
    forall i ::
      0 <= i < |s| && Above(last, s[i].id) ==> HasId(s[..i], s[i].id) || NextAfter(s[..i], last, flagged, s[i].id)
  }

  lemma {:induction false} NotBelowTop<T>(before: seq<Msg<T>>, last: Option<int>, flagged: bool, id: int)
    requires Above(last, id) && NextAfter(before, last, flagged, id)
    ensures ExceedsAll(id, before) && Above(Top(before, last), id)
  {
    TopBounds(before, last);
    forall j | 0 <= j < |before| ensures before[j].id < id {
      assert !Above(Top(before, last), before[j].id);
    }
  }

  lemma {:induction false} ConnectionRises<T>(s: seq<Msg<T>>, last: Option<int>, flagged: bool)
    requires Connection(s, last, flagged)
    ensures Rising(s, last)
  {
    forall i | 0 <= i < |s| && Above(last, s[i].id) ensures HasId(s[..i], s[i].id) || ExceedsAll(s[i].id, s[..i]) {
      if !HasId(s[..i], s[i].id) {
        NotBelowTop(s[..i], last, flagged, s[i].id);
      }
    }
  }

  lemma {:induction false} ConnectionPrefix<T>(a: seq<Msg<T>>, b: seq<Msg<T>>, last: Option<int>, flagged: bool)
    requires Connection(a + b, last, flagged)
    ensures Connection(a, last, flagged)
  {
    var s := a + b;
    forall i | 0 <= i < |a| && Above(last, a[i].id)
      ensures HasId(a[..i], a[i].id) || NextAfter(a[..i], last, flagged, a[i].id)
    {
      assert s[i] == a[i] && s[..i] == a[..i];
    }
  }

  lemma {:induction false} NextInSuffix<T>(a: seq<Msg<T>>, b: seq<Msg<T>>, last: Option<int>, flagged: bool, id: int)
    requires NextAfter(a + b, last, flagged, id)
    ensures NextAfter(b, Top(a, last), flagged && Top(a, last) == last, id)
  {
    FreshConcat(a, b, last);
    TopBounds(a, last);
    TopBounds(b, Top(a, last));
  }

  lemma {:induction false} AboveTopIsNew<T>(a: seq<Msg<T>>, last: Option<int>, id: int)
    requires Above(Top(a, last), id)
    ensures Above(last, id) && !HasId(a, id)
  {
    TopBounds(a, last);
  }

  /** What comes after a processed part is still a connection, seen from where that part ended. */
  lemma {:induction false} ConnectionSuffix<T>(a: seq<Msg<T>>, b: seq<Msg<T>>, last: Option<int>, flagged: bool)
    requires Connection(a + b, last, flagged)
    ensures Connection(b, Top(a, last), flagged && Top(a, last) == last)
  {
    var s, mid := a + b, Top(a, last);
    forall i | 0 <= i < |b| && Above(mid, b[i].id)
      ensures HasId(b[..i], b[i].id) || NextAfter(b[..i], mid, flagged && mid == last, b[i].id)
    {
      var n := |a| + i;
      assert s[n] == b[i] && s[..n] == a + b[..i];
      AboveTopIsNew(a, last, b[i].id);
      if HasId(s[..n], s[n].id) {
        IdsOfConcat(a, b[..i], s[n].id);
      } else {
        NextInSuffix(a, b[..i], last, flagged, b[i].id);
      }
    }
  }

  /** The kept ids of a connection are consecutive; unless flagged they follow the floor. */
  predicate Consecutive<T>(f: seq<Msg<T>>, last: Option<int>, flagged: bool) {
    && (forall i :: 0 <= i < |f| ==> f[i].id == f[0].id + i)
    && (f != [] && last.Some? && !flagged ==> f[0].id == last.value + 1)
  }

  /** The floor has moved exactly when something was kept. */
  lemma {:induction false} TopMoved<T>(s: seq<Msg<T>>, last: Option<int>)
    ensures Top(s, last) == last <==> Fresh(s, last) == []
  {
    FreshMeaning(s, last);
    var f := Fresh(s, last);
    if f != [] {
      assert Above(last, f[|f| - 1].id);
    }
  }

  lemma {:induction false} ConsecutiveStep<T>(a: seq<Msg<T>>, x: Msg<T>, last: Option<int>, flagged: bool)
    requires Consecutive(Fresh(a, last), last, flagged)
    requires Above(Top(a, last), x.id) ==> NextAfter(a, last, flagged, x.id)
    ensures Consecutive(Fresh(a + [x], last), last, flagged)
  {
    FreshSnoc(a, x, last);
    FreshMeaning(a, last);
    TopMoved(a, last);
  }

  lemma {:induction false} ConnectionConsecutive<T>(s: seq<Msg<T>>, last: Option<int>, flagged: bool)
    requires Connection(s, last, flagged)
    ensures Consecutive(Fresh(s, last), last, flagged)
    decreases |s|
  {
    if s != [] {
      var a, x := s[..|s| - 1], s[|s| - 1];
      assert s == a + [x];
      ConnectionPrefix(a, [x], last, flagged);
      ConnectionConsecutive(a, last, flagged);
      assert s[|a|] == x && s[..|a|] == a;
      if Above(Top(a, last), x.id) {
        AboveTopIsNew(a, last, x.id);
      }
      ConsecutiveStep(a, x, last, flagged);
    }
  }

  lemma {:induction false} FirstNewMeaning<T>(s: seq<Msg<T>>, last: Option<int>)
    ensures match FirstNew(s, last)
            case None => forall id :: HasId(s, id) ==> !Above(last, id)
            case Some(f) => HasId(s, f) && Above(last, f) && forall id :: HasId(s, id) && Above(last, id) ==> f <= id
  {
    if s != [] {
      FirstNewMeaning(s[1..], last);
      assert [s[0]] + s[1..] == s;
      forall id ensures HasId(s, id) <==> id == s[0].id || HasId(s[1..], id) {
        IdsOfCons(s[0], s[1..], id);
      }
    }
  }

  /** Nothing is new exactly when the floor stays; the least new id is the first one kept. */
  lemma {:induction false} FirstNewIsFirstKept<T>(s: seq<Msg<T>>, last: Option<int>)
    requires Rising(s, last)
    ensures FirstNew(s, last).None? <==> Top(s, last) == last
    ensures FirstNew(s, last).Some? ==> Fresh(s, last) != [] && Fresh(s, last)[0].id == FirstNew(s, last).value
  {
    var f := Fresh(s, last);
    FirstNewMeaning(s, last);
    TopMoved(s, last);
    RisingKeepsFirstArrivals(s, last);
    if f != [] {
      assert HasId(f, f[0].id);
    }
    match FirstNew(s, last)
    case None =>
    case Some(n) =>
      assert HasId(f, n);
      var i :| 0 <= i < |f| && f[i].id == n;
  }

  lemma {:induction false} ConsecutiveIsContig(f: seq<Msg<TradeData>>, last: Option<int>, next: Option<int>)
    requires Consecutive(f, last, false)
    requires next == if f == [] then last else Some(f[|f| - 1].id)
    ensures Contig(StoredTicks(f), last, next)
  {
  }

  // --- one symbol's group ------------------------------------------------------------------------

  /** Records of the run's days, with the exchange's ids. */
  predicate Fine<T>(ms: seq<Msg<T>>, today: int) {
    forall i :: 0 <= i < |ms| ==> Roller.UtcDate(Bridge.ToMillis(ms[i].time)) >= today && ms[i].id >= 0
  }

  lemma {:induction false} FineOf<T>(ms: seq<Msg<T>>, s: string, today: int)
    requires Fine(ms, today)
    ensures Fine(Of(ms, s), today)
  {
    if ms != [] {
      assert forall i :: 0 <= i < |ms[1..]| ==> ms[1..][i] == ms[i + 1];
      FineOf(ms[1..], s, today);
    }
  }

  lemma {:induction false} FineFresh<T>(ms: seq<Msg<T>>, last: Option<int>, today: int)
    requires Fine(ms, today)
    ensures Fine(Fresh(SortById(ms), last), today)
  {
    BatchKeepsFirstArrivals(ms, last);
    var f := Fresh(SortById(ms), last);
    forall i | 0 <= i < |f| ensures Roller.UtcDate(Bridge.ToMillis(f[i].time)) >= today && f[i].id >= 0 {
      assert f[i] == FirstWith(ms, f[i].id);
      assert f[i] in ms;
    }
  }

  ghost predicate LedgerOf(hdb: Hdb, h: Handler, s: string, floor: Option<int>, last: Option<int>, today: int) {
    Ledger(hdb, h.roll, h.log, s, floor, last, today)
  }

  lemma {:induction false} FeedTicks(hdb: Hdb, h: Handler, kept: seq<Msg<TradeData>>, sym: string, s: string,
                                     floor: Option<int>, last: Option<int>, next: Option<int>, today: int)
    requires LedgerOf(hdb, h, s, floor, last, today) && Own(kept, sym) && Fine(kept, today)
    requires if s == sym then Contig(StoredTicks(kept), last, next) else next == last
    ensures LedgerOf(hdb, FeedTrades(h, ParseTicks(kept)), s, floor, next, today)
  {
    hide Ledger, OfSym, Roller.Feed, Own;
    TicksOfSym(kept, sym, s);
    if kept != [] {
      FeedKeepsLedger(hdb, h.roll, h.log, ParseTicks(kept), s, floor, last, next, today);
    }
  }

  /** Another symbol's trades leave the ledger as it is. */
  lemma {:induction false} OtherKept(hdb: Hdb, h: Handler, sym: string, group: seq<Msg<TradeData>>, s: string,
                                     floor: Option<int>, last: Option<int>, today: int)
    requires s != sym && Own(group, sym) && Fine(group, today) && LedgerOf(hdb, h, s, floor, last, today)
    ensures LedgerOf(hdb, KeepTrades(h, sym, group), s, floor, last, today)
  {
    var top := Last(h.lastId, sym);
    FreshIsOwn(group, top, sym);
    FineFresh(group, top, today);
    FeedTicks(hdb, h, Fresh(SortById(group), top), sym, s, floor, last, last, today);
  }

  /** `r` is `h` with `rows` bridged into the store and the symbol's last id read back. */
  predicate Reloaded(h: Handler, r: Handler, sym: string, rows: Table<Trade>) {
    && r.roll == h.roll.(db := InsertRaw(h.roll.db, rows))
    && r.log == h.log + [Roller.Bridged(rows)]
    && r.lastId == h.lastId[sym := MaxStoredId(r.roll.db, sym)]
  }

  lemma BridgeReloads(h: Handler, sym: string, target: Option<int>, ep: Endpoint, f: int)
    requires MaxStoredId(h.roll.db, sym) == Some(f)
    ensures Reloaded(h, BridgeAndReload(h, sym, target, ep), sym, BridgedRows(sym, f, target, ep))
  {
  }

  lemma BridgeSkips(h: Handler, sym: string, target: Option<int>, ep: Endpoint)
    requires MaxStoredId(h.roll.db, sym) == None
    ensures var r := BridgeAndReload(h, sym, target, ep);
            r.roll == h.roll && r.log == h.log && r.lastId == h.lastId[sym := None]
  {
    assert h.log + [] == h.log;
  }

  lemma BridgedRowsOwn(sym: string, f: int, target: Option<int>, ep: Endpoint)
    ensures var rows := BridgedRows(sym, f, target, ep); forall i :: 0 <= i < |rows| ==> rows[i].body.sym == sym
  {
  }

  lemma {:induction false} OtherReloaded(hdb: Hdb, h: Handler, r: Handler, rows: Table<Trade>, sym: string, s: string,
                                         floor: Option<int>, last: Option<int>, today: int)
    requires s != sym && (forall i :: 0 <= i < |rows| ==> rows[i].body.sym == sym)
    requires LedgerOf(hdb, h, s, floor, last, today) && Reloaded(h, r, sym, rows)
    ensures LedgerOf(hdb, r, s, floor, last, today)
  {
    OfSymOwn(Stamp(rows), sym, s);
    BridgeKeepsLedger(hdb, h.roll, h.log, rows, s, floor, last, last, today);
  }

  lemma {:induction false} OtherBridged(hdb: Hdb, h: Handler, sym: string, target: Option<int>, ep: Endpoint, s: string,
                                        floor: Option<int>, last: Option<int>, today: int)
    requires s != sym && LedgerOf(hdb, h, s, floor, last, today)
    ensures LedgerOf(hdb, BridgeAndReload(h, sym, target, ep), s, floor, last, today)
  {
    match MaxStoredId(h.roll.db, sym)
    case None => BridgeSkips(h, sym, target, ep);
    case Some(f) =>
      BridgeReloads(h, sym, target, ep, f);
      BridgedRowsOwn(sym, f, target, ep);
      OtherReloaded(hdb, h, BridgeAndReload(h, sym, target, ep), BridgedRows(sym, f, target, ep), sym, s, floor, last,
                    today);
  }

  lemma {:induction false} OtherGroup(hdb: Hdb, h: Handler, sym: string, group: seq<Msg<TradeData>>, ep: Endpoint,
                                      s: string,
                                      floor: Option<int>, last: Option<int>, today: int)
    requires s != sym && Own(group, sym) && Fine(group, today) && LedgerOf(hdb, h, s, floor, last, today)
    ensures LedgerOf(hdb, ApplyGroup(h, sym, group, ep), s, floor, last, today)
  {
    var r := if sym in h.pending then Feed.MaybeRebridge(h, sym, group, ep) else h;
    var first := FirstNew(group, Last(h.lastId, sym));
    if first.Some? {
      OtherBridged(hdb, h, sym, first, ep, s, floor, last, today);
    }
    OtherKept(hdb, r, sym, group, s, floor, last, today);
  }

  /** REST already serves every id below the first new one, and the lookup can find the last. */
  ghost predicate CanBridge(h: Handler, s: string, last: int, first: int, ep: Endpoint) {
    && Findable(h.roll.db.trade, h.roll.db.hdb.trade, s)
    && Bridge.Honest(ep.fetch, ep.held, TRADES_LIMIT) && Bridge.GrowsAtTip(ep.held)
    && Bridge.Serves(ep.held, 0, last + 1, first)
  }

  lemma {:induction false} ParsedRows(rows: seq<Bridge.Rest>, s: string, from: int)
    requires forall i :: 0 <= i < |rows| ==> rows[i].id == from + i
    ensures var g := OfSym(Stamp(Bridge.ParseAll(rows, s)), s);
            |g| == |rows| && forall i :: 0 <= i < |g| ==> g[i].body.tradeID == from + i
  {
    OfSymOwn(Stamp(Bridge.ParseAll(rows, s)), s, s);
  }

  lemma {:induction false} GapRows(h: Handler, s: string, ep: Endpoint, last: int, first: int)
    requires 0 <= last < first - 1 && CanBridge(h, s, last, first, ep)
    ensures var g := OfSym(Stamp(BridgedRows(s, last, Some(first), ep)), s);
            g != [] && Contig(g, Some(last), Some(first - 1)) && IdsNonNegative(g)
  {
    Bridge.BridgeFillsGap(ep.fetch, ep.held, 0, last + 1, first, TRADES_LIMIT);
    ParsedRows(Bridge.Paged(ep.fetch, 0, last + 1, Some(first), TRADES_LIMIT), s, last + 1);
  }

  /** Rows put into memory are where the lookup searches. */
  lemma {:induction false} FindsAfterInsert(db: Db, rows: Table<Trade>, s: string, last: Option<int>)
    requires OfSym(Stamp(rows), s) != [] && TopIs(InsertRaw(db, rows), s, last)
    ensures MaxStoredId(InsertRaw(db, rows), s) == last
  {
    OfSymConcat(db.trade, Stamp(rows), s);
    LookupFindsTop(InsertRaw(db, rows), s, last);
  }

  /** Bridged rows that follow on move the ledger, and the reload finds their last id. */
  lemma {:induction false} OwnReloaded(hdb: Hdb, h: Handler, r: Handler, rows: Table<Trade>, s: string,
                                       floor: Option<int>, last: int, next: int, today: int)
    requires LedgerOf(hdb, h, s, floor, Some(last), today) && Reloaded(h, r, s, rows)
             && MaxStoredId(h.roll.db, s) == Some(last)
    requires var g := OfSym(Stamp(rows), s);
             Contig(g, Some(last), Some(next)) && IdsNonNegative(g) && (g == [] ==> rows == [])
    ensures LedgerOf(hdb, r, s, floor, Some(next), today) && Last(r.lastId, s) == Some(next)
  {
    BridgeKeepsLedger(hdb, h.roll, h.log, rows, s, floor, Some(last), Some(next), today);
    if rows == [] {
      assert h.roll.db.trade + Stamp(rows) == h.roll.db.trade;
      assert InsertRaw(h.roll.db, rows) == h.roll.db;
    } else {
      FindsAfterInsert(h.roll.db, rows, s, Some(next));
    }
  }

  lemma {:induction false} GapReloaded(hdb: Hdb, h: Handler, s: string, ep: Endpoint, floor: Option<int>, last: int,
                                       first: int, today: int)
    requires LedgerOf(hdb, h, s, floor, Some(last), today) && MaxStoredId(h.roll.db, s) == Some(last)
    requires var g := OfSym(Stamp(BridgedRows(s, last, Some(first), ep)), s);
             g != [] && Contig(g, Some(last), Some(first - 1)) && IdsNonNegative(g)
    ensures var r := BridgeAndReload(h, s, Some(first), ep);
            LedgerOf(hdb, r, s, floor, Some(first - 1), today) && Last(r.lastId, s) == Some(first - 1)
  {
    BridgeReloads(h, s, Some(first), ep, last);
    OwnReloaded(hdb, h, BridgeAndReload(h, s, Some(first), ep), BridgedRows(s, last, Some(first), ep),
                s, floor, last, first - 1, today);
  }

  lemma {:induction false} TopNonNegative(db: Db, s: string, last: int)
    requires TopIs(db, s, Some(last))
    ensures last >= 0
  {
    assert StoredId(db.trade, db.hdb.trade, TradeId, s, last);
  }

  /** The re-bridge closes the gap, and the reload then finds the id just below the first new one. */
  lemma {:induction false} GapClosed(hdb: Hdb, h: Handler, s: string, ep: Endpoint, floor: Option<int>, last: int,
                                     first: int, today: int)
    requires LedgerOf(hdb, h, s, floor, Some(last), today) && first > last + 1 && CanBridge(h, s, last, first, ep)
    ensures var r := BridgeAndReload(h, s, Some(first), ep);
            LedgerOf(hdb, r, s, floor, Some(first - 1), today) && Last(r.lastId, s) == Some(first - 1)
  {
    LookupFindsTop(h.roll.db, s, Some(last));
    TopNonNegative(h.roll.db, s, last);
    GapRows(h, s, ep, last, first);
    GapReloaded(hdb, h, s, ep, floor, last, first, today);
  }

  /** Deduplicating and storing a group that follows on from `last` moves the ledger to its top. */
  lemma {:induction false} OwnKept(hdb: Hdb, h: Handler, s: string, group: seq<Msg<TradeData>>,
                                   floor: Option<int>, last: Option<int>, today: int)
    requires LedgerOf(hdb, h, s, floor, last, today) && Last(h.lastId, s) == last
    requires Own(group, s) && Fine(group, today) && Rising(group, last) && Consecutive(Fresh(group, last), last, false)
    ensures var r := KeepTrades(h, s, group);
            LedgerOf(hdb, r, s, floor, Top(group, last), today) && Last(r.lastId, s) == Top(group, last)
  {
    hide Ledger, Rising, Consecutive, Fine, Own, Contig, Fresh, SortById;
    RisingBatch(group, last);
    FreshIsOwn(group, last, s);
    FineFresh(group, last, today);
    FreshMeaning(group, last);
    ConsecutiveIsContig(Fresh(group, last), last, Top(group, last));
    FeedTicks(hdb, h, Fresh(group, last), s, s, floor, last, Top(group, last), today);
  }

  /** Raising the floor to just below the first new id changes nothing that is kept. */
  lemma {:induction false} FloorRaised<T>(group: seq<Msg<T>>, last: int, first: int)
    requires Rising(group, Some(last)) && FirstNew(group, Some(last)) == Some(first)
    ensures Rising(group, Some(first - 1))
    ensures Fresh(group, Some(first - 1)) == Fresh(group, Some(last))
    ensures Top(group, Some(first - 1)) == Top(group, Some(last))
  {
    var f := Fresh(group, Some(last));
    FirstNewMeaning(group, Some(last));
    RisingKeepsFirstArrivals(group, Some(last));
    RisingKeepsFirstArrivals(group, Some(first - 1));
    forall id ensures HasId(f, id) <==> HasId(group, id) && Above(Some(first - 1), id) {
      assert HasId(f, id) <==> HasId(group, id) && Above(Some(last), id);
    }
    SameFirstArrivals(f, Fresh(group, Some(first - 1)), group, Some(first - 1));
    FirstNewIsFirstKept(group, Some(last));
    FreshMeaning(group, Some(last));
    FreshMeaning(group, Some(first - 1));
  }

  /** The symbol is flagged and its first new trade leaves a gap. */
  predicate NeedsBridge(h: Handler, s: string, group: seq<Msg<TradeData>>) {
    var last, first := Last(h.lastId, s), FirstNew(group, Last(h.lastId, s));
    s in h.pending && last.Some? && first.Some? && first.value > last.value + 1
  }

  /** If the flagged symbol's first new trade leaves a gap, the gap can be bridged. */
  ghost predicate GapBridgeable(h: Handler, s: string, group: seq<Msg<TradeData>>, ep: Endpoint) {
    NeedsBridge(h, s, group) ==> CanBridge(h, s, Last(h.lastId, s).value, FirstNew(group, Last(h.lastId, s)).value, ep)
  }

  /** A connection whose first new id does not jump follows the floor; one that jumps follows it
      once the floor is raised. */
  lemma {:induction false} FollowsFloor<T>(group: seq<Msg<T>>, last: Option<int>, flagged: bool)
    requires Connection(group, last, flagged)
    ensures Rising(group, last)
    ensures var first := FirstNew(group, last);
            if flagged && last.Some? && first.Some? && first.value > last.value + 1
            then Consecutive(Fresh(group, Some(first.value - 1)), Some(first.value - 1), false)
            else Consecutive(Fresh(group, last), last, false)
    ensures FirstNew(group, last).None? <==> Top(group, last) == last
  {
    hide Connection, Rising, Fresh, FirstNew, Top;
    ConnectionRises(group, last, flagged);
    ConnectionConsecutive(group, last, flagged);
    FirstNewMeaning(group, last);
    FirstNewIsFirstKept(group, last);
    TopMoved(group, last);
    var first := FirstNew(group, last);
    if flagged && last.Some? && first.Some? && first.value > last.value + 1 {
      FloorRaised(group, last.value, first.value);
    }
  }

  lemma {:induction false} GapGroup(hdb: Hdb, h: Handler, s: string, group: seq<Msg<TradeData>>, ep: Endpoint,
                                    floor: Option<int>, last: int, first: int, today: int)
    requires Last(h.lastId, s) == Some(last) && LedgerOf(hdb, h, s, floor, Some(last), today) && s in h.pending
    requires Own(group, s) && Fine(group, today) && Rising(group, Some(last))
    requires FirstNew(group, Some(last)) == Some(first) && first > last + 1 && CanBridge(h, s, last, first, ep)
    requires Consecutive(Fresh(group, Some(first - 1)), Some(first - 1), false)
    ensures var r := ApplyGroup(h, s, group, ep);
            LedgerOf(hdb, r, s, floor, Top(group, Some(last)), today) && Last(r.lastId, s) == Top(group, Some(last))
            && s !in r.pending
  {
    GapClosed(hdb, h, s, ep, floor, last, first, today);
    FloorRaised(group, last, first);
    OwnKept(hdb, Feed.MaybeRebridge(h, s, group, ep), s, group, floor, Some(first - 1), today);
  }

  lemma {:induction false} PlainGroup(hdb: Hdb, h: Handler, s: string, group: seq<Msg<TradeData>>, ep: Endpoint,
                                      floor: Option<int>, last: Option<int>, today: int)
    requires Last(h.lastId, s) == last && LedgerOf(hdb, h, s, floor, last, today)
    requires Own(group, s) && Fine(group, today) && Rising(group, last) && Consecutive(Fresh(group, last), last, false)
    requires var first := FirstNew(group, last);
             !(s in h.pending && last.Some? && first.Some? && first.value > last.value + 1)
    ensures var r := ApplyGroup(h, s, group, ep);
            && LedgerOf(hdb, r, s, floor, Top(group, last), today) && Last(r.lastId, s) == Top(group, last)
            && (s in r.pending <==> s in h.pending && FirstNew(group, last).None?)
  {
    hide Ledger, Rising, Consecutive, Fine, Own, Fresh, Top, FirstNew, SortById, Roller.Feed;
    var r := if s in h.pending then Feed.MaybeRebridge(h, s, group, ep) else h;
    assert r.roll == h.roll && r.log == h.log && r.lastId == h.lastId;
    OwnKept(hdb, r, s, group, floor, last, today);
  }

  lemma {:induction false} OwnGroup(hdb: Hdb, h: Handler, s: string, group: seq<Msg<TradeData>>, ep: Endpoint,
                                    floor: Option<int>, last: Option<int>, today: int)
    requires last == Last(h.lastId, s) && LedgerOf(hdb, h, s, floor, last, today)
    requires Own(group, s) && Fine(group, today) && Connection(group, last, s in h.pending)
             && GapBridgeable(h, s, group, ep)
    ensures var r := ApplyGroup(h, s, group, ep);
            && LedgerOf(hdb, r, s, floor, Top(group, last), today) && Last(r.lastId, s) == Top(group, last)
            && (s in r.pending <==> s in h.pending && Top(group, last) == last)
  {
    var first := FirstNew(group, last);
    FollowsFloor(group, last, s in h.pending);
    if s in h.pending && last.Some? && first.Some? && first.value > last.value + 1 {
      GapGroup(hdb, h, s, group, ep, floor, last.value, first.value, today);
    } else {
      PlainGroup(hdb, h, s, group, ep, floor, last, today);
    }
  }

  // --- one turn ------------------------------------------------------------------------------------

  lemma {:induction false} OtherGroups(hdb: Hdb, h: Handler, syms: seq<string>, trades: seq<Msg<TradeData>>,
                                       rest: Exchange, s: string,
                                       floor: Option<int>, last: Option<int>, today: int)
    requires s !in syms && Fine(trades, today) && LedgerOf(hdb, h, s, floor, last, today)
    ensures LedgerOf(hdb, ApplyGroups(h, syms, trades, rest), s, floor, last, today)
    decreases |syms|
  {
    if syms != [] {
      OfIsOwn(trades, syms[0]);
      FineOf(trades, syms[0], today);
      OtherGroup(hdb, h, syms[0], Of(trades, syms[0]), rest(syms[0]), s, floor, last, today);
      OtherGroups(hdb, ApplyGroup(h, syms[0], Of(trades, syms[0]), rest(syms[0])), syms[1..], trades, rest, s, floor,
                  last, today);
    }
  }

  lemma {:induction false} GroupsKeep(hdb: Hdb, h: Handler, syms: seq<string>, trades: seq<Msg<TradeData>>,
                                      rest: Exchange, s: string,
                                      floor: Option<int>, last: Option<int>, today: int)
    requires NoRepeats(syms) && s in syms && Fine(trades, today)
    requires last == Last(h.lastId, s) && LedgerOf(hdb, h, s, floor, last, today)
    requires Connection(Of(trades, s), last, s in h.pending)
    requires GapBridgeable(BeforeGroup(h, syms, trades, rest, s), s, Of(trades, s), rest(s))
    ensures LedgerOf(hdb, ApplyGroups(h, syms, trades, rest), s, floor, Top(Of(trades, s), last), today)
    decreases |syms|
  {
    var group, next := Of(trades, syms[0]), ApplyGroup(h, syms[0], Of(trades, syms[0]), rest(syms[0]));
    assert forall i :: 0 <= i < |syms[1..]| ==> syms[1..][i] == syms[i + 1];
    OfIsOwn(trades, syms[0]);
    FineOf(trades, syms[0], today);
    if syms[0] == s {
      OwnGroup(hdb, h, s, group, rest(s), floor, last, today);
      OtherGroups(hdb, next, syms[1..], trades, rest, s, floor, Top(group, last), today);
    } else {
      OtherGroup(hdb, h, syms[0], group, rest(syms[0]), s, floor, last, today);
      OtherGroupView(h, syms[0], group, rest(syms[0]), s);
      assert ViewOf(next, s) == ViewOf(h, s);
      GroupsKeep(hdb, next, syms[1..], trades, rest, s, floor, last, today);
    }
  }

  lemma {:induction false} QuoteGroupsKeep(hdb: Hdb, h: Handler, syms: seq<string>, quotes: seq<Msg<QuoteData>>,
                                           s: string,
                                           floor: Option<int>, last: Option<int>, today: int)
    requires Fine(quotes, today) && LedgerOf(hdb, h, s, floor, last, today)
    ensures LedgerOf(hdb, KeepQuoteGroups(h, syms, quotes), s, floor, last, today)
    decreases |syms|
  {
    if syms != [] {
      var top := Last(h.lastQuoteId, syms[0]);
      var kept := Fresh(SortById(Of(quotes, syms[0])), top);
      FineOf(quotes, syms[0], today);
      FineFresh(Of(quotes, syms[0]), top, today);
      if kept != [] {
        QuotesKeepLedger(hdb, h.roll, h.log, ParseQuotes(kept), s, floor, last, today);
      }
      QuoteGroupsKeep(hdb, KeepQuotes(h, syms[0], Of(quotes, syms[0])), syms[1..], quotes, s, floor, last, today);
    }
  }

  predicate FineRecords(records: seq<Record>, today: int) {
    Fine(TradesOf(records), today) && Fine(QuotesOf(records), today)
  }

  lemma {:induction false} FineConcat<T>(a: seq<Msg<T>>, b: seq<Msg<T>>, today: int)
    ensures Fine(a + b, today) <==> Fine(a, today) && Fine(b, today)
  {
    var s := a + b;
    assert forall i :: 0 <= i < |a| ==> s[i] == a[i];
    assert forall i :: 0 <= i < |b| ==> s[|a| + i] == b[i];
  }

  lemma {:induction false} FineRecordsConcat(a: seq<Record>, b: seq<Record>, today: int)
    ensures FineRecords(a + b, today) <==> FineRecords(a, today) && FineRecords(b, today)
  {
    TradesOfConcat(a, b);
    QuotesOfConcat(a, b);
    FineConcat(TradesOf(a), TradesOf(b), today);
    FineConcat(QuotesOf(a), QuotesOf(b), today);
  }

  /** The invariant of a run, for one symbol: its ledger is in order up to the floor the handler
      holds, and what is queued follows on from there. */
  ghost predicate Inv(hdb: Hdb, h: Handler, s: string, floor: Option<int>, today: int) {
    && LedgerOf(hdb, h, s, floor, Last(h.lastId, s), today)
    && Connection(Share(h.queue, s), Last(h.lastId, s), s in h.pending)
    && FineRecords(h.queue, today)
  }

  /** What the environment owes the symbol in a turn: a gap that shows up can be bridged. */
  ghost predicate TurnOk(h: Handler, rest: Exchange, s: string) {
    var n := BatchSize(h.queue);
    var trades := TradesOf(h.queue[..n]);
    GapBridgeable(BeforeGroup(h.(queue := h.queue[n..]), Order(trades), trades, rest, s), s, Of(trades, s), rest(s))
  }

  /** Where a symbol's view stands after a turn. */
  lemma {:induction false} TurnView(h: Handler, trades: seq<Msg<TradeData>>, rest: Exchange, s: string)
    requires Of(trades, s) == []
    ensures ViewOf(Feed.ApplyTrades(h, trades, rest), s) == ViewOf(h, s)
  {
    OrderMeaning(trades);
    GroupsView(h, Order(trades), trades, rest, s);
  }

  lemma {:induction false} BeforeGroupLedger(hdb: Hdb, h: Handler, syms: seq<string>, trades: seq<Msg<TradeData>>,
                                             rest: Exchange, s: string,
                                             floor: Option<int>, last: Option<int>, today: int)
    requires Fine(trades, today) && LedgerOf(hdb, h, s, floor, last, today)
    ensures LedgerOf(hdb, BeforeGroup(h, syms, trades, rest, s), s, floor, last, today)
    decreases |syms|
  {
    if syms != [] && syms[0] != s {
      OfIsOwn(trades, syms[0]);
      FineOf(trades, syms[0], today);
      OtherGroup(hdb, h, syms[0], Of(trades, syms[0]), rest(syms[0]), s, floor, last, today);
      BeforeGroupLedger(hdb, ApplyGroup(h, syms[0], Of(trades, syms[0]), rest(syms[0])), syms[1..], trades, rest, s,
                        floor, last, today);
    }
  }

  lemma {:induction false} OwnView(hdb: Hdb, h: Handler, trades: seq<Msg<TradeData>>, rest: Exchange, s: string,
                                   floor: Option<int>, last: Option<int>, today: int)
    requires Fine(trades, today) && last == Last(h.lastId, s) && LedgerOf(hdb, h, s, floor, last, today)
    requires Connection(Of(trades, s), last, s in h.pending) && s in Order(trades)
    requires GapBridgeable(BeforeGroup(h, Order(trades), trades, rest, s), s, Of(trades, s), rest(s))
    ensures var r, top := Feed.ApplyTrades(h, trades, rest), Top(Of(trades, s), last);
            Last(r.lastId, s) == top && (s in r.pending <==> s in h.pending && top == last)
  {
    OrderMeaning(trades);
    var at := BeforeGroup(h, Order(trades), trades, rest, s);
    GroupsView(h, Order(trades), trades, rest, s);
    BeforeGroupView(h, Order(trades), trades, rest, s);
    BeforeGroupLedger(hdb, h, Order(trades), trades, rest, s, floor, last, today);
    OfIsOwn(trades, s);
    FineOf(trades, s, today);
    assert ViewOf(at, s) == ViewOf(h, s);
    OwnGroup(hdb, at, s, Of(trades, s), rest(s), floor, last, today);
    assert ViewOf(Feed.ApplyTrades(h, trades, rest), s) == ViewOf(ApplyGroup(at, s, Of(trades, s), rest(s)), s);
  }

  lemma {:induction false} TradesKeep(hdb: Hdb, h: Handler, trades: seq<Msg<TradeData>>, rest: Exchange, s: string,
                                      floor: Option<int>, last: Option<int>, today: int)
    requires Fine(trades, today) && last == Last(h.lastId, s) && LedgerOf(hdb, h, s, floor, last, today)
    requires Connection(Of(trades, s), last, s in h.pending)
    requires GapBridgeable(BeforeGroup(h, Order(trades), trades, rest, s), s, Of(trades, s), rest(s))
    ensures var r, top := Feed.ApplyTrades(h, trades, rest), Top(Of(trades, s), last);
            && LedgerOf(hdb, r, s, floor, top, today) && Last(r.lastId, s) == top
            && (s in r.pending <==> s in h.pending && top == last)
  {
    OrderMeaning(trades);
    if s in Order(trades) {
      GroupsKeep(hdb, h, Order(trades), trades, rest, s, floor, last, today);
      OwnView(hdb, h, trades, rest, s, floor, last, today);
    } else {
      OtherGroups(hdb, h, Order(trades), trades, rest, s, floor, last, today);
      TurnView(h, trades, rest, s);
      assert ViewOf(Feed.ApplyTrades(h, trades, rest), s) == ViewOf(h, s);
    }
  }

  /** The symbol's records that the next turn takes. */
  function TurnShare(h: Handler, s: string): seq<Msg<TradeData>> {
    Share(h.queue[..BatchSize(h.queue)], s)
  }

  /** A turn moves the ledger to the top of what it takes. */
  lemma {:induction false} WorkLedger(hdb: Hdb, h: Handler, rest: Exchange, s: string, floor: Option<int>, today: int)
    requires LedgerOf(hdb, h, s, floor, Last(h.lastId, s), today) && TurnOk(h, rest, s)
    requires Connection(TurnShare(h, s), Last(h.lastId, s), s in h.pending) && FineRecords(h.queue, today)
    ensures var r, last := Work(h, rest), Last(h.lastId, s);
            var top := Top(TurnShare(h, s), last);
            && LedgerOf(hdb, r, s, floor, top, today) && Last(r.lastId, s) == top
            && (s in r.pending <==> s in h.pending && top == last)
  {
    hide Ledger, Connection, Fine, GapBridgeable, BeforeGroup, ApplyGroups, KeepQuoteGroups, Top, Of, Inserted;
    var n := BatchSize(h.queue);
    var h0, trades, quotes := h.(queue := h.queue[n..]), TradesOf(h.queue[..n]), QuotesOf(h.queue[..n]);
    var last := Last(h.lastId, s);
    assert h.queue == h.queue[..n] + h.queue[n..];
    FineRecordsConcat(h.queue[..n], h.queue[n..], today);
    TradesKeep(hdb, h0, trades, rest, s, floor, last, today);
    var h1 := Feed.ApplyTrades(h0, trades, rest);
    QuoteGroupsKeep(hdb, h1, Order(quotes), quotes, s, floor, Top(Of(trades, s), last), today);
    QuotesView(h1, Order(quotes), quotes, s);
    assert ViewOf(Work(h, rest), s) == ViewOf(h1, s);
  }

  lemma {:induction false} WorkKeepsInv(hdb: Hdb, h: Handler, rest: Exchange, s: string, floor: Option<int>, today: int)
    requires Inv(hdb, h, s, floor, today) && TurnOk(h, rest, s)
    ensures Inv(hdb, Work(h, rest), s, floor, today)
    ensures var r, last := Work(h, rest), Last(h.lastId, s);
            var top := Top(TurnShare(h, s), last);
            Last(r.lastId, s) == top && (s in r.pending <==> s in h.pending && top == last)
  {
    hide Ledger, Connection, Fine, TurnOk, Work, Top, Of;
    var n := BatchSize(h.queue);
    var batch, later := h.queue[..n], h.queue[n..];
    assert h.queue == batch + later;
    ShareConcat(batch, later, s);
    FineRecordsConcat(batch, later, today);
    ConnectionPrefix(Share(batch, s), Share(later, s), Last(h.lastId, s), s in h.pending);
    ConnectionSuffix(Share(batch, s), Share(later, s), Last(h.lastId, s), s in h.pending);
    WorkLedger(hdb, h, rest, s, floor, today);
    WorkQueue(h, rest);
  }

  // --- runs ------------------------------------------------------------------------------------------

  /** The environment's part, for one symbol: the queue is never full; the ids received are
      contiguous, with replays, up to one jump while the flag is up and nothing new is queued behind
      it; records are of the run's days; and REST serves what a gap needs. A reconnect may come at
      any time, whatever is queued. */
  ghost predicate EventOk(h: Handler, e: Event, s: string, today: int) {
    match e
    case Connected => true
    case Received(payload) =>
      payload.Some? ==>
        && |h.queue| < QUEUE_MAXSIZE
        && Connection(Share(h.queue + [payload.value], s), Last(h.lastId, s), s in h.pending)
        && FineRecords([payload.value], today)
    case Worked(rest) => TurnOk(h, rest, s)
  }

  ghost predicate RunOk(h: Handler, es: seq<Event>, symbols: set<string>, s: string, today: int)
    decreases |es|
  {
    es == [] || (EventOk(h, es[0], s, today) && RunOk(Feed.Apply(h, es[0], symbols), es[1..], symbols, s, today))
  }

  /** Raising the flag asks less of what is queued. */
  lemma {:induction false} FlagRaised<T>(q: seq<Msg<T>>, last: Option<int>, flagged: bool)
    requires Connection(q, last, flagged)
    ensures Connection(q, last, true)
  {
    forall i | 0 <= i < |q| && Above(last, q[i].id)
      ensures HasId(q[..i], q[i].id) || NextAfter(q[..i], last, true, q[i].id)
    {
      assert HasId(q[..i], q[i].id) || NextAfter(q[..i], last, flagged, q[i].id);
    }
  }

  lemma {:induction false} EventKeepsInv(hdb: Hdb, h: Handler, e: Event, symbols: set<string>, s: string,
                                         floor: Option<int>, today: int)
    requires Inv(hdb, h, s, floor, today) && EventOk(h, e, s, today) && s in symbols
    ensures Inv(hdb, Feed.Apply(h, e, symbols), s, floor, today)
  {
    match e
    case Connected => FlagRaised(Share(h.queue, s), Last(h.lastId, s), s in h.pending);
    case Received(payload) =>
      if payload.Some? {
        FineRecordsConcat(h.queue, [payload.value], today);
      }
    case Worked(rest) => WorkKeepsInv(hdb, h, rest, s, floor, today);
  }

  lemma {:induction false} RunKeepsInv(hdb: Hdb, h: Handler, es: seq<Event>, symbols: set<string>, s: string,
                                       floor: Option<int>, today: int)
    requires Inv(hdb, h, s, floor, today) && RunOk(h, es, symbols, s, today) && s in symbols
    ensures Inv(hdb, Feed.Run(h, es, symbols), s, floor, today)
    decreases |es|
  {
    if es != [] {
      EventKeepsInv(hdb, h, es[0], symbols, s, floor, today);
      RunKeepsInv(hdb, Feed.Apply(h, es[0], symbols), es[1..], symbols, s, floor, today);
    }
  }

  // --- from the archive ----------------------------------------------------------------------------------

  /** The store at startup: the symbol's ids rise with the days, up to `floor`, and its days are past. */
  ghost predicate Archive(hdb: Hdb, s: string, floor: Option<int>, today: int) {
    && TopIs(Db([], [], hdb), s, floor)
    && (forall d :: d in hdb.trade ==> d < today) && (forall d :: d in hdb.quote ==> d < today)
  }

  /** The catch-up can run: the lookup finds the last id, and the exchange misses no id after it. */
  ghost predicate CanCatchUp(h: Handler, s: string, ep: Endpoint) {
    && Findable(h.roll.db.trade, h.roll.db.hdb.trade, s)
    && Bridge.Honest(ep.fetch, ep.held, TRADES_LIMIT) && Bridge.GrowsAtTip(ep.held)
    && Bridge.BridgeEnds(h.roll.db, ep.fetch, 0, s, None, TRADES_LIMIT)
    && (MaxStoredId(h.roll.db, s).Some? ==>
          forall n: nat {:trigger ep.held(n)} :: Bridge.GaplessFrom(ep.held(n), MaxStoredId(h.roll.db, s).value + 1))
  }

  ghost predicate StartOk(h: Handler, syms: seq<string>, rest: Exchange, s: string)
    decreases |syms|
  {
    syms == [] || ((syms[0] == s ==> CanCatchUp(h, s, rest(s)))
                   && StartOk(CatchUp(h, syms[0], rest(syms[0])), syms[1..], rest, s))
  }

  lemma {:induction false} TipRows(s: string, ep: Endpoint, last: int) returns (next: int)
    requires last >= 0
    requires Bridge.Honest(ep.fetch, ep.held, TRADES_LIMIT) && Bridge.GrowsAtTip(ep.held)
    requires Bridge.Ends(Bridge.Clipped(ep.fetch, None), 0, last + 1, None, TRADES_LIMIT)
    requires forall n: nat {:trigger ep.held(n)} :: Bridge.GaplessFrom(ep.held(n), last + 1)
    ensures var rows := BridgedRows(s, last, None, ep);
            var g := OfSym(Stamp(rows), s);
            Contig(g, Some(last), Some(next)) && IdsNonNegative(g) && (g == [] ==> rows == [])
  {
    var raw := Bridge.Paged(ep.fetch, 0, last + 1, None, TRADES_LIMIT);
    Bridge.BridgeReachesTip(ep.fetch, ep.held, 0, last + 1, TRADES_LIMIT);
    ParsedRows(raw, s, last + 1);
    next := last + |raw|;
  }

  lemma {:induction false} OwnCatchUp(hdb: Hdb, h: Handler, s: string, ep: Endpoint, floor: Option<int>,
                                      last: Option<int>, today: int)
    requires LedgerOf(hdb, h, s, floor, last, today) && CanCatchUp(h, s, ep)
    ensures var r := BridgeAndReload(h, s, None, ep);
            LedgerOf(hdb, r, s, floor, Last(r.lastId, s), today)
  {
    LookupFindsTop(h.roll.db, s, last);
    match last
    case None => BridgeSkips(h, s, None, ep);
    case Some(n) =>
      TopNonNegative(h.roll.db, s, n);
      var next := TipRows(s, ep, n);
      BridgeReloads(h, s, None, ep, n);
      OwnReloaded(hdb, h, BridgeAndReload(h, s, None, ep), BridgedRows(s, n, None, ep), s, floor, n, next, today);
  }

  lemma {:induction false} CaughtUpStays(hdb: Hdb, h: Handler, syms: seq<string>, rest: Exchange, s: string,
                                         floor: Option<int>, today: int)
    requires LedgerOf(hdb, h, s, floor, Last(h.lastId, s), today) && StartOk(h, syms, rest, s)
    ensures var r := CatchUpAll(h, syms, rest); LedgerOf(hdb, r, s, floor, Last(r.lastId, s), today)
    decreases |syms|
  {
    if syms != [] {
      if syms[0] == s {
        OwnCatchUp(hdb, h, s, rest(s), floor, Last(h.lastId, s), today);
      } else {
        OtherBridged(hdb, h, syms[0], None, rest(syms[0]), s, floor, Last(h.lastId, s), today);
      }
      CaughtUpStays(hdb, CatchUp(h, syms[0], rest(syms[0])), syms[1..], rest, s, floor, today);
    }
  }

  lemma {:induction false} AllCaughtUp(hdb: Hdb, h: Handler, syms: seq<string>, rest: Exchange, s: string,
                                       floor: Option<int>, today: int)
    requires s in syms && LedgerOf(hdb, h, s, floor, floor, today) && StartOk(h, syms, rest, s)
    ensures var r := CatchUpAll(h, syms, rest); LedgerOf(hdb, r, s, floor, Last(r.lastId, s), today)
    decreases |syms|
  {
    var next := CatchUp(h, syms[0], rest(syms[0]));
    if syms[0] == s {
      OwnCatchUp(hdb, h, s, rest(s), floor, floor, today);
      CaughtUpStays(hdb, next, syms[1..], rest, s, floor, today);
    } else {
      OtherBridged(hdb, h, syms[0], None, rest(syms[0]), s, floor, floor, today);
      AllCaughtUp(hdb, next, syms[1..], rest, s, floor, today);
    }
  }

  lemma {:induction false} CatchUpQueue(h: Handler, syms: seq<string>, rest: Exchange)
    ensures CatchUpAll(h, syms, rest).queue == h.queue
    decreases |syms|
  {
    if syms != [] {
      CatchUpQueue(CatchUp(h, syms[0], rest(syms[0])), syms[1..], rest);
    }
  }

  lemma {:induction false} NewLedger(hdb: Hdb, s: string, floor: Option<int>, today: int)
    requires Archive(hdb, s, floor, today)
    ensures LedgerOf(hdb, New(hdb), s, floor, floor, today)
  {
    assert Contig([], floor, floor);
  }

  lemma {:induction false} StartInv(hdb: Hdb, syms: seq<string>, rest: Exchange, s: string, floor: Option<int>,
                                    today: int)
    requires s in syms && Archive(hdb, s, floor, today) && StartOk(New(hdb), syms, rest, s)
    ensures Inv(hdb, Start(hdb, syms, rest), s, floor, today)
  {
    NewLedger(hdb, s, floor, today);
    AllCaughtUp(hdb, New(hdb), syms, rest, s, floor, today);
    CatchUpQueue(New(hdb), syms, rest);
  }

  /** The ledger's rows are the stored rows: each is in memory or in exactly one saved partition,
      and the archive's partitions are as they were. */
  lemma {:induction false} LedgerIsStored(hdb: Hdb, h: Handler, s: string, floor: Option<int>, last: Option<int>,
                                          today: int)
    requires LedgerOf(hdb, h, s, floor, last, today) && Archive(hdb, s, floor, today)
    ensures var db := h.roll.db;
            && multiset(Inserted(h, s))
               == multiset(OfSym(db.trade, s)) + Roller.SavedRows(db.hdb.trade, h.roll.saved, s)
            && Ascents.Ascending(h.roll.saved)
            && forall d :: d in hdb.trade ==> d in db.hdb.trade && db.hdb.trade[d] == hdb.trade[d]
  {
    assert Roller.Clear(hdb, h.roll);
    Roller.RolloverConserves(hdb, h.log, s);
  }

  /** From an archive, through the catch-up and any run of connects, receipts and turns that the
      environment conditions allow: the symbol's ids stored above the archive's last one are the
      consecutive numbers up to the handler's floor, each stored exactly once, in memory or in one
      partition; and that floor is the greatest id stored. */
  lemma {:induction false} NoHolesEver(hdb: Hdb, syms: seq<string>, rest: Exchange, es: seq<Event>, s: string,
                                       floor: Option<int>, today: int)
    requires s in syms && Archive(hdb, s, floor, today) && StartOk(New(hdb), syms, rest, s)
    requires RunOk(Start(hdb, syms, rest), es, Tracked(syms), s, today)
    ensures var h := Feed.Run(Start(hdb, syms, rest), es, Tracked(syms));
            var db := h.roll.db;
            && Contig(Inserted(h, s), floor, Last(h.lastId, s))
            && multiset(Inserted(h, s))
               == multiset(OfSym(db.trade, s)) + Roller.SavedRows(db.hdb.trade, h.roll.saved, s)
            && (forall d :: d in hdb.trade ==> d in db.hdb.trade && db.hdb.trade[d] == hdb.trade[d])
            && IsTrueMax(db.trade, db.hdb.trade, TradeId, s, Last(h.lastId, s))
  {
    StartInv(hdb, syms, rest, s, floor, today);
    RunKeepsInv(hdb, Start(hdb, syms, rest), es, Tracked(syms), s, floor, today);
    var h := Feed.Run(Start(hdb, syms, rest), es, Tracked(syms));
    LedgerIsStored(hdb, h, s, floor, Last(h.lastId, s), today);
  }
}
