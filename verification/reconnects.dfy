/** A queue that is not drained when the broker connection is renewed: any new record clears the
    flag of a reconnect, also one that was already queued, and the gap behind it then stays. */
module Reconnects {
  import opened Buckets
  import opened Bars
  import opened Kdb
  import opened MaxId
  import opened Dedup
  import opened Feed
  import opened Views
  import opened Ledgers
  import opened HoleFree
  import opened Options

  // --- two streams end to end -----------------------------------------------------------------------

  lemma {:induction false} IdInConcat<T>(a: seq<Msg<T>>, b: seq<Msg<T>>, id: int)
    requires HasId(a, id) || HasId(b, id)
    ensures HasId(a + b, id)
  {
    if HasId(a, id) {
      var i :| 0 <= i < |a| && a[i].id == id;
      assert (a + b)[i].id == id;
    } else {
      var i :| 0 <= i < |b| && b[i].id == id;
      assert (a + b)[|a| + i].id == id;
    }
  }

  lemma {:induction false} TopIsThere<T>(a: seq<Msg<T>>, last: Option<int>)
    requires Top(a, last) != last
    ensures Top(a, last).Some? && HasId(a, Top(a, last).value)
  {
    FreshMeaning(a, last);
    TopMoved(a, last);
    var f := Fresh(a, last);
    assert f[|f| - 1] in a;
    var i :| 0 <= i < |a| && a[i] == f[|f| - 1];
  }

  /** Of two connections end to end, every id is at or below the floor, a replay, or the next. */
  lemma {:induction false} NextInJoin<T>(a: seq<Msg<T>>, b: seq<Msg<T>>, j: nat, last: Option<int>, flagged: bool)
    requires j < |b| && Above(last, b[j].id)
    requires HasId(a + b[..j], b[j].id) || ExceedsAll(b[j].id, a + b[..j])
    requires Above(Top(a, last), b[j].id)
             ==> HasId(b[..j], b[j].id) || NextAfter(b[..j], Top(a, last), flagged && Top(a, last) == last, b[j].id)
    ensures HasId(a + b[..j], b[j].id) || NextAfter(a + b[..j], last, flagged, b[j].id)
  {
    var mid, id := Top(a, last), b[j].id;
    FreshConcat(a, b[..j], last);
    if !Above(mid, id) {
      TopIsThere(a, last);
      IdInConcat(a, b[..j], mid.value);
    }
    if HasId(b[..j], id) {
      IdInConcat(a, b[..j], id);
    }
  }

  /** A connection and one that goes on from where it ended are one connection. */
  lemma {:induction false} ConnectionJoin<T>(a: seq<Msg<T>>, b: seq<Msg<T>>, last: Option<int>, flagged: bool)
    requires Connection(a, last, flagged) && Connection(b, Top(a, last), flagged && Top(a, last) == last)
    requires Rising(a + b, last)
    ensures Connection(a + b, last, flagged)
  {
    hide NextAfter, Above, Top;
    var s := a + b;
    forall i | 0 <= i < |s| && Above(last, s[i].id)
      ensures HasId(s[..i], s[i].id) || NextAfter(s[..i], last, flagged, s[i].id)
    {
      if i < |a| {
        assert s[i] == a[i] && s[..i] == a[..i];
      } else {
        assert s[i] == b[i - |a|] && s[..i] == a + b[..i - |a|];
        NextInJoin(a, b, i - |a|, last, flagged);
      }
    }
  }

  /** Of a connection that follows the floor no id up to its top is missing. */
  lemma {:induction false} NoIdMissing<T>(a: seq<Msg<T>>, last: int, id: int)
    requires Connection(a, Some(last), false) && id > last && !Above(Top(a, Some(last)), id)
    ensures HasId(a, id)
  {
    var f := Fresh(a, Some(last));
    ConnectionConsecutive(a, Some(last), false);
    FreshMeaning(a, Some(last));
    var m := f[id - last - 1];
    assert m.id == id && m in a;
    var i :| 0 <= i < |a| && a[i] == m;
  }

  /** What goes on from a connection that follows the floor rises with it: an id below can only be a replay. */
  lemma {:induction false} RisingJoin<T>(a: seq<Msg<T>>, b: seq<Msg<T>>, last: int, flagged: bool)
    requires Connection(a, Some(last), false) && Connection(b, Top(a, Some(last)), flagged)
    ensures Rising(a + b, Some(last))
  {
    var s, mid := a + b, Top(a, Some(last));
    ConnectionRises(a, Some(last), false);
    ConnectionRises(b, mid, flagged);
    TopBounds(a, Some(last));
    forall i | 0 <= i < |s| && Above(Some(last), s[i].id)
      ensures HasId(s[..i], s[i].id) || ExceedsAll(s[i].id, s[..i])
    {
      if i < |a| {
        assert s[i] == a[i] && s[..i] == a[..i];
      } else {
        var j := i - |a|;
        assert s[i] == b[j] && s[..i] == a + b[..j];
        if !Above(mid, s[i].id) {
          NoIdMissing(a, last, s[i].id);
          IdInConcat(a, b[..j], s[i].id);
        } else if HasId(b[..j], b[j].id) {
          IdInConcat(a, b[..j], b[j].id);
        }
      }
    }
  }

  /** The one jump of a new connection is before the first of its records that is kept. */
  lemma {:induction false} JumpIsFirst<T>(b: seq<Msg<T>>, top: int)
    requires Connection(b, Some(top), true) && !Connection(b, Some(top), false)
    ensures Fresh(b, Some(top)) != [] && Fresh(b, Some(top))[0].id != top + 1
  {
    var i :| 0 <= i < |b| && Above(Some(top), b[i].id)
      && !(HasId(b[..i], b[i].id) || NextAfter(b[..i], Some(top), false, b[i].id));
    TopBounds(b[..i], Some(top));
    TopMoved(b[..i], Some(top));
    assert b == b[..i] + b[i..];
    FreshConcat(b[..i], b[i..], Some(top));
    assert Fresh(b[i..], Some(top)) == [b[i]] + Fresh(b[i..][1..], Some(b[i].id));
  }

  // --- turns that do not bridge -------------------------------------------------------------------

  /** A group that needs no bridge is just deduplicated and stored; anything new clears the flag. */
  lemma {:induction false} PlainGroupView(h: Handler, s: string, group: seq<Msg<TradeData>>, ep: Endpoint)
    requires Own(group, s) && !NeedsBridge(h, s, group)
    ensures var v := ViewOf(h, s);
            ViewOf(ApplyGroup(h, s, group, ep), s)
            == Views.Fed(v, group).(pending := v.pending && FirstNew(group, v.last).None?)
  {
    var r := if s in h.pending then Feed.MaybeRebridge(h, s, group, ep) else h;
    assert r.log == h.log && r.lastId == h.lastId;
    KeepTradesView(r, s, group, s);
  }

  lemma SameLogView(a: Handler, b: Handler, s: string)
    requires a.log == b.log && a.lastId == b.lastId && a.pending == b.pending
    ensures ViewOf(a, s) == ViewOf(b, s)
  {
  }

  /** The same for a whole turn, whatever else it holds. */
  lemma {:induction false} PlainTurnView(h: Handler, rest: Exchange, s: string)
    requires !NeedsBridge(h, s, TurnShare(h, s))
    ensures var v, share := ViewOf(h, s), TurnShare(h, s);
            ViewOf(Work(h, rest), s) == Views.Fed(v, share).(pending := v.pending && FirstNew(share, v.last).None?)
  {
    hide ApplyGroup, Inserted, KeepQuoteGroups, ApplyGroups;
    var n := BatchSize(h.queue);
    var trades, quotes := TradesOf(h.queue[..n]), QuotesOf(h.queue[..n]);
    var h0 := h.(queue := h.queue[n..]);
    assert ViewOf(h0, s) == ViewOf(h, s) by {
      SameLogView(h0, h, s);
    }
    var h1 := Feed.ApplyTrades(h0, trades, rest);
    OrderMeaning(trades);
    GroupsView(h0, Order(trades), trades, rest, s);
    QuotesView(h1, Order(quotes), quotes, s);
    if s in Order(trades) {
      BeforeGroupView(h0, Order(trades), trades, rest, s);
      OfIsOwn(trades, s);
      PlainGroupView(BeforeGroup(h0, Order(trades), trades, rest, s), s, Of(trades, s), rest(s));
    } else {
      FedNothing(ViewOf(h, s));
    }
  }

  // --- a flagged symbol whose next record leaves no gap -------------------------------------------------

  /** The first record to be kept, if there is one, leaves no gap after the floor. */
  predicate FollowsOn(all: seq<Msg<TradeData>>, last: Option<int>) {
    Rising(all, last) && (last.Some? && Fresh(all, last) != [] ==> Fresh(all, last)[0].id == last.value + 1)
  }

  /** The symbol's records of a turn are the first of what is to come. */
  lemma TurnComesFirst(h: Handler, later: seq<Record>, s: string)
    ensures var n := BatchSize(h.queue);
            Share(h.queue + later, s) == TurnShare(h, s) + Share(h.queue[n..] + later, s)
  {
    var n := BatchSize(h.queue);
    assert h.queue + later == h.queue[..n] + (h.queue[n..] + later);
    ShareConcat(h.queue[..n], h.queue[n..] + later, s);
  }

  /** A turn that brings nothing new of a symbol does not change its view. */
  lemma {:induction false} QuietTurn(h: Handler, rest: Exchange, s: string)
    requires Rising(TurnShare(h, s), Last(h.lastId, s)) && Fresh(TurnShare(h, s), Last(h.lastId, s)) == []
    ensures ViewOf(Work(h, rest), s) == ViewOf(h, s) && Top(TurnShare(h, s), Last(h.lastId, s)) == Last(h.lastId, s)
    ensures FirstNew(TurnShare(h, s), Last(h.lastId, s)) == None
  {
    hide Work, Inserted, TurnShare, Rising, Fresh, Top, FirstNew;
    var v, share := ViewOf(h, s), TurnShare(h, s);
    TopMoved(share, v.last);
    FirstNewIsFirstKept(share, v.last);
    RisingBatch(share, v.last);
    PlainTurnView(h, rest, s);
    assert v.rows + StoredTicks([]) == v.rows;
  }

  lemma ShareOfTurn(h: Handler, s: string)
    ensures TurnShare(h, s) == Share(h.queue[..BatchSize(h.queue)], s)
  {
  }

  lemma {:induction false} FlaggedTurn(h: Handler, rest: Exchange, later: seq<Record>, s: string)
    requires s in h.pending && FollowsOn(Share(h.queue + later, s), Last(h.lastId, s))
    ensures var next, last := Work(h, rest), Last(h.lastId, s);
            var all, left := Share(h.queue + later, s), Share(Work(h, rest).queue + later, s);
            if s in next.pending
            then ViewOf(next, s) == ViewOf(h, s) && FollowsOn(left, last)
                 && OneByOne(ViewOf(h, s), left) == OneByOne(ViewOf(h, s), all)
            else Rising(left, Last(next.lastId, s))
                 && OneByOne(ViewOf(next, s), left) == OneByOne(ViewOf(h, s).(pending := false), all)
  {
    hide Work, Inserted, Share, Rising, TurnShare, Fresh, Top, FirstNew;
    var n, share, last := BatchSize(h.queue), TurnShare(h, s), Last(h.lastId, s);
    var left := Share(h.queue[n..] + later, s);
    TurnComesFirst(h, later, s);
    WorkQueue(h, rest);
    RisingSplit(share, left, last);
    FreshConcat(share, left, last);
    FirstNewIsFirstKept(share, last);
    if Fresh(share, last) == [] {
      QuietTurn(h, rest, s);
      assert Fresh(share + left, last) == Fresh(left, last);
    } else {
      TopMoved(share, last);
      PlainTurnView(h, rest, s);
      ShareOfTurn(h, s);
      TurnStep(h.queue, n, later, ViewOf(h, s).(pending := false), ViewOf(Work(h, rest), s), s);
    }
  }

  lemma NothingToCome(v: View, s: string)
    ensures OneByOne(v, Share([], s)) == v
  {
    assert v.rows + StoredTicks([]) == v.rows;
  }

  /** If the first of the symbol's records still to come that is kept leaves no gap, a flagged run processes
      them one by one like any other: no gap shows up before the flag is cleared. */
  lemma {:induction false} FlaggedRun(h: Handler, es: seq<Event>, symbols: set<string>, s: string)
    requires s in h.pending && Steady(h, es, symbols)
    requires FollowsOn(ToCome(h, es, s), Last(h.lastId, s)) && Feed.Run(h, es, symbols).queue == []
    ensures var v := OneByOne(ViewOf(h, s), ToCome(h, es, s));
            var r := ViewOf(Feed.Run(h, es, symbols), s);
            r.last == v.last && r.rows == v.rows
    decreases |es|
  {
    hide Work, Inserted, Rising, Share, FollowsOn, Fresh, Top;
    if es == [] {
      assert h.queue + Arrivals(es) == [];
      NothingToCome(ViewOf(h, s), s);
    } else {
      var next := Feed.Apply(h, es[0], symbols);
      match es[0] {
        case Received(payload) =>
          ReceiptStep(h, payload, Arrivals(es[1..]), s);
          FlaggedRun(next, es[1..], symbols, s);
        case Worked(rest) =>
          assert ArrivalOf(es[0]) + Arrivals(es[1..]) == Arrivals(es[1..]);
          FlaggedTurn(h, rest, Arrivals(es[1..]), s);
          if s in next.pending {
            FlaggedRun(next, es[1..], symbols, s);
          } else {
            RunIsOneByOne(next, es[1..], symbols, s);
          }
      }
    }
  }

  /** So the order of receipts and turns does not matter to a flagged symbol either, until a gap shows up:
      if the first of its records that is kept leaves none, a drained handler has stored the first arrival
      of each id above the floor, once, ascending. */
  lemma {:induction false} FlaggedOrderDoesNotMatter(h: Handler, es: seq<Event>, symbols: set<string>, s: string)
    requires s in h.pending && Steady(h, es, symbols)
    requires FollowsOn(ToCome(h, es, s), Last(h.lastId, s)) && Feed.Run(h, es, symbols).queue == []
    ensures var all, r := ToCome(h, es, s), Feed.Run(h, es, symbols);
            var kept := Fresh(all, Last(h.lastId, s));
            && Inserted(r, s) == Inserted(h, s) + StoredTicks(kept)
            && Last(r.lastId, s) == Top(all, Last(h.lastId, s))
            && FirstArrivals(kept, all, Last(h.lastId, s))
  {
    RisingKeepsFirstArrivals(ToCome(h, es, s), Last(h.lastId, s));
    FlaggedRun(h, es, symbols, s);
  }

  // --- runs after a reconnect ------------------------------------------------------------------------

  /** Every turn of the run finds the gaps it meets served. */
  ghost predicate TurnsOk(h: Handler, es: seq<Event>, symbols: set<string>, s: string)
    decreases |es|
  {
    es == []
    || ((es[0].Worked? ==> TurnOk(h, es[0].rest, s))
        && TurnsOk(Feed.Apply(h, es[0], symbols), es[1..], symbols, s))
  }

  lemma {:induction false} ConnectedReceipt(hdb: Hdb, h: Handler, payload: Option<Record>, later: seq<Record>,
                                            symbols: set<string>, s: string,
                                            floor: Option<int>, today: int)
    requires Inv(hdb, h, s, floor, today) && s in symbols && |h.queue| < QUEUE_MAXSIZE
    requires Connection(Share(h.queue + (ArrivalOf(Received(payload)) + later), s), Last(h.lastId, s), s in h.pending)
    requires FineRecords(ArrivalOf(Received(payload)), today)
    ensures EventOk(h, Received(payload), s, today)
    ensures var next := Feed.OnMessage(h, payload);
            Inv(hdb, next, s, floor, today)
            && Connection(Share(next.queue + later, s), Last(next.lastId, s), s in next.pending)
  {
    hide Connection, LedgerOf, FineRecords, Share;
    ReceiptStep(h, payload, later, s);
    if payload.Some? {
      var q := h.queue + [payload.value];
      ShareConcat(q, later, s);
      ConnectionPrefix(Share(q, s), Share(later, s), Last(h.lastId, s), s in h.pending);
    }
    EventKeepsInv(hdb, h, Received(payload), symbols, s, floor, today);
  }

  lemma {:induction false} ConnectedTurn(hdb: Hdb, h: Handler, rest: Exchange, later: seq<Record>, s: string,
                                         floor: Option<int>, today: int)
    requires Inv(hdb, h, s, floor, today) && TurnOk(h, rest, s)
    requires Connection(Share(h.queue + later, s), Last(h.lastId, s), s in h.pending)
    ensures var next := Work(h, rest);
            Inv(hdb, next, s, floor, today)
            && Connection(Share(next.queue + later, s), Last(next.lastId, s), s in next.pending)
  {
    hide Connection, Inv, Share, TurnOk, Work, Top;
    WorkKeepsInv(hdb, h, rest, s, floor, today);
    WorkQueue(h, rest);
    TurnComesFirst(h, later, s);
    ConnectionSuffix(TurnShare(h, s), Share(Work(h, rest).queue + later, s), Last(h.lastId, s), s in h.pending);
  }

  /** Receipts and turns are allowed, however they interleave, while what is queued and to come for the
      symbol is one connection. */
  lemma {:induction false} ConnectionRunOk(hdb: Hdb, h: Handler, es: seq<Event>, symbols: set<string>, s: string,
                                           floor: Option<int>, today: int)
    requires Inv(hdb, h, s, floor, today) && s in symbols && Steady(h, es, symbols) && TurnsOk(h, es, symbols, s)
    requires Connection(ToCome(h, es, s), Last(h.lastId, s), s in h.pending) && FineRecords(Arrivals(es), today)
    ensures RunOk(h, es, symbols, s, today)
    decreases |es|
  {
    hide Connection, Inv, Share, TurnOk, Work, FineRecords;
    if es != [] {
      var later := Arrivals(es[1..]);
      FineRecordsConcat(ArrivalOf(es[0]), later, today);
      match es[0] {
        case Received(payload) =>
          ConnectedReceipt(hdb, h, payload, later, symbols, s, floor, today);
        case Worked(rest) =>
          assert ArrivalOf(es[0]) + later == later;
          ConnectedTurn(hdb, h, rest, later, s, floor, today);
      }
      ConnectionRunOk(hdb, Feed.Apply(h, es[0], symbols), es[1..], symbols, s, floor, today);
    }
  }

  ghost predicate NoHole(h: Handler, s: string, floor: Option<int>) {
    exists last :: Contig(Inserted(h, s), floor, last)
  }

  lemma {:induction false} JoinedWithoutHole(a: seq<Stamped<Trade>>, b: seq<Stamped<Trade>>, floor: Option<int>,
                                             last: Option<int>)
    requires a != [] && b != []
    ensures Contig(a + b, floor, last) ==> b[0].body.tradeID == a[|a| - 1].body.tradeID + 1
  {
    var rows := a + b;
    assert rows[|a| - 1] == a[|a| - 1] && rows[|a|] == b[0];
  }

  lemma SameLog(a: Handler, b: Handler, s: string)
    requires a.log == b.log
    ensures Inserted(a, s) == Inserted(b, s)
  {
  }

  lemma StoredConcat(a: seq<Msg<TradeData>>, b: seq<Msg<TradeData>>)
    ensures StoredTicks(a + b) == StoredTicks(a) + StoredTicks(b)
  {
  }

  /** A flagged turn that bridges a gap stores its new records after the bridged ones. */
  lemma {:induction false} JumpGroup(hdb: Hdb, h: Handler, s: string, group: seq<Msg<TradeData>>, ep: Endpoint,
                                     floor: Option<int>, last: int, today: int)
    requires LedgerOf(hdb, h, s, floor, Some(last), today) && Last(h.lastId, s) == Some(last)
    requires Own(group, s) && Rising(group, Some(last)) && NeedsBridge(h, s, group) && GapBridgeable(h, s, group, ep)
    ensures var v := ViewOf(ApplyGroup(h, s, group, ep), s);
            && v.last == Top(group, Some(last)) && !v.pending
            && IsTail(v.rows, StoredTicks(Fresh(group, Some(last))))
  {
    hide Ledger, Rising, Fresh, Top, FirstNew, KeepTrades, BridgeAndReload, CanBridge, Inserted;
    var first := FirstNew(group, Some(last)).value;
    GapClosed(hdb, h, s, ep, floor, last, first, today);
    FloorRaised(group, last, first);
    RisingBatch(group, Some(first - 1));
    KeepTradesView(Feed.MaybeRebridge(h, s, group, ep), s, group, s);
  }

  lemma NewIsThere<T>(group: seq<Msg<T>>, last: Option<int>)
    requires FirstNew(group, last).Some?
    ensures group != []
  {
  }

  lemma {:induction false} JumpTurn(hdb: Hdb, h: Handler, rest: Exchange, s: string, floor: Option<int>, last: int,
                                    today: int)
    requires LedgerOf(hdb, h, s, floor, Some(last), today) && Last(h.lastId, s) == Some(last)
    requires FineRecords(h.queue, today) && TurnOk(h, rest, s)
    requires Rising(TurnShare(h, s), Some(last)) && NeedsBridge(h, s, TurnShare(h, s))
    ensures var v := ViewOf(Work(h, rest), s);
            && v.last == Top(TurnShare(h, s), Some(last)) && !v.pending
            && IsTail(v.rows, StoredTicks(Fresh(TurnShare(h, s), Some(last))))
  {
    hide Ledger, Rising, Fresh, Top, FirstNew, Inserted, ApplyGroup, ApplyGroups, KeepQuoteGroups, CanBridge,
         BeforeGroup, Fine, IsTail;
    var n := BatchSize(h.queue);
    var trades, quotes := TradesOf(h.queue[..n]), QuotesOf(h.queue[..n]);
    var h0 := h.(queue := h.queue[n..]);
    SameLogView(h0, h, s);
    assert h.queue == h.queue[..n] + h.queue[n..];
    FineRecordsConcat(h.queue[..n], h.queue[n..], today);
    OrderMeaning(trades);
    NewIsThere(TurnShare(h, s), Some(last));
    GroupsView(h0, Order(trades), trades, rest, s);
    QuotesView(Feed.ApplyTrades(h0, trades, rest), Order(quotes), quotes, s);
    BeforeGroupView(h0, Order(trades), trades, rest, s);
    BeforeGroupLedger(hdb, h0, Order(trades), trades, rest, s, floor, Some(last), today);
    OfIsOwn(trades, s);
    JumpGroup(hdb, BeforeGroup(h0, Order(trades), trades, rest, s), s, Of(trades, s), rest(s), floor, last, today);
  }

  lemma NothingEnds(rows: seq<Stamped<Trade>>, s: string, last: Option<int>)
    ensures IsTail(rows, StoredTicks(Fresh(Share([], s), last)))
  {
  }

  lemma SameLedger(hdb: Hdb, a: Handler, b: Handler, s: string, floor: Option<int>, last: Option<int>, today: int)
    requires LedgerOf(hdb, a, s, floor, last, today) && a.roll == b.roll && a.log == b.log
    ensures LedgerOf(hdb, b, s, floor, last, today)
  {
  }

  lemma {:induction false} NothingNewConnects<T>(group: seq<Msg<T>>, last: Option<int>, flagged: bool)
    requires Fresh(group, last) == []
    ensures Connection(group, last, flagged)
  {
    FreshMeaning(group, last);
    TopBounds(group, last);
  }

  /** One turn of a flagged run that will bridge: nothing new yet, or the bridge and then the new records. */
  lemma {:induction false} JumpWork(hdb: Hdb, h: Handler, rest: Exchange, later: seq<Record>, s: string,
                                    floor: Option<int>, last: int, today: int)
    requires LedgerOf(hdb, h, s, floor, Some(last), today) && Last(h.lastId, s) == Some(last) && s in h.pending
    requires FineRecords(h.queue, today) && TurnOk(h, rest, s) && Rising(Share(h.queue + later, s), Some(last))
    requires var f := Fresh(Share(h.queue + later, s), Some(last)); f != [] ==> f[0].id > last + 1
    ensures var next, all, left := Work(h, rest), Share(h.queue + later, s), Share(Work(h, rest).queue + later, s);
            && FineRecords(next.queue, today) && Last(next.lastId, s).Some? && Rising(left, Last(next.lastId, s))
            && if s in next.pending
               then LedgerOf(hdb, next, s, floor, Some(last), today) && Last(next.lastId, s) == Some(last)
                    && Fresh(left, Some(last)) == Fresh(all, Some(last))
               else exists before :: IsTail(Inserted(next, s), StoredTicks(before))
                                     && Fresh(all, Some(last)) == before + Fresh(left, Last(next.lastId, s))
  {
    hide Ledger, FineRecords, Work, Inserted, Rising, Share, Fresh, Top, TurnOk, TurnShare, FirstNew, IsTail;
    var n, share := BatchSize(h.queue), TurnShare(h, s);
    var left := Share(h.queue[n..] + later, s);
    TurnComesFirst(h, later, s);
    WorkQueue(h, rest);
    assert h.queue == h.queue[..n] + h.queue[n..];
    FineRecordsConcat(h.queue[..n], h.queue[n..], today);
    RisingSplit(share, left, Some(last));
    FreshConcat(share, left, Some(last));
    FirstNewIsFirstKept(share, Some(last));
    if Fresh(share, Some(last)) == [] {
      QuietTurn(h, rest, s);
      NothingNewConnects(share, Some(last), true);
      WorkLedger(hdb, h, rest, s, floor, today);
      assert Fresh(share, Some(last)) + Fresh(left, Some(last)) == Fresh(left, Some(last));
    } else {
      TopMoved(share, Some(last));
      TopBounds(share, Some(last));
      JumpTurn(hdb, h, rest, s, floor, last, today);
      assert IsTail(Inserted(Work(h, rest), s), StoredTicks(Fresh(share, Some(last))));
    }
  }

  /** When the first record to be kept leaves a gap that is bridged, the new records are still stored last. */
  lemma {:induction false} JumpRun(hdb: Hdb, h: Handler, es: seq<Event>, symbols: set<string>, s: string,
                                   floor: Option<int>, last: int, today: int)
    requires LedgerOf(hdb, h, s, floor, Some(last), today) && Last(h.lastId, s) == Some(last) && s in h.pending
    requires FineRecords(h.queue, today) && FineRecords(Arrivals(es), today)
    requires Steady(h, es, symbols) && TurnsOk(h, es, symbols, s) && Feed.Run(h, es, symbols).queue == []
    requires Rising(ToCome(h, es, s), Some(last))
    requires var f := Fresh(ToCome(h, es, s), Some(last)); f != [] ==> f[0].id > last + 1
    ensures IsTail(Inserted(Feed.Run(h, es, symbols), s), StoredTicks(Fresh(ToCome(h, es, s), Some(last))))
    decreases |es|
  {
    hide LedgerOf, FineRecords, Work, Inserted, Rising, Share, Fresh, Top, TurnOk, TurnShare, FirstNew, IsTail;
    var later := if es == [] then [] else Arrivals(es[1..]);
    if es == [] {
      assert h.queue + Arrivals(es) == [];
      NothingEnds(Inserted(h, s), s, Some(last));
    } else {
      FineRecordsConcat(ArrivalOf(es[0]), later, today);
      match es[0] {
        case Received(payload) =>
          ReceiptStep(h, payload, later, s);
          SameLedger(hdb, h, Feed.OnMessage(h, payload), s, floor, Some(last), today);
          FineRecordsConcat(h.queue, ArrivalOf(es[0]), today);
          assert h.queue + [] == h.queue;
          JumpRun(hdb, Feed.OnMessage(h, payload), es[1..], symbols, s, floor, last, today);
        case Worked(rest) =>
          assert ArrivalOf(es[0]) + later == later;
          JumpWork(hdb, h, rest, later, s, floor, last, today);
          var next := Work(h, rest);
          if s in next.pending {
            JumpRun(hdb, next, es[1..], symbols, s, floor, last, today);
          } else {
            var before :| IsTail(Inserted(next, s), StoredTicks(before))
              && Fresh(Share(h.queue + later, s), Some(last))
                 == before + Fresh(Share(next.queue + later, s), Last(next.lastId, s));
            RunIsOneByOne(next, es[1..], symbols, s);
            var after := Fresh(Share(next.queue + later, s), Last(next.lastId, s));
            StoredConcat(before, after);
            TailLonger(Inserted(next, s), StoredTicks(before), StoredTicks(after));
          }
      }
    }
  }

  // --- a reconnect with a backlog -------------------------------------------------------------------------

  /** What arrives after the reconnect goes on from the backlog, with replays and at most one jump. If the
      flag was already up, or nothing is stored, the backlog may itself begin with a jump; an id below
      it must then be a replay as well, which otherwise it cannot fail to be (`RisingJoin`). */
  ghost predicate GoesOn(h: Handler, s: string, live: seq<Msg<TradeData>>) {
    var last, backlog := Last(h.lastId, s), Share(h.queue, s);
    && Connection(live, Top(backlog, last), true)
    && (last.None? || s in h.pending ==> Rising(backlog + live, last))
  }

  /** Nothing new of the symbol was queued, or the new connection leaves no gap after it. */
  ghost predicate NothingSkipped(backlog: seq<Msg<TradeData>>, live: seq<Msg<TradeData>>, last: Option<int>) {
    Fresh(backlog, last) == [] || Connection(live, Top(backlog, last), false)
  }

  /** Rows that end with the two streams have a hole where the second one skipped ids. */
  lemma {:induction false} SkippedStay(rows: seq<Stamped<Trade>>, backlog: seq<Msg<TradeData>>,
                                       live: seq<Msg<TradeData>>,
                                       floor: Option<int>, last: Option<int>, top: Option<int>)
    requires IsTail(rows, StoredTicks(Fresh(backlog + live, last)))
    requires Connection(live, Top(backlog, last), true) && !NothingSkipped(backlog, live, last)
    ensures !Contig(rows, floor, top)
  {
    hide Connection, Fresh, Top, Contig;
    var f, g := Fresh(backlog, last), Fresh(live, Top(backlog, last));
    FreshConcat(backlog, live, last);
    FreshMeaning(backlog, last);
    JumpIsFirst(live, f[|f| - 1].id);
    StoredConcat(f, g);
    var pre := rows[..|rows| - |f + g|];
    var a, b := pre + StoredTicks(f), StoredTicks(g);
    assert rows == a + b;
    assert a[|a| - 1] == StoredTick(f[|f| - 1]) && b[0] == StoredTick(g[0]);
    JoinedWithoutHole(a, b, floor, top);
  }

  /** With a new record queued at the reconnect and no gap before it, the new records are stored as they
      come and the ids the new connection skipped are never fetched, however receipts and turns
      interleave and whatever REST would have served. */
  lemma {:induction false} BacklogLosesGap(h: Handler, es: seq<Event>, symbols: set<string>, s: string,
                                           floor: Option<int>)
    requires h.connectedOnce && s in symbols
    requires Steady(OnConnect(h, symbols), es, symbols) && Feed.Run(OnConnect(h, symbols), es, symbols).queue == []
    requires FollowsOn(Share(h.queue, s) + Share(Arrivals(es), s), Last(h.lastId, s))
    requires Connection(Share(Arrivals(es), s), Top(Share(h.queue, s), Last(h.lastId, s)), true)
    requires !NothingSkipped(Share(h.queue, s), Share(Arrivals(es), s), Last(h.lastId, s))
    ensures var r := Feed.Run(OnConnect(h, symbols), es, symbols);
            var all := Share(h.queue, s) + Share(Arrivals(es), s);
            && Inserted(r, s) == Inserted(h, s) + StoredTicks(Fresh(all, Last(h.lastId, s)))
            && !NoHole(r, s, floor)
  {
    hide Steady, Inserted, Share, Feed.Run, Arrivals, Contig, Fresh, Top, Connection, FollowsOn, NothingSkipped;
    var h1, backlog, live, last := OnConnect(h, symbols), Share(h.queue, s), Share(Arrivals(es), s), Last(h.lastId, s);
    ShareConcat(h.queue, Arrivals(es), s);
    FlaggedRun(h1, es, symbols, s);
    SameLog(h, h1, s);
    var rows := Inserted(Feed.Run(h1, es, symbols), s);
    forall top ensures !Contig(rows, floor, top) {
      SkippedStay(rows, backlog, live, floor, last, top);
    }
  }

  lemma LedgerContig(hdb: Hdb, h: Handler, s: string, floor: Option<int>, last: Option<int>, today: int)
    requires LedgerOf(hdb, h, s, floor, last, today)
    ensures Contig(Inserted(h, s), floor, last)
  {
  }

  lemma {:induction false} GoesOnRising(h: Handler, s: string, live: seq<Msg<TradeData>>)
    requires Connection(Share(h.queue, s), Last(h.lastId, s), s in h.pending) && GoesOn(h, s, live)
    ensures Rising(Share(h.queue, s) + live, Last(h.lastId, s))
  {
    hide Connection, Rising, Top, Share;
    if Last(h.lastId, s).Some? && s !in h.pending {
      RisingJoin(Share(h.queue, s), live, Last(h.lastId, s).value, true);
    }
  }

  /** If nothing was skipped no id is missing, as long as the gaps the turns meet are served. */
  lemma {:induction false} NoGapKept(hdb: Hdb, h: Handler, es: seq<Event>, symbols: set<string>, s: string,
                                     floor: Option<int>, today: int)
    requires Inv(hdb, h, s, floor, today) && h.connectedOnce && s in symbols
    requires Steady(OnConnect(h, symbols), es, symbols) && FineRecords(Arrivals(es), today)
    requires TurnsOk(OnConnect(h, symbols), es, symbols, s) && GoesOn(h, s, Share(Arrivals(es), s))
    requires NothingSkipped(Share(h.queue, s), Share(Arrivals(es), s), Last(h.lastId, s))
    ensures NoHole(Feed.Run(OnConnect(h, symbols), es, symbols), s, floor)
  {
    hide Steady, Work, Inserted, Connection, Share, Feed.Run, TurnsOk, FineRecords, RunOk, Fresh, Top, Rising, Contig;
    var h1, backlog, live, last := OnConnect(h, symbols), Share(h.queue, s), Share(Arrivals(es), s), Last(h.lastId, s);
    GoesOnRising(h, s, live);
    EventKeepsInv(hdb, h, Connected, symbols, s, floor, today);
    ShareConcat(h.queue, Arrivals(es), s);
    TopMoved(backlog, last);
    ConnectionJoin(backlog, live, last, true);
    ConnectionRunOk(hdb, h1, es, symbols, s, floor, today);
    RunKeepsInv(hdb, h1, es, symbols, s, floor, today);
    var r := Feed.Run(h1, es, symbols);
    LedgerContig(hdb, r, s, floor, Last(r.lastId, s), today);
  }

  /** If something was skipped behind a new record, the ids are missing, even when a gap before that
      record is bridged. */
  lemma {:induction false} GapStays(hdb: Hdb, h: Handler, es: seq<Event>, symbols: set<string>, s: string,
                                    floor: Option<int>, today: int)
    requires Inv(hdb, h, s, floor, today) && h.connectedOnce && s in symbols
    requires Steady(OnConnect(h, symbols), es, symbols) && FineRecords(Arrivals(es), today)
    requires TurnsOk(OnConnect(h, symbols), es, symbols, s) && Feed.Run(OnConnect(h, symbols), es, symbols).queue == []
    requires GoesOn(h, s, Share(Arrivals(es), s))
    requires !NothingSkipped(Share(h.queue, s), Share(Arrivals(es), s), Last(h.lastId, s))
    ensures !NoHole(Feed.Run(OnConnect(h, symbols), es, symbols), s, floor)
  {
    hide Steady, Work, Inserted, Connection, Share, Feed.Run, TurnsOk, FineRecords, RunOk, Fresh, Top, Rising, Contig,
         Arrivals,
         NothingSkipped, Ledger;
    var h1, backlog, live, last := OnConnect(h, symbols), Share(h.queue, s), Share(Arrivals(es), s), Last(h.lastId, s);
    GoesOnRising(h, s, live);
    ShareConcat(h.queue, Arrivals(es), s);
    FreshMeaning(backlog + live, last);
    if FollowsOn(backlog + live, last) {
      BacklogLosesGap(h, es, symbols, s, floor);
    } else {
      JumpRun(hdb, h1, es, symbols, s, floor, last.value, today);
      var rows := Inserted(Feed.Run(h1, es, symbols), s);
      forall top ensures !Contig(rows, floor, top) {
        SkippedStay(rows, backlog, live, floor, last, top);
      }
    }
  }

  /** The flag of a reconnect is cleared by any new record, also by one that was already queued.
      Let a handler whose ledger is in order reconnect with the symbol's records `backlog` still
      queued, and let `live` arrive afterwards, in any interleaving of receipts and turns and among
      any other records, until the queue is empty. Both may hold replays. No id is missing if and
      only if nothing new of the symbol was queued, or the new connection leaves no gap after it. */
  lemma {:induction false} BacklogClearsFlag(hdb: Hdb, h: Handler, es: seq<Event>, symbols: set<string>, s: string,
                                             floor: Option<int>, today: int)
    requires Inv(hdb, h, s, floor, today) && h.connectedOnce && s in symbols
    requires Steady(OnConnect(h, symbols), es, symbols) && FineRecords(Arrivals(es), today)
    requires TurnsOk(OnConnect(h, symbols), es, symbols, s) && Feed.Run(OnConnect(h, symbols), es, symbols).queue == []
    requires GoesOn(h, s, Share(Arrivals(es), s))
    ensures NoHole(Feed.Run(h, [Connected] + es, symbols), s, floor)
            <==> NothingSkipped(Share(h.queue, s), Share(Arrivals(es), s), Last(h.lastId, s))
  {
    hide Inv, Steady, FineRecords, TurnsOk, Share, Feed.OnConnect, NoHole, Arrivals, GoesOn, NothingSkipped;
    assert ([Connected] + es)[1..] == es;
    assert Feed.Run(h, [Connected] + es, symbols) == Feed.Run(OnConnect(h, symbols), es, symbols);
    if NothingSkipped(Share(h.queue, s), Share(Arrivals(es), s), Last(h.lastId, s)) {
      NoGapKept(hdb, h, es, symbols, s, floor, today);
    } else {
      GapStays(hdb, h, es, symbols, s, floor, today);
    }
  }

  // --- a concrete run ------------------------------------------------------------------------------------

  function Live(id: int): Msg<TradeData> {
    Msg(id, BTC, 0, TradeData(1.0, 1.0, false))
  }

  function Arrived(id: int): Event {
    Received(Some(TradeRecord(Live(id))))
  }

  /** A first connection with trade 1 taken and trade 2 still queued. */
  function Before(rest: Exchange): seq<Event> {
    [Connected, Arrived(1), Worked(rest), Arrived(2)]
  }

  /** The new connection begins with trade 5, taken in a turn of its own or together with the backlog. */
  function After(rest: Exchange, together: bool): seq<Event> {
    if together then [Arrived(5), Worked(rest)] else [Worked(rest), Arrived(5), Worked(rest)]
  }

  lemma ShareOfOne(id: int)
    ensures Share([TradeRecord(Live(id))], BTC) == [Live(id)]
  {
    var r := [TradeRecord(Live(id))];
    assert r[1..] == [] && TradesOf(r) == [Live(id)] + TradesOf([]);
    assert Of([Live(id)], BTC) == [Live(id)] + Of([], BTC);
  }

  lemma {:induction false} StartView(rest: Exchange)
    ensures var h := Start(EMPTY_HDB, [BTC], rest);
            ViewOf(h, BTC) == View(None, true, []) && h.queue == [] && !h.connectedOnce
  {
    var h0 := New(EMPTY_HDB);
    assert MaxStoredId(h0.roll.db, BTC) == None;
    BridgeSkips(h0, BTC, None, rest(BTC));
    assert [BTC][1..] == [];
    assert CatchUpAll(h0, [BTC], rest) == CatchUp(h0, BTC, rest(BTC));
    assert BTC in [BTC];
  }

  lemma {:induction false} FirstTrade(h: Handler, rest: Exchange)
    requires ViewOf(h, BTC) == View(None, true, []) && h.queue == [TradeRecord(Live(1))]
    ensures ViewOf(Work(h, rest), BTC) == View(Some(1), false, StoredTicks([Live(1)])) && Work(h, rest).queue == []
    ensures Work(h, rest).connectedOnce == h.connectedOnce
  {
    hide Work, Inserted, Share;
    assert h.queue[..1] == h.queue;
    ShareOfOne(1);
    PlainTurnView(h, rest, BTC);
    WorkQueue(h, rest);
    assert SortById([Live(1)]) == [Live(1)];
    assert Fresh([Live(1)], None) == [Live(1)] + Fresh([], Some(1));
    assert [] + StoredTicks([Live(1)]) == StoredTicks([Live(1)]);
  }

  lemma {:induction false} OneStep(h: Handler, e: Event, es: seq<Event>)
    ensures Feed.Run(h, [e] + es, {BTC}) == Feed.Run(Feed.Apply(h, e, {BTC}), es, {BTC})
  {
    assert ([e] + es)[1..] == es;
  }

  lemma {:induction false} FourSteps(h: Handler, a: Event, b: Event, c: Event, d: Event)
    ensures Feed.Run(h, [a, b, c, d], {BTC})
            == Feed.Apply(Feed.Apply(Feed.Apply(Feed.Apply(h, a, {BTC}), b, {BTC}), c, {BTC}), d, {BTC})
  {
    hide Feed.Apply;
    var h1 := Feed.Apply(h, a, {BTC});
    var h2 := Feed.Apply(h1, b, {BTC});
    var h3 := Feed.Apply(h2, c, {BTC});
    assert [a] + [b, c, d] == [a, b, c, d] && [b] + [c, d] == [b, c, d] && [c] + [d] == [c, d] && [d] + [] == [d];
    OneStep(h, a, [b, c, d]);
    OneStep(h1, b, [c, d]);
    OneStep(h2, c, [d]);
    OneStep(h3, d, []);
  }

  /** Where the handler stands when the connection is lost. */
  lemma {:induction false} BeforeView(rest: Exchange)
    ensures var h := Feed.Run(Start(EMPTY_HDB, [BTC], rest), Before(rest), {BTC});
            && ViewOf(h, BTC) == View(Some(1), false, StoredTicks([Live(1)]))
            && h.queue == [TradeRecord(Live(2))] && h.connectedOnce
  {
    hide Work, Inserted, Start;
    var h0 := Start(EMPTY_HDB, [BTC], rest);
    StartView(rest);
    var h2 := OnMessage(OnConnect(h0, {BTC}), Some(TradeRecord(Live(1))));
    SameLog(h2, h0, BTC);
    assert [] + [TradeRecord(Live(1))] == [TradeRecord(Live(1))];
    FirstTrade(h2, rest);
    var h3 := Work(h2, rest);
    var h4 := OnMessage(h3, Some(TradeRecord(Live(2))));
    SameLog(h4, h3, BTC);
    FourSteps(h0, Connected, Arrived(1), Worked(rest), Arrived(2));
  }

  lemma {:induction false} ArrivesAndTurns(h: Handler, rest: Exchange)
    requires |h.queue| < BATCH_MAX
    ensures var es := [Arrived(5), Worked(rest)];
            && Steady(h, es, {BTC}) && Feed.Run(h, es, {BTC}).queue == []
            && Arrivals(es) == [TradeRecord(Live(5))]
  {
    hide Work;
    var e, w := Arrived(5), Worked(rest);
    var h2 := OnMessage(h, Some(TradeRecord(Live(5))));
    assert [e, w][1..] == [w] && [w][1..] == [] && [e] + [w] == [e, w] && [w] + [] == [w];
    assert Arrivals([w]) == [] && Arrivals([e, w]) == [TradeRecord(Live(5))] + Arrivals([w]);
    OneStep(h, e, [w]);
    OneStep(h2, w, []);
    WorkQueue(h2, rest);
    assert Steady(h2, [w], {BTC});
  }

  /** Both orders take everything that arrives. */
  lemma {:induction false} AfterTakesAll(h: Handler, rest: Exchange, together: bool)
    requires h.queue == [TradeRecord(Live(2))]
    ensures Steady(h, After(rest, together), {BTC}) && Feed.Run(h, After(rest, together), {BTC}).queue == []
    ensures Arrivals(After(rest, together)) == [TradeRecord(Live(5))]
  {
    hide Work;
    var tail, w := [Arrived(5), Worked(rest)], Worked(rest);
    if together {
      ArrivesAndTurns(h, rest);
    } else {
      assert After(rest, together) == [w] + tail && After(rest, together)[1..] == tail;
      WorkQueue(h, rest);
      ArrivesAndTurns(Work(h, rest), rest);
      OneStep(h, w, tail);
    }
  }

  lemma {:induction false} RunInParts(h: Handler, a: seq<Event>, b: seq<Event>, symbols: set<string>)
    ensures Feed.Run(h, a + b, symbols) == Feed.Run(Feed.Run(h, a, symbols), b, symbols)
    decreases |a|
  {
    hide Feed.Apply;
    if a == [] {
      assert a + b == b;
    } else {
      assert (a + b)[1..] == a[1..] + b && (a + b)[0] == a[0];
      RunInParts(Feed.Apply(h, a[0], symbols), a[1..], b, symbols);
    }
  }

  lemma {:induction false} TwoAndFive()
    ensures FollowsOn([Live(2)] + [Live(5)], Some(1)) && Fresh([Live(2)] + [Live(5)], Some(1)) == [Live(2), Live(5)]
    ensures Connection([Live(5)], Top([Live(2)], Some(1)), true) && !NothingSkipped([Live(2)], [Live(5)], Some(1))
  {
    var two, five := [Live(2)], [Live(5)];
    assert two[1..] == [] && five[1..] == [] && (two + five)[1..] == five;
    assert Fresh(five, Some(2)) == five + Fresh([], Some(5));
    assert Fresh(two, Some(1)) == two + Fresh([], Some(2)) && Top(two, Some(1)) == Some(2);
    assert Fresh(two + five, Some(1)) == two + Fresh(five, Some(2));
    assert five[..0] == [] && Top(five[..0], Some(2)) == Some(2) && five[0].id == 5;
    assert !HasId(five[..0], 5) && !NextAfter(five[..0], Some(2), false, five[0].id);
  }

  /** Trades 3 and 4 are lost for good: the run stores 1, 2 and 5, whatever REST would have served
      and whether or not the loop turns between the reconnect and trade 5. */
  lemma {:induction false} LostGapLeavesHole(rest: Exchange, together: bool)
    ensures var r := Feed.Run(Start(EMPTY_HDB, [BTC], rest), Before(rest) + [Connected] + After(rest, together), {BTC});
            && Inserted(r, BTC) == StoredTicks([Live(1), Live(2), Live(5)])
            && !NoHole(r, BTC, None)
  {
    hide Work, Inserted, Start, Before, After, Feed.Run, NoHole, Share, Steady;
    var h0 := Start(EMPTY_HDB, [BTC], rest);
    var h := Feed.Run(h0, Before(rest), {BTC});
    BeforeView(rest);
    ShareOfOne(2);
    ShareOfOne(5);
    var h1 := OnConnect(h, {BTC});
    AfterTakesAll(h1, rest, together);
    TwoAndFive();
    BacklogLosesGap(h, After(rest, together), {BTC}, BTC, None);
    RunInParts(h0, Before(rest), [Connected] + After(rest, together), {BTC});
    OneStep(h, Connected, After(rest, together));
    assert Before(rest) + [Connected] + After(rest, together) == Before(rest) + ([Connected] + After(rest, together));
    assert StoredTicks([Live(1)]) + StoredTicks([Live(2), Live(5)]) == StoredTicks([Live(1), Live(2), Live(5)]);
  }
}
