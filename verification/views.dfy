/** What one symbol sees of the feed handler: its floor, its flag and its stored trades. Other
    symbols and quotes do not change that view, and neither does the way the feed is cut into
    turns of the main loop. */
module Views {
  import opened Buckets
  import opened Bars
  import opened Kdb
  import opened MaxId
  import opened Dedup
  import opened Feed
  import opened Options
  import Bridge
  import Roller

  /** One symbol's trades put into the store so far, in order. */
  function Inserted(h: Handler, s: string): seq<Stamped<Trade>> {
    OfSym(Roller.TradesIn(h.log), s)
  }

  datatype View = View(last: Option<int>, pending: bool, rows: seq<Stamped<Trade>>)

  function ViewOf(h: Handler, s: string): View {
    View(Last(h.lastId, s), s in h.pending, Inserted(h, s))
  }

  function StoredTick(m: Msg<TradeData>): Stamped<Trade> {
    Stamped(Ms2ts(Bridge.ToMillis(m.time)), Trade(m.id, m.body.price, m.body.qty, m.body.buyerMaker))
  }

  /** One symbol's live records as stored. */
  function StoredTicks(ms: seq<Msg<TradeData>>): (t: seq<Stamped<Trade>>)
    ensures |t| == |ms| && forall i :: 0 <= i < |t| ==> t[i] == StoredTick(ms[i])
  {
    seq(|ms|, i requires 0 <= i < |ms| => StoredTick(ms[i]))
  }

  /** All the records are the symbol's own. */
  predicate Own<T>(ms: seq<Msg<T>>, s: string) {
    forall i :: 0 <= i < |ms| ==> ms[i].sym == s
  }

  lemma {:induction false} OfIsOwn<T>(items: seq<Msg<T>>, s: string)
    ensures Own(Of(items, s), s)
  {
    if items != [] {
      OfIsOwn(items[1..], s);
    }
  }

  lemma {:induction false} FreshIsOwn<T>(items: seq<Msg<T>>, last: Option<int>, s: string)
    requires Own(items, s)
    ensures Own(Fresh(SortById(items), last), s)
  {
    BatchKeepsFirstArrivals(items, last);
    var f := Fresh(SortById(items), last);
    forall i | 0 <= i < |f| ensures f[i].sym == s {
      assert f[i] == FirstWith(items, f[i].id);
      assert f[i] in items;
    }
  }

  /** A table whose rows all belong to one symbol. */
  lemma {:induction false} OfSymOwn<T>(t: Table<T>, s: string, u: string)
    requires forall i :: 0 <= i < |t| ==> t[i].body.sym == s
    ensures u != s ==> OfSym(t, u) == []
    ensures |OfSym(t, s)| == |t| && forall i :: 0 <= i < |t| ==> OfSym(t, s)[i] == Stamped(t[i].time, t[i].body.body)
  {
    if t != [] {
      OfSymOwn(t[1..], s, u);
    }
  }

  lemma {:induction false} TicksOfSym(ms: seq<Msg<TradeData>>, s: string, u: string)
    requires Own(ms, s)
    ensures OfSym(Stamp(ParseTicks(ms)), u) == if u == s then StoredTicks(ms) else []
  {
    OfSymOwn(Stamp(ParseTicks(ms)), s, u);
    assert OfSym(Stamp(ParseTicks(ms)), s) == StoredTicks(ms);
  }

  // --- one group ----------------------------------------------------------------------------

  /** The view after a symbol's own trades have been deduplicated and fed. */
  function Fed(v: View, group: seq<Msg<TradeData>>): View {
    v.(last := Top(SortById(group), v.last), rows := v.rows + StoredTicks(Fresh(SortById(group), v.last)))
  }

  lemma {:induction false} LogTicks(log: seq<Roller.Event>, kept: seq<Msg<TradeData>>, sym: string, s: string)
    requires Own(kept, sym) && kept != []
    ensures OfSym(Roller.TradesIn(log + [Roller.Fed(ParseTicks(kept))]), s)
            == OfSym(Roller.TradesIn(log), s) + if s == sym then StoredTicks(kept) else []
  {
    Roller.TradesInMore(log, Roller.Fed(ParseTicks(kept)), s);
    TicksOfSym(kept, sym, s);
  }

  lemma {:induction false} KeepTradesView(h: Handler, sym: string, group: seq<Msg<TradeData>>, s: string)
    requires Own(group, sym)
    ensures ViewOf(KeepTrades(h, sym, group), s) == if s == sym then Fed(ViewOf(h, s), group) else ViewOf(h, s)
  {
    hide SortById, Top, Fresh, Roller.TradesIn;
    var kept := Fresh(SortById(group), Last(h.lastId, sym));
    FreshIsOwn(group, Last(h.lastId, sym), sym);
    if kept != [] {
      LogTicks(h.log, kept, sym, s);
    }
    assert Inserted(h, s) + [] == Inserted(h, s);
  }

  lemma {:induction false} KeepQuotesView(h: Handler, sym: string, group: seq<Msg<QuoteData>>, s: string)
    ensures ViewOf(KeepQuotes(h, sym, group), s) == ViewOf(h, s)
  {
    var kept := Fresh(SortById(group), Last(h.lastQuoteId, sym));
    if kept != [] {
      Roller.TradesInMore(h.log, Roller.FedQuotes(ParseQuotes(kept)), s);
    }
  }

  lemma {:induction false} LogOther(log: seq<Roller.Event>, rows: Table<Trade>, sym: string, s: string)
    requires s != sym && forall i :: 0 <= i < |rows| ==> rows[i].body.sym == sym
    ensures OfSym(Roller.TradesIn(log + [Roller.Bridged(rows)]), s) == OfSym(Roller.TradesIn(log), s)
  {
    Roller.TradesInMore(log, Roller.Bridged(rows), s);
    OfSymOwn(Stamp(rows), sym, s);
  }

  lemma {:induction false} BridgeLogOther(log: seq<Roller.Event>, floor: Option<int>, sym: string, target: Option<int>,
                                          ep: Endpoint, s: string)
    requires s != sym
    ensures OfSym(Roller.TradesIn(log + BridgeLog(floor, sym, target, ep)), s) == OfSym(Roller.TradesIn(log), s)
  {
    match floor
    case None => assert log + [] == log;
    case Some(f) => LogOther(log, BridgedRows(sym, f, target, ep), sym, s);
  }

  /** Bridging another symbol leaves the view alone. */
  lemma {:induction false} BridgeOtherView(h: Handler, sym: string, target: Option<int>, ep: Endpoint, s: string)
    requires s != sym
    ensures ViewOf(BridgeAndReload(h, sym, target, ep), s) == ViewOf(h, s)
  {
    BridgeLogOther(h.log, MaxStoredId(h.roll.db, sym), sym, target, ep, s);
  }

  lemma {:induction false} OtherGroupView(h: Handler, sym: string, group: seq<Msg<TradeData>>, ep: Endpoint, s: string)
    requires s != sym && Own(group, sym)
    ensures ViewOf(ApplyGroup(h, sym, group, ep), s) == ViewOf(h, s)
  {
    hide KeepTrades, Roller.TradesIn, OfSym, BridgeAndReload, FirstNew;
    if sym in h.pending {
      var first := FirstNew(group, Last(h.lastId, sym));
      if first.Some? {
        BridgeOtherView(h, sym, first, ep, s);
      }
      KeepTradesView(Feed.MaybeRebridge(h, sym, group, ep), sym, group, s);
    } else {
      KeepTradesView(h, sym, group, s);
    }
  }

  // --- one turn -------------------------------------------------------------------------------

  lemma {:induction false} QuotesView(h: Handler, syms: seq<string>, quotes: seq<Msg<QuoteData>>, s: string)
    ensures ViewOf(KeepQuoteGroups(h, syms, quotes), s) == ViewOf(h, s)
    decreases |syms|
  {
    if syms != [] {
      KeepQuotesView(h, syms[0], Of(quotes, syms[0]), s);
      QuotesView(KeepQuotes(h, syms[0], Of(quotes, syms[0])), syms[1..], quotes, s);
    }
  }

  /** The handler just before the symbol's own group is applied. */
  ghost function BeforeGroup(h: Handler, syms: seq<string>, trades: seq<Msg<TradeData>>, rest: Exchange,
                             s: string): Handler
    decreases |syms|
  {
    if syms == [] || syms[0] == s then h
    else BeforeGroup(ApplyGroup(h, syms[0], Of(trades, syms[0]), rest(syms[0])), syms[1..], trades, rest, s)
  }

  lemma {:induction false} BeforeGroupView(h: Handler, syms: seq<string>, trades: seq<Msg<TradeData>>, rest: Exchange,
                                           s: string)
    ensures ViewOf(BeforeGroup(h, syms, trades, rest, s), s) == ViewOf(h, s)
    decreases |syms|
  {
    if syms != [] && syms[0] != s {
      OfIsOwn(trades, syms[0]);
      OtherGroupView(h, syms[0], Of(trades, syms[0]), rest(syms[0]), s);
      BeforeGroupView(ApplyGroup(h, syms[0], Of(trades, syms[0]), rest(syms[0])), syms[1..], trades, rest, s);
    }
  }

  /** Only the symbol's own group changes its view. */
  lemma {:induction false} GroupsView(h: Handler, syms: seq<string>, trades: seq<Msg<TradeData>>, rest: Exchange,
                                      s: string)
    requires NoRepeats(syms)
    ensures ViewOf(ApplyGroups(h, syms, trades, rest), s)
            == if s in syms then ViewOf(ApplyGroup(BeforeGroup(h, syms, trades, rest, s), s, Of(trades, s), rest(s)), s)
               else ViewOf(h, s)
    decreases |syms|
  {
    hide ApplyGroup, Inserted;
    if syms != [] {
      var next := ApplyGroup(h, syms[0], Of(trades, syms[0]), rest(syms[0]));
      assert forall i :: 0 <= i < |syms[1..]| ==> syms[1..][i] == syms[i + 1];
      GroupsView(next, syms[1..], trades, rest, s);
      assert syms == [syms[0]] + syms[1..];
      if syms[0] != s {
        OfIsOwn(trades, syms[0]);
        OtherGroupView(h, syms[0], Of(trades, syms[0]), rest(syms[0]), s);
      }
    }
  }

  lemma FedNothing(v: View)
    ensures Fed(v, []) == v
  {
    assert v.rows + StoredTicks([]) == v.rows;
  }

  /** A turn on a symbol that is not flagged deduplicates and stores its share of the batch. */
  lemma {:induction false} SettledTurnView(h: Handler, rest: Exchange, s: string)
    requires s !in h.pending
    ensures ViewOf(Work(h, rest), s) == Fed(ViewOf(h, s), Of(TradesOf(h.queue[..BatchSize(h.queue)]), s))
  {
    var n := BatchSize(h.queue);
    var trades, quotes := TradesOf(h.queue[..n]), QuotesOf(h.queue[..n]);
    var h0 := h.(queue := h.queue[n..]);
    assert ViewOf(h0, s) == ViewOf(h, s);
    var h1 := Feed.ApplyTrades(h0, trades, rest);
    OrderMeaning(trades);
    GroupsView(h0, Order(trades), trades, rest, s);
    QuotesView(h1, Order(quotes), quotes, s);
    if s in Order(trades) {
      BeforeGroupView(h0, Order(trades), trades, rest, s);
      OfIsOwn(trades, s);
      KeepTradesView(BeforeGroup(h0, Order(trades), trades, rest, s), s, Of(trades, s), s);
    } else {
      FedNothing(ViewOf(h, s));
    }
  }

  predicate NoQuotes(es: seq<Roller.Event>) {
    forall i :: 0 <= i < |es| ==> !es[i].FedQuotes?
  }

  predicate OnlyQuotes(es: seq<Roller.Event>) {
    forall i :: 0 <= i < |es| ==> es[i].FedQuotes?
  }

  lemma GroupLog(h: Handler, sym: string, group: seq<Msg<TradeData>>, ep: Endpoint)
    ensures var r := ApplyGroup(h, sym, group, ep); h.log <= r.log && NoQuotes(r.log[|h.log|..])
  {
    hide Bridge.Bridged, MaxStoredId, FirstNew, SortById, Fresh, Top, Roller.Feed, ParseTicks, BridgedRows;
  }

  lemma LogJoins(a: seq<Roller.Event>, b: seq<Roller.Event>, c: seq<Roller.Event>)
    requires a <= b <= c && NoQuotes(b[|a|..]) && NoQuotes(c[|b|..])
    ensures a <= c && NoQuotes(c[|a|..])
  {
    assert c[|a|..] == b[|a|..] + c[|b|..];
  }

  lemma {:induction false} GroupsLog(h: Handler, syms: seq<string>, trades: seq<Msg<TradeData>>, rest: Exchange)
    ensures var r := ApplyGroups(h, syms, trades, rest);
            h.log <= r.log && NoQuotes(r.log[|h.log|..])
    decreases |syms|
  {
    if syms != [] {
      hide ApplyGroup, NoQuotes;
      var next := ApplyGroup(h, syms[0], Of(trades, syms[0]), rest(syms[0]));
      GroupLog(h, syms[0], Of(trades, syms[0]), rest(syms[0]));
      GroupsLog(next, syms[1..], trades, rest);
      LogJoins(h.log, next.log, ApplyGroups(next, syms[1..], trades, rest).log);
    }
  }

  lemma QuoteGroupLog(h: Handler, sym: string, group: seq<Msg<QuoteData>>)
    ensures var r := KeepQuotes(h, sym, group); h.log <= r.log && OnlyQuotes(r.log[|h.log|..])
  {
    hide SortById, Fresh, Top, Roller.FeedQuote, ParseQuotes;
  }

  lemma QuoteLogJoins(a: seq<Roller.Event>, b: seq<Roller.Event>, c: seq<Roller.Event>)
    requires a <= b <= c && OnlyQuotes(b[|a|..]) && OnlyQuotes(c[|b|..])
    ensures a <= c && OnlyQuotes(c[|a|..])
  {
    assert c[|a|..] == b[|a|..] + c[|b|..];
  }

  lemma {:induction false} QuoteGroupsLog(h: Handler, syms: seq<string>, quotes: seq<Msg<QuoteData>>)
    ensures var r := KeepQuoteGroups(h, syms, quotes);
            h.log <= r.log && OnlyQuotes(r.log[|h.log|..])
    decreases |syms|
  {
    if syms != [] {
      hide KeepQuotes, OnlyQuotes;
      var next := KeepQuotes(h, syms[0], Of(quotes, syms[0]));
      QuoteGroupLog(h, syms[0], Of(quotes, syms[0]));
      QuoteGroupsLog(next, syms[1..], quotes);
      QuoteLogJoins(h.log, next.log, KeepQuoteGroups(next, syms[1..], quotes).log);
    }
  }

  /** A turn stores all its trades, bridged ones included, before its quotes, so at midnight the trades decide
      which day the batch's quotes are filed under. */
  lemma TradesBeforeQuotes(h: Handler, rest: Exchange)
    ensures exists trades: seq<Roller.Event>, quotes: seq<Roller.Event> ::
              NoQuotes(trades) && OnlyQuotes(quotes) && Work(h, rest).log == h.log + trades + quotes
  {
    hide ApplyGroups, KeepQuoteGroups, NoQuotes, OnlyQuotes;
    var n := BatchSize(h.queue);
    var h0, trades, quotes := h.(queue := h.queue[n..]), TradesOf(h.queue[..n]), QuotesOf(h.queue[..n]);
    GroupsLog(h0, Order(trades), trades, rest);
    var h1 := Feed.ApplyTrades(h0, trades, rest);
    QuoteGroupsLog(h1, Order(quotes), quotes);
    var r := Work(h, rest);
    assert r.log == h.log + h1.log[|h.log|..] + r.log[|h1.log|..];
  }

  /** Whatever order a turn's records come in, it stores of a symbol that is not flagged the first of each
      id above the floor, once, ascending, and moves the floor to the last one stored. */
  lemma TurnStoresFirstArrivals(h: Handler, rest: Exchange, s: string)
    requires s !in h.pending
    ensures var share, r := Of(TradesOf(h.queue[..BatchSize(h.queue)]), s), Work(h, rest);
            exists f: seq<Msg<TradeData>> ::
              && FirstArrivals(f, share, Last(h.lastId, s))
              && Inserted(r, s) == Inserted(h, s) + StoredTicks(f)
              && Last(r.lastId, s) == if f == [] then Last(h.lastId, s) else Some(f[|f| - 1].id)
  {
    hide Work, FirstArrivals, Of, TradesOf, Inserted;
    var share, last := Of(TradesOf(h.queue[..BatchSize(h.queue)]), s), Last(h.lastId, s);
    SettledTurnView(h, rest, s);
    BatchKeepsFirstArrivals(share, last);
    TopIsLastKept(SortById(share), last);
    assert FirstArrivals(Fresh(SortById(share), last), share, last);
    assert ViewOf(Work(h, rest), s) == Fed(ViewOf(h, s), share);
  }

  // --- any cutting of the feed -------------------------------------------------------------------

  lemma {:induction false} TradesOfConcat(a: seq<Record>, b: seq<Record>)
    ensures TradesOf(a + b) == TradesOf(a) + TradesOf(b)
  {
    if a == [] {
      assert a + b == b;
    } else {
      assert (a + b)[1..] == a[1..] + b && (a + b)[0] == a[0];
      TradesOfConcat(a[1..], b);
      var x := if a[0].TradeRecord? then [a[0].trade] else [];
      assert x + (TradesOf(a[1..]) + TradesOf(b)) == (x + TradesOf(a[1..])) + TradesOf(b);
    }
  }

  lemma {:induction false} QuotesOfConcat(a: seq<Record>, b: seq<Record>)
    ensures QuotesOf(a + b) == QuotesOf(a) + QuotesOf(b)
  {
    if a == [] {
      assert a + b == b;
    } else {
      assert (a + b)[1..] == a[1..] + b && (a + b)[0] == a[0];
      QuotesOfConcat(a[1..], b);
      var x := if a[0].QuoteRecord? then [a[0].quote] else [];
      assert x + (QuotesOf(a[1..]) + QuotesOf(b)) == (x + QuotesOf(a[1..])) + QuotesOf(b);
    }
  }

  /** The symbol's trades among the records. */
  function Share(records: seq<Record>, s: string): seq<Msg<TradeData>> {
    Of(TradesOf(records), s)
  }

  lemma ShareConcat(a: seq<Record>, b: seq<Record>, s: string)
    ensures Share(a + b, s) == Share(a, s) + Share(b, s)
  {
    TradesOfConcat(a, b);
    OfConcat(TradesOf(a), TradesOf(b), s);
  }

  function ArrivalOf(e: Event): seq<Record> {
    if e.Received? && e.payload.Some? then [e.payload.value] else []
  }

  /** The well-formed records received, in order. */
  function Arrivals(es: seq<Event>): seq<Record> {
    if es == [] then [] else ArrivalOf(es[0]) + Arrivals(es[1..])
  }

  /** No reconnect, and no record lost to a full queue. */
  ghost predicate Steady(h: Handler, es: seq<Event>, symbols: set<string>)
    decreases |es|
  {
    es == [] || (!es[0].Connected? && (es[0].Received? ==> |h.queue| < QUEUE_MAXSIZE)
                 && Steady(Feed.Apply(h, es[0], symbols), es[1..], symbols))
  }

  lemma {:induction false} TurnSplit(v: View, batch: seq<Msg<TradeData>>, later: seq<Msg<TradeData>>)
    requires Rising(batch + later, v.last)
    ensures Rising(later, Fed(v, batch).last)
    ensures Fed(v, batch).rows + StoredTicks(Fresh(later, Fed(v, batch).last))
            == v.rows + StoredTicks(Fresh(batch + later, v.last))
    ensures Top(later, Fed(v, batch).last) == Top(batch + later, v.last)
  {
    hide Rising, SortById, Above;
    RisingSplit(batch, later, v.last);
    RisingBatch(batch, v.last);
    FreshConcat(batch, later, v.last);
    var a, b := Fresh(batch, v.last), Fresh(later, Top(batch, v.last));
    assert StoredTicks(a + b) == StoredTicks(a) + StoredTicks(b);
  }

  lemma {:induction false} GroupsQueue(h: Handler, syms: seq<string>, trades: seq<Msg<TradeData>>, rest: Exchange)
    ensures var r := ApplyGroups(h, syms, trades, rest);
            r.queue == h.queue && r.dropped == h.dropped && r.connectedOnce == h.connectedOnce
    decreases |syms|
  {
    if syms != [] {
      GroupsQueue(ApplyGroup(h, syms[0], Of(trades, syms[0]), rest(syms[0])), syms[1..], trades, rest);
    }
  }

  lemma {:induction false} QuotesQueue(h: Handler, syms: seq<string>, quotes: seq<Msg<QuoteData>>)
    ensures var r := KeepQuoteGroups(h, syms, quotes);
            r.queue == h.queue && r.dropped == h.dropped && r.connectedOnce == h.connectedOnce
    decreases |syms|
  {
    if syms != [] {
      QuotesQueue(KeepQuotes(h, syms[0], Of(quotes, syms[0])), syms[1..], quotes);
    }
  }

  lemma WorkQueue(h: Handler, rest: Exchange)
    ensures Work(h, rest).queue == h.queue[BatchSize(h.queue)..]
    ensures Work(h, rest).dropped == h.dropped && Work(h, rest).connectedOnce == h.connectedOnce
  {
    var n := BatchSize(h.queue);
    var h0, batch := h.(queue := h.queue[n..]), h.queue[..n];
    GroupsQueue(h0, Order(TradesOf(batch)), TradesOf(batch), rest);
    QuotesQueue(Feed.ApplyTrades(h0, TradesOf(batch), rest), Order(QuotesOf(batch)), QuotesOf(batch));
  }

  /** The view once all of the records have been processed one by one. */
  function OneByOne(v: View, all: seq<Msg<TradeData>>): View {
    v.(last := Top(all, v.last), rows := v.rows + StoredTicks(Fresh(all, v.last)))
  }

  /** What is queued or still to come for the symbol. */
  function ToCome(h: Handler, es: seq<Event>, s: string): seq<Msg<TradeData>> {
    Share(h.queue + Arrivals(es), s)
  }

  lemma {:induction false} ReceiptStep(h: Handler, payload: Option<Record>, later: seq<Record>, s: string)
    requires |h.queue| < QUEUE_MAXSIZE
    ensures var next := Feed.OnMessage(h, payload);
            && ViewOf(next, s) == ViewOf(h, s)
            && Share(next.queue + later, s) == Share(h.queue + (ArrivalOf(Received(payload)) + later), s)
  {
    assert Feed.OnMessage(h, payload).queue + later == h.queue + (ArrivalOf(Received(payload)) + later);
  }

  lemma {:induction false} BatchThenRest(v: View, batch: seq<Record>, later: seq<Record>, s: string)
    requires Rising(Share(batch + later, s), v.last)
    ensures var w := Fed(v, Share(batch, s));
            Rising(Share(later, s), w.last) && OneByOne(w, Share(later, s)) == OneByOne(v, Share(batch + later, s))
  {
    ShareConcat(batch, later, s);
    TurnSplit(v, Share(batch, s), Share(later, s));
  }

  lemma {:induction false} TurnStep(queue: seq<Record>, n: nat, later: seq<Record>, v: View, w: View, s: string)
    requires n <= |queue| && w == Fed(v, Share(queue[..n], s)) && Rising(Share(queue + later, s), v.last)
    ensures Rising(Share(queue[n..] + later, s), w.last)
    ensures OneByOne(w, Share(queue[n..] + later, s)) == OneByOne(v, Share(queue + later, s))
  {
    assert queue + later == queue[..n] + (queue[n..] + later);
    BatchThenRest(v, queue[..n], queue[n..] + later, s);
  }

  lemma {:induction false} StepIsOneByOne(h: Handler, e: Event, later: seq<Record>, symbols: set<string>, s: string)
    requires s !in h.pending && !e.Connected? && (e.Received? ==> |h.queue| < QUEUE_MAXSIZE)
    requires Rising(Share(h.queue + (ArrivalOf(e) + later), s), Last(h.lastId, s))
    ensures var next := Feed.Apply(h, e, symbols);
            && s !in next.pending && Rising(Share(next.queue + later, s), Last(next.lastId, s))
            && OneByOne(ViewOf(next, s), Share(next.queue + later, s))
               == OneByOne(ViewOf(h, s), Share(h.queue + (ArrivalOf(e) + later), s))
  {
    hide Inserted, Work, Rising, OneByOne, Of, SortById, Fresh, Top;
    var next := Feed.Apply(h, e, symbols);
    match e
    case Received(payload) =>
      ReceiptStep(h, payload, later, s);
      assert ViewOf(next, s) == ViewOf(h, s);
    case Worked(rest) =>
      WorkQueue(h, rest);
      SettledTurnView(h, rest, s);
      assert ArrivalOf(e) + later == later;
      TurnStep(h.queue, BatchSize(h.queue), later, ViewOf(h, s), ViewOf(next, s), s);
  }

  lemma {:induction false} RunIsOneByOne(h: Handler, es: seq<Event>, symbols: set<string>, s: string)
    requires s !in h.pending && Steady(h, es, symbols)
    requires Rising(ToCome(h, es, s), Last(h.lastId, s))
    requires Feed.Run(h, es, symbols).queue == []
    ensures ViewOf(Feed.Run(h, es, symbols), s) == OneByOne(ViewOf(h, s), ToCome(h, es, s))
    decreases |es|
  {
    if es == [] {
      assert h.queue + Arrivals(es) == [];
      assert Inserted(h, s) + StoredTicks([]) == Inserted(h, s);
    } else {
      StepIsOneByOne(h, es[0], Arrivals(es[1..]), symbols, s);
      RunIsOneByOne(Feed.Apply(h, es[0], symbols), es[1..], symbols, s);
    }
  }

  /** However receipts and turns of the main loop interleave, and however the loop cuts the
      interleaved feed of all symbols into batches, once the queue is empty a symbol's stored
      trades and floor are those of processing its records one by one, provided each of its ids is
      at or below the floor, a repeat, or above every earlier one: the first arrival of each id
      above the floor, once, ascending. */
  lemma {:induction false} DrainOrderDoesNotMatter(h: Handler, es: seq<Event>, symbols: set<string>, s: string)
    requires s !in h.pending && Steady(h, es, symbols)
    requires Rising(ToCome(h, es, s), Last(h.lastId, s))
    requires Feed.Run(h, es, symbols).queue == []
    ensures var all, r := ToCome(h, es, s), Feed.Run(h, es, symbols);
            var kept := Fresh(all, Last(h.lastId, s));
            && Inserted(r, s) == Inserted(h, s) + StoredTicks(kept)
            && Last(r.lastId, s) == Top(all, Last(h.lastId, s))
            && FirstArrivals(kept, all, Last(h.lastId, s))
  {
    RisingKeepsFirstArrivals(ToCome(h, es, s), Last(h.lastId, s));
    RunIsOneByOne(h, es, symbols, s);
  }
}
