/** What one symbol's quotes see of the feed handler. Trades, bridges, reconnects and other symbols do not
    change it, and neither does the way the feed is cut into turns of the main loop. */
module QuoteViews {
  import opened Buckets
  import opened Dedup
  import opened Feed
  import opened Kdb
  import opened MaxId
  import opened QuoteBars
  import opened Views
  import opened Options

  /** The floor of the symbol's quotes, and its quotes stored so far, in order. */
  datatype QuoteView = QuoteView(last: Option<int>, rows: seq<Stamped<Quote>>)

  function QuoteViewOf(h: Handler, s: string): QuoteView {
    QuoteView(Last(h.lastQuoteId, s), OfSym(Roller.QuotesIn(h.log), s))
  }

  function StoredQuote(m: Msg<QuoteData>): Stamped<Quote> {
    Stamped(Ms2ts(Bridge.ToMillis(m.time)), Quote(m.id, m.body.bid, m.body.bidSize, m.body.ask, m.body.askSize))
  }

  /** One symbol's live quotes as stored. */
  function StoredQuotes(ms: seq<Msg<QuoteData>>): (t: seq<Stamped<Quote>>)
    ensures |t| == |ms| && forall i :: 0 <= i < |t| ==> t[i] == StoredQuote(ms[i])
  {
    seq(|ms|, i requires 0 <= i < |ms| => StoredQuote(ms[i]))
  }

  /** The view once the records have been processed one by one. */
  function After(v: QuoteView, all: seq<Msg<QuoteData>>): QuoteView {
    QuoteView(Top(all, v.last), v.rows + StoredQuotes(Fresh(all, v.last)))
  }

  lemma AfterNothing(v: QuoteView)
    ensures After(v, []) == v
  {
    assert v.rows + StoredQuotes([]) == v.rows;
  }

  lemma {:induction false} AfterBoth(v: QuoteView, a: seq<Msg<QuoteData>>, b: seq<Msg<QuoteData>>)
    ensures After(After(v, a), b) == After(v, a + b)
  {
    FreshConcat(a, b, v.last);
    var f, g := Fresh(a, v.last), Fresh(b, Top(a, v.last));
    assert StoredQuotes(f + g) == StoredQuotes(f) + StoredQuotes(g);
    assert v.rows + StoredQuotes(f) + StoredQuotes(g) == v.rows + (StoredQuotes(f) + StoredQuotes(g));
  }

  // --- one group ------------------------------------------------------------------------------

  lemma {:induction false} QuotesOfSym(ms: seq<Msg<QuoteData>>, s: string, u: string)
    requires Own(ms, s)
    ensures OfSym(Stamp(ParseQuotes(ms)), u) == if u == s then StoredQuotes(ms) else []
  {
    OfSymOwn(Stamp(ParseQuotes(ms)), s, u);
    assert OfSym(Stamp(ParseQuotes(ms)), s) == StoredQuotes(ms);
  }

  /** A group moves its own symbol's view and no other. */
  lemma {:induction false} KeepMovesOwn(h: Handler, sym: string, group: seq<Msg<QuoteData>>, s: string)
    requires Own(group, sym)
    ensures QuoteViewOf(KeepQuotes(h, sym, group), s)
            == if s == sym then After(QuoteViewOf(h, s), SortById(group)) else QuoteViewOf(h, s)
  {
    hide SortById, Fresh, Top, OfSym, Roller.FeedQuote;
    var top := Last(h.lastQuoteId, sym);
    var kept := Fresh(SortById(group), top);
    FreshIsOwn(group, top, sym);
    if kept != [] {
      Roller.QuotesInMore(h.log, Roller.FedQuotes(ParseQuotes(kept)), s);
      QuotesOfSym(kept, sym, s);
    }
    assert OfSym(Roller.QuotesIn(h.log), s) + [] == OfSym(Roller.QuotesIn(h.log), s);
  }

  lemma {:induction false} BridgeKeepsQuotes(h: Handler, sym: string, target: Option<int>, ep: Endpoint, s: string)
    ensures QuoteViewOf(BridgeAndReload(h, sym, target, ep), s) == QuoteViewOf(h, s)
  {
    match MaxStoredId(h.roll.db, sym)
    case None => assert h.log + [] == h.log;
    case Some(f) => Roller.QuotesInMore(h.log, Roller.Bridged(BridgedRows(sym, f, target, ep)), s);
  }

  /** A trade group, bridging or not, leaves the quotes alone. */
  lemma {:induction false} TradesKeepQuotes(h: Handler, sym: string, group: seq<Msg<TradeData>>, ep: Endpoint,
                                            s: string)
    ensures QuoteViewOf(ApplyGroup(h, sym, group, ep), s) == QuoteViewOf(h, s)
  {
    hide SortById, Fresh, Top, OfSym, BridgeAndReload, Roller.Feed, Roller.QuotesIn;
    var r := if sym in h.pending then Feed.MaybeRebridge(h, sym, group, ep) else h;
    var first := FirstNew(group, Last(h.lastId, sym));
    if first.Some? {
      BridgeKeepsQuotes(h, sym, first, ep, s);
    }
    assert QuoteViewOf(r, s) == QuoteViewOf(h, s);
    var kept := Fresh(SortById(group), Last(r.lastId, sym));
    if kept != [] {
      Roller.QuotesInMore(r.log, Roller.Fed(ParseTicks(kept)), s);
    }
    assert OfSym(Roller.QuotesIn(r.log), s) + [] == OfSym(Roller.QuotesIn(r.log), s);
  }

  lemma {:induction false} GroupsKeepQuotes(h: Handler, syms: seq<string>, trades: seq<Msg<TradeData>>, rest: Exchange,
                                            s: string)
    ensures QuoteViewOf(ApplyGroups(h, syms, trades, rest), s) == QuoteViewOf(h, s)
    decreases |syms|
  {
    hide ApplyGroup, QuoteViewOf;
    if syms != [] {
      TradesKeepQuotes(h, syms[0], Of(trades, syms[0]), rest(syms[0]), s);
      GroupsKeepQuotes(ApplyGroup(h, syms[0], Of(trades, syms[0]), rest(syms[0])), syms[1..], trades, rest, s);
    }
  }

  lemma {:induction false} QuoteGroupsMove(h: Handler, syms: seq<string>, quotes: seq<Msg<QuoteData>>, s: string)
    requires NoRepeats(syms)
    ensures QuoteViewOf(KeepQuoteGroups(h, syms, quotes), s)
            == if s in syms then After(QuoteViewOf(h, s), SortById(Of(quotes, s))) else QuoteViewOf(h, s)
    decreases |syms|
  {
    hide KeepQuotes, QuoteViewOf, After, SortById, Of;
    if syms != [] {
      OfIsOwn(quotes, syms[0]);
      KeepMovesOwn(h, syms[0], Of(quotes, syms[0]), s);
      assert forall i :: 0 <= i < |syms[1..]| ==> syms[1..][i] == syms[i + 1];
      assert syms == [syms[0]] + syms[1..];
      QuoteGroupsMove(KeepQuotes(h, syms[0], Of(quotes, syms[0])), syms[1..], quotes, s);
    }
  }

  // --- one turn --------------------------------------------------------------------------------

  /** The symbol's quotes among the records. */
  function QuoteShare(records: seq<Record>, s: string): seq<Msg<QuoteData>> {
    Of(QuotesOf(records), s)
  }

  lemma QuoteShareConcat(a: seq<Record>, b: seq<Record>, s: string)
    ensures QuoteShare(a + b, s) == QuoteShare(a, s) + QuoteShare(b, s)
  {
    QuotesOfConcat(a, b);
    OfConcat(QuotesOf(a), QuotesOf(b), s);
  }

  lemma {:induction false} QuoteTurn(h: Handler, rest: Exchange, s: string)
    ensures QuoteViewOf(Work(h, rest), s)
            == After(QuoteViewOf(h, s), SortById(QuoteShare(h.queue[..BatchSize(h.queue)], s)))
  {
    hide ApplyGroups, KeepQuoteGroups, OfSym, After;
    var n := BatchSize(h.queue);
    var trades, quotes := TradesOf(h.queue[..n]), QuotesOf(h.queue[..n]);
    var h0 := h.(queue := h.queue[n..]);
    GroupsKeepQuotes(h0, Order(trades), trades, rest, s);
    OrderMeaning(quotes);
    QuoteGroupsMove(ApplyGroups(h0, Order(trades), trades, rest), Order(quotes), quotes, s);
    if s !in Order(quotes) {
      assert SortById(Of(quotes, s)) == [];
      AfterNothing(QuoteViewOf(h, s));
    }
  }

  /** Whatever order a turn's records come in, it stores of a symbol's quotes the first of each id above the
      floor, once, ascending, and moves the floor to the last one stored. */
  lemma TurnStoresFirstQuotes(h: Handler, rest: Exchange, s: string)
    ensures var share, v, r := QuoteShare(h.queue[..BatchSize(h.queue)], s), QuoteViewOf(h, s),
                               QuoteViewOf(Work(h, rest), s);
            exists f: seq<Msg<QuoteData>> ::
              && FirstArrivals(f, share, v.last) && r.rows == v.rows + StoredQuotes(f)
              && r.last == if f == [] then v.last else Some(f[|f| - 1].id)
  {
    hide Work, FirstArrivals, QuoteShare, QuoteViewOf;
    var share, last := QuoteShare(h.queue[..BatchSize(h.queue)], s), QuoteViewOf(h, s).last;
    QuoteTurn(h, rest, s);
    BatchKeepsFirstArrivals(share, last);
    TopIsLastKept(SortById(share), last);
    assert FirstArrivals(Fresh(SortById(share), last), share, last);
  }

  // --- any cutting of the feed --------------------------------------------------------------------

  /** No record is lost to a full queue; reconnects may come at any time. */
  ghost predicate Roomy(h: Handler, es: seq<Event>, symbols: set<string>)
    decreases |es|
  {
    es == []
    || ((es[0].Received? ==> |h.queue| < QUEUE_MAXSIZE)
        && Roomy(Feed.Apply(h, es[0], symbols), es[1..], symbols))
  }

  function QuotesToCome(h: Handler, es: seq<Event>, s: string): seq<Msg<QuoteData>> {
    QuoteShare(h.queue + Arrivals(es), s)
  }

  lemma {:induction false} SortedTurn(v: QuoteView, batch: seq<Msg<QuoteData>>, left: seq<Msg<QuoteData>>)
    requires Rising(batch + left, v.last)
    ensures var w := After(v, SortById(batch));
            Rising(left, w.last) && After(w, left) == After(v, batch + left)
  {
    hide SortById, Rising, Fresh, Top, StoredQuotes;
    RisingSplit(batch, left, v.last);
    RisingBatch(batch, v.last);
    AfterBoth(v, batch, left);
  }

  lemma SameQuoteLog(a: Handler, b: Handler, s: string)
    requires a.log == b.log && a.lastQuoteId == b.lastQuoteId
    ensures QuoteViewOf(a, s) == QuoteViewOf(b, s)
  {
  }

  lemma LastOfView(h: Handler, s: string)
    ensures QuoteViewOf(h, s).last == Last(h.lastQuoteId, s)
  {
  }

  lemma {:induction false} QuoteStep(h: Handler, e: Event, later: seq<Record>, symbols: set<string>, s: string)
    requires e.Received? ==> |h.queue| < QUEUE_MAXSIZE
    requires Rising(QuoteShare(h.queue + (ArrivalOf(e) + later), s), Last(h.lastQuoteId, s))
    ensures var next := Feed.Apply(h, e, symbols);
            && Rising(QuoteShare(next.queue + later, s), Last(next.lastQuoteId, s))
            && After(QuoteViewOf(next, s), QuoteShare(next.queue + later, s))
               == After(QuoteViewOf(h, s), QuoteShare(h.queue + (ArrivalOf(e) + later), s))
  {
    hide Work, OfSym, Rising, After, QuoteShare, Roller.QuotesIn;
    var next := Feed.Apply(h, e, symbols);
    match e {
      case Connected =>
        assert ArrivalOf(e) + later == later;
        SameQuoteLog(h, next, s);
      case Received(payload) =>
        assert next.queue + later == h.queue + (ArrivalOf(e) + later);
        SameQuoteLog(h, next, s);
      case Worked(rest) =>
        var n := BatchSize(h.queue);
        assert h.queue + (ArrivalOf(e) + later) == h.queue[..n] + (h.queue[n..] + later);
        WorkQueue(h, rest);
        QuoteTurn(h, rest, s);
        QuoteShareConcat(h.queue[..n], h.queue[n..] + later, s);
        SortedTurn(QuoteViewOf(h, s), QuoteShare(h.queue[..n], s), QuoteShare(h.queue[n..] + later, s));
        LastOfView(next, s);
    }
  }

  lemma NoShare(s: string)
    ensures QuoteShare([], s) == []
  {
  }

  lemma {:induction false} QuoteRun(h: Handler, es: seq<Event>, symbols: set<string>, s: string)
    requires Roomy(h, es, symbols) && Rising(QuotesToCome(h, es, s), Last(h.lastQuoteId, s))
    requires Feed.Run(h, es, symbols).queue == []
    ensures QuoteViewOf(Feed.Run(h, es, symbols), s) == After(QuoteViewOf(h, s), QuotesToCome(h, es, s))
    decreases |es|
  {
    hide Feed.Apply, Rising, After, QuoteShare, QuoteViewOf;
    if es == [] {
      assert h.queue + Arrivals(es) == [];
      NoShare(s);
      AfterNothing(QuoteViewOf(h, s));
    } else {
      QuoteStep(h, es[0], Arrivals(es[1..]), symbols, s);
      QuoteRun(Feed.Apply(h, es[0], symbols), es[1..], symbols, s);
    }
  }

  /** However receipts, reconnects and turns of the main loop interleave, and however the loop cuts the feed
      of all symbols into batches, once the queue is empty a symbol's stored quotes and floor are those of
      processing its quotes one by one: the first arrival of each id above the floor, once, ascending. */
  lemma {:induction false} QuoteOrderDoesNotMatter(h: Handler, es: seq<Event>, symbols: set<string>, s: string)
    requires Roomy(h, es, symbols) && Rising(QuotesToCome(h, es, s), Last(h.lastQuoteId, s))
    requires Feed.Run(h, es, symbols).queue == []
    ensures var all, v, r := QuotesToCome(h, es, s), QuoteViewOf(h, s), QuoteViewOf(Feed.Run(h, es, symbols), s);
            && r.rows == v.rows + StoredQuotes(Fresh(all, v.last))
            && r.last == Top(all, v.last)
            && FirstArrivals(Fresh(all, v.last), all, v.last)
  {
    RisingKeepsFirstArrivals(QuotesToCome(h, es, s), Last(h.lastQuoteId, s));
    QuoteRun(h, es, symbols, s);
  }

  // --- from the archive ---------------------------------------------------------------------------

  /** `v` is the update id of a stored quote of the symbol. */
  ghost predicate ArchivedQuote(hdb: Hdb, s: string, v: int) {
    exists d, i :: 0 <= i < |SliceAt(hdb.quote, d, s)| && SliceAt(hdb.quote, d, s)[i].body.updateID == v
  }

  /** `top` is the greatest update id stored, if there is one. */
  ghost predicate GreatestQuote(hdb: Hdb, s: string, top: Option<int>) {
    match top
    case None => forall v: int :: !ArchivedQuote(hdb, s, v)
    case Some(m) => ArchivedQuote(hdb, s, m) && forall v: int :: ArchivedQuote(hdb, s, v) ==> v <= m
  }

  lemma ArchivedIsStored(hdb: Hdb, s: string, v: int)
    ensures ArchivedQuote(hdb, s, v) <==> StoredId([], hdb.quote, UpdateId, s, v)
  {
    if ArchivedQuote(hdb, s, v) {
      var d, i :| 0 <= i < |SliceAt(hdb.quote, d, s)| && SliceAt(hdb.quote, d, s)[i].body.updateID == v;
      assert SliceAt(hdb.quote, d, s)[i] in SliceAt(hdb.quote, d, s);
      assert Has(SliceAt(hdb.quote, d, s), UpdateId, v);
    }
    if StoredId([], hdb.quote, UpdateId, s, v) {
      var d :| Has(SliceAt(hdb.quote, d, s), UpdateId, v);
      var r :| r in SliceAt(hdb.quote, d, s) && UpdateId(r.body) == v;
      var i :| 0 <= i < |SliceAt(hdb.quote, d, s)| && SliceAt(hdb.quote, d, s)[i] == r;
    }
  }

  /** The catch-up stores no quotes, and sets the symbol's quote floor by the lookup. */
  lemma CatchUpQuotes(h: Handler, sym: string, ep: Endpoint)
    ensures var r := CatchUp(h, sym, ep);
            && r.roll.db.quote == h.roll.db.quote && r.roll.db.hdb == h.roll.db.hdb
            && r.queue == h.queue && Roller.QuotesIn(r.log) == Roller.QuotesIn(h.log)
            && r.lastQuoteId == h.lastQuoteId[sym := MaxStoredQuoteId(h.roll.db, sym)]
  {
    hide Bridge.Paged;
    match MaxStoredId(h.roll.db, sym)
    case None =>
      assert h.log + [] == h.log;
    case Some(f) =>
      var e := Roller.Bridged(BridgedRows(sym, f, None, ep));
      assert (h.log + [e])[..|h.log|] == h.log;
  }

  lemma {:induction false} CatchUpAllQuotes(h: Handler, syms: seq<string>, rest: Exchange, s: string)
    requires s in syms || Last(h.lastQuoteId, s) == MaxStoredQuoteId(h.roll.db, s)
    ensures var r := CatchUpAll(h, syms, rest);
            && r.queue == h.queue && Roller.QuotesIn(r.log) == Roller.QuotesIn(h.log)
            && Last(r.lastQuoteId, s) == MaxStoredQuoteId(h.roll.db, s)
    decreases |syms|
  {
    hide CatchUp;
    if syms != [] {
      CatchUpQuotes(h, syms[0], rest(syms[0]));
      var next := CatchUp(h, syms[0], rest(syms[0]));
      assert s in syms ==> s == syms[0] || s in syms[1..];
      assert MaxStoredQuoteId(next.roll.db, s) == MaxStoredQuoteId(h.roll.db, s);
      CatchUpAllQuotes(next, syms[1..], rest, s);
    }
  }

  lemma {:induction false} StartQuotes(hdb: Hdb, syms: seq<string>, rest: Exchange, s: string)
    requires s in syms
    ensures var h := Start(hdb, syms, rest);
            && h.queue == [] && QuoteViewOf(h, s) == QuoteView(MaxStoredQuoteId(Db([], [], hdb), s), [])
  {
    CatchUpAllQuotes(New(hdb), syms, rest, s);
  }

  /** After the catch-up a symbol's quote floor is the greatest stored update id exactly if the newest
      partition with quotes holds some of the symbol, or none does; ids rise with the day. */
  lemma {:induction false} StartFloorIff(hdb: Hdb, syms: seq<string>, rest: Exchange, s: string)
    requires s in syms && QuotesRise(Db([], [], hdb), s)
    ensures GreatestQuote(hdb, s, Last(Start(hdb, syms, rest).lastQuoteId, s)) <==> Findable([], hdb.quote, s)
  {
    hide Lookup, Findable, IdsRise;
    StartQuotes(hdb, syms, rest, s);
    var top := MaxStoredQuoteId(Db([], [], hdb), s);
    assert Last(Start(hdb, syms, rest).lastQuoteId, s) == QuoteViewOf(Start(hdb, syms, rest), s).last == top;
    forall v ensures ArchivedQuote(hdb, s, v) <==> StoredId([], hdb.quote, UpdateId, s, v) {
      ArchivedIsStored(hdb, s, v);
    }
    LookupExactIff([], hdb.quote, UpdateId, s);
  }

  /** Being above the greatest id stored is being above every one. */
  lemma AboveEveryOne(hdb: Hdb, s: string, top: Option<int>, id: int)
    requires GreatestQuote(hdb, s, top)
    ensures Above(top, id) <==> forall v: int :: ArchivedQuote(hdb, s, v) ==> v < id
  {
    hide ArchivedQuote;
  }

  /** `rows` are the first arrivals, ascending, of exactly the ids above every one already stored. */
  ghost predicate OnlyNewer(hdb: Hdb, s: string, all: seq<Msg<QuoteData>>, rows: seq<Stamped<Quote>>) {
    exists kept: seq<Msg<QuoteData>> ::
      && rows == StoredQuotes(kept)
      && AscendingRecords(kept)
      && (forall i :: 0 <= i < |kept| ==> HasId(all, kept[i].id) && kept[i] == FirstWith(all, kept[i].id))
      && (forall id: int :: HasId(kept, id) <==>
            HasId(all, id) && forall v: int :: ArchivedQuote(hdb, s, v) ==> v < id)
  }

  lemma KeptAreNewer(hdb: Hdb, s: string, all: seq<Msg<QuoteData>>, kept: seq<Msg<QuoteData>>, top: Option<int>)
    requires GreatestQuote(hdb, s, top) && FirstArrivals(kept, all, top)
    ensures OnlyNewer(hdb, s, all, StoredQuotes(kept))
  {
    hide ArchivedQuote, GreatestQuote, HasId, AscendingRecords, Above, FirstWith;
    forall id: int ensures Above(top, id) <==> forall v: int :: ArchivedQuote(hdb, s, v) ==> v < id {
      AboveEveryOne(hdb, s, top, id);
    }
  }

  /** From the archive, through the catch-up and any run: once the queue is empty the quotes stored of a
      symbol are the first arrivals, ascending, of exactly those ids above every one already stored. */
  lemma {:induction false} QuotesFromStart(hdb: Hdb, syms: seq<string>, rest: Exchange, es: seq<Event>, s: string)
    requires s in syms && QuotesRise(Db([], [], hdb), s) && Findable([], hdb.quote, s)
    requires Roomy(Start(hdb, syms, rest), es, Tracked(syms))
    requires Rising(QuoteShare(Arrivals(es), s), MaxStoredQuoteId(Db([], [], hdb), s))
    requires Feed.Run(Start(hdb, syms, rest), es, Tracked(syms)).queue == []
    ensures var r := Feed.Run(Start(hdb, syms, rest), es, Tracked(syms));
            OnlyNewer(hdb, s, QuoteShare(Arrivals(es), s), OfSym(Roller.QuotesIn(r.log), s))
  {
    hide Feed.Run, Roomy, Rising, Start, MaxStoredQuoteId, Findable, QuotesRise, Fresh, QuoteShare, OfSym, OnlyNewer,
         FirstArrivals, GreatestQuote;
    var start, all := Start(hdb, syms, rest), QuoteShare(Arrivals(es), s);
    StartQuotes(hdb, syms, rest, s);
    StartFloorIff(hdb, syms, rest, s);
    LastOfView(start, s);
    var top := Last(start.lastQuoteId, s);
    assert start.queue + Arrivals(es) == Arrivals(es);
    QuoteOrderDoesNotMatter(start, es, Tracked(syms), s);
    assert [] + StoredQuotes(Fresh(all, top)) == StoredQuotes(Fresh(all, top));
    KeptAreNewer(hdb, s, all, Fresh(all, top), top);
  }
}
