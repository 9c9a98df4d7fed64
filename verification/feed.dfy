/** The live feed handler as a state machine: what each callback and each turn of the main loop
    makes of the handler's state. */
module Feed {
  import opened Buckets
  import opened Bars
  import opened QuoteBars
  import opened Kdb
  import opened MaxId
  import opened Dedup
  import opened Options
  import Bridge
  import Roller

  const QUEUE_MAXSIZE := 200_000

  const BATCH_MAX := 5_000

  const TRADES_LIMIT := 1000

  datatype TradeData = TradeData(price: real, qty: real, buyerMaker: bool)

  datatype QuoteData = QuoteData(bid: real, bidSize: real, ask: real, askSize: real)

  datatype Record = TradeRecord(trade: Msg<TradeData>) | QuoteRecord(quote: Msg<QuoteData>)

  function ParseTick(m: Msg<TradeData>): Stamped<Tick<Trade>> {
    Stamped(Bridge.ToMillis(m.time), Tick(m.sym, Trade(m.id, m.body.price, m.body.qty, m.body.buyerMaker)))
  }

  /** `parse_live_ticks`. */
  function ParseTicks(ms: seq<Msg<TradeData>>): (t: Table<Trade>)
    ensures |t| == |ms| && forall i :: 0 <= i < |t| ==> t[i] == ParseTick(ms[i])
  {
    seq(|ms|, i requires 0 <= i < |ms| => ParseTick(ms[i]))
  }

  function ParseQuote(m: Msg<QuoteData>): Stamped<Tick<Quote>> {
    Stamped(Bridge.ToMillis(m.time), Tick(m.sym, Quote(m.id, m.body.bid, m.body.bidSize, m.body.ask, m.body.askSize)))
  }

  /** `parse_live_quotes`. */
  function ParseQuotes(ms: seq<Msg<QuoteData>>): (t: Table<Quote>)
    ensures |t| == |ms| && forall i :: 0 <= i < |t| ==> t[i] == ParseQuote(ms[i])
  {
    seq(|ms|, i requires 0 <= i < |ms| => ParseQuote(ms[i]))
  }

  function TradesOf(batch: seq<Record>): seq<Msg<TradeData>> {
    if batch == [] then []
    else (if batch[0].TradeRecord? then [batch[0].trade] else []) + TradesOf(batch[1..])
  }

  function QuotesOf(batch: seq<Record>): seq<Msg<QuoteData>> {
    if batch == [] then []
    else (if batch[0].QuoteRecord? then [batch[0].quote] else []) + QuotesOf(batch[1..])
  }

  // --- grouping ---------------------------------------------------------------------------------

  /** The symbol's records, in order. */
  function Of<T>(items: seq<Msg<T>>, s: string): seq<Msg<T>> {
    if items == [] then [] else (if items[0].sym == s then [items[0]] else []) + Of(items[1..], s)
  }

  /** The symbols, in order of first appearance. */
  function Order<T>(items: seq<Msg<T>>): seq<string> {
    if items == [] then []
    else
      var o, sym := Order(items[..|items| - 1]), items[|items| - 1].sym;
      if sym in o then o else o + [sym]
  }

  lemma {:induction false} OfConcat<T>(a: seq<Msg<T>>, b: seq<Msg<T>>, s: string)
    ensures Of(a + b, s) == Of(a, s) + Of(b, s)
  {
    if a == [] {
      assert a + b == b;
    } else {
      var x := if a[0].sym == s then [a[0]] else [];
      assert (a + b)[1..] == a[1..] + b && (a + b)[0] == a[0];
      OfConcat(a[1..], b, s);
      assert x + (Of(a[1..], s) + Of(b, s)) == (x + Of(a[1..], s)) + Of(b, s);
    }
  }

  lemma {:induction false} OfMembers<T>(items: seq<Msg<T>>, s: string)
    ensures forall m :: m in Of(items, s) <==> m in items && m.sym == s
  {
    if items != [] {
      OfMembers(items[1..], s);
      assert items == [items[0]] + items[1..];
    }
  }

  predicate NoRepeats(syms: seq<string>) {
    forall i, j :: 0 <= i < j < |syms| ==> syms[i] != syms[j]
  }

  /** Every symbol present is listed once. */
  lemma {:induction false} OrderMeaning<T>(items: seq<Msg<T>>)
    ensures NoRepeats(Order(items))
    ensures forall s :: s in Order(items) <==> Of(items, s) != []
  {
    if items != [] {
      var a, x := items[..|items| - 1], items[|items| - 1];
      OrderMeaning(a);
      assert items == a + [x];
      forall s ensures s in Order(items) <==> Of(items, s) != [] {
        OfConcat(a, [x], s);
      }
    }
  }

  lemma {:induction false} ListedIff<T>(items: seq<Msg<T>>, s: string)
    ensures s in Order(items) <==> exists k :: 0 <= k < |items| && items[k].sym == s
  {
    if items != [] {
      var a := items[..|items| - 1];
      ListedIff(a, s);
      assert forall k :: 0 <= k < |a| ==> a[k] == items[k];
      if s in Order(a) {
        var k :| 0 <= k < |a| && a[k].sym == s;
        assert items[k].sym == s;
      }
    }
  }

  /** The symbol's first record is record `k`. */
  predicate FirstAt<T>(items: seq<Msg<T>>, s: string, k: nat) {
    k < |items| && items[k].sym == s && forall l :: 0 <= l < k ==> items[l].sym != s
  }

  /** Symbols are listed in the order of their first records. */
  lemma {:induction false} OrderOfAppearance<T>(items: seq<Msg<T>>, i: nat, j: nat, k: nat, l: nat)
    requires i < j < |Order(items)| && FirstAt(items, Order(items)[i], k) && FirstAt(items, Order(items)[j], l)
    ensures k < l
  {
    var a := items[..|items| - 1];
    var first, second := Order(items)[i], Order(items)[j];
    assert first == Order(a)[i] && first in Order(a);
    ListedIff(a, first);
    var m :| 0 <= m < |a| && a[m].sym == first;
    assert items[m].sym == first && k <= m;
    ListedIff(a, second);
    if j < |Order(a)| {
      assert second in Order(a);
      var n :| 0 <= n < |a| && a[n].sym == second;
      assert items[n].sym == second && l <= n;
      OrderOfAppearance(a, i, j, k, l);
    } else {
      assert forall n :: 0 <= n < |a| ==> a[n].sym != second;
    }
  }

  /** `groups` maps each symbol present to its records. */
  ghost predicate Grouped<T>(items: seq<Msg<T>>, order: seq<string>, groups: map<string, seq<Msg<T>>>) {
    && order == Order(items)
    && forall s {:trigger Of(items, s)} {:trigger s in groups} ::
         if s in groups then s in order && groups[s] == Of(items, s) else s !in order && Of(items, s) == []
  }

  lemma {:induction false} GroupedStep<T>(a: seq<Msg<T>>, it: Msg<T>, order: seq<string>,
                                          groups: map<string, seq<Msg<T>>>)
    requires Grouped(a, order, groups)
    ensures it.sym in groups ==> Grouped(a + [it], order, groups[it.sym := groups[it.sym] + [it]])
    ensures it.sym !in groups ==> Grouped(a + [it], order + [it.sym], groups[it.sym := [it]])
  {
    var b := a + [it];
    assert b[..|b| - 1] == a;
    forall s ensures Of(b, s) == Of(a, s) + if s == it.sym then [it] else [] {
      OfConcat(a, [it], s);
    }
    assert Of(a, it.sym) == if it.sym in groups then groups[it.sym] else [];
  }

  /** `_by_symbol`. */
  method BySymbol<T>(items: seq<Msg<T>>) returns (order: seq<string>, groups: map<string, seq<Msg<T>>>)
    ensures Grouped(items, order, groups)
  {
    order, groups := [], map[];
    var i := 0;
    while i < |items|
      invariant 0 <= i <= |items|
      invariant Grouped(items[..i], order, groups)
    {
      var it := items[i];
      assert items[..i + 1] == items[..i] + [it];
      GroupedStep(items[..i], it, order, groups);
      if it.sym in groups {
        groups := groups[it.sym := groups[it.sym] + [it]];
      } else {
        order := order + [it.sym];
        groups := groups[it.sym := [it]];
      }
      i := i + 1;
    }
    assert items[..i] == items;
  }

  // --- state ----------------------------------------------------------------------------------

  /** The REST endpoint for one symbol: the client's requests, and what the exchange holds at each. */
  datatype Endpoint = Endpoint(fetch: Bridge.Client, held: nat -> seq<Bridge.Rest>)

  type Exchange = string -> Endpoint

  /** `log` is a history variable: everything put into the store, in order. */
  datatype Handler = Handler(
    roll: Roller.State,
    lastId: map<string, Option<int>>,
    lastQuoteId: map<string, Option<int>>,
    pending: set<string>,
    queue: seq<Record>,
    dropped: nat,
    connectedOnce: bool,
    log: seq<Roller.Event>)

  function Last(ids: map<string, Option<int>>, s: string): Option<int> {
    if s in ids then ids[s] else None
  }

  /** The least id above the last one. */
  function FirstNew<T>(items: seq<Msg<T>>, last: Option<int>): Option<int> {
    if items == [] then None
    else
      var f := FirstNew(items[1..], last);
      if !Above(last, items[0].id) then f
      else if f.None? || items[0].id < f.value then Some(items[0].id)
      else f
  }

  ghost function BridgedRows(sym: string, floor: int, target: Option<int>, ep: Endpoint): Table<Trade> {
    Bridge.ParseAll(Bridge.Paged(ep.fetch, 0, floor + 1, target, TRADES_LIMIT), sym)
  }

  ghost function BridgeLog(floor: Option<int>, sym: string, target: Option<int>, ep: Endpoint): seq<Roller.Event> {
    match floor
    case None => []
    case Some(f) => [Roller.Bridged(BridgedRows(sym, f, target, ep))]
  }

  /** `bridge` followed by re-reading the last stored id. */
  ghost function BridgeAndReload(h: Handler, sym: string, target: Option<int>, ep: Endpoint): Handler {
    var db := Bridge.Bridged(h.roll.db, ep.fetch, 0, sym, target, TRADES_LIMIT);
    h.(roll := h.roll.(db := db),
       lastId := h.lastId[sym := MaxStoredId(db, sym)],
       log := h.log + BridgeLog(MaxStoredId(h.roll.db, sym), sym, target, ep))
  }

  /** `_maybe_rebridge`. */
  ghost function MaybeRebridge(h: Handler, sym: string, group: seq<Msg<TradeData>>, ep: Endpoint): Handler {
    var last := Last(h.lastId, sym);
    match FirstNew(group, last)
    case None => h
    case Some(first) =>
      var r := if last.Some? && first > last.value + 1 then BridgeAndReload(h, sym, Some(first), ep) else h;
      r.(pending := r.pending - {sym})
  }

  function FeedTrades(h: Handler, rows: Table<Trade>): Handler {
    if rows == [] then h
    else h.(roll := Roller.Feed(h.roll, rows), log := h.log + [Roller.Fed(rows)])
  }

  function FeedQuotes(h: Handler, rows: Table<Quote>): Handler {
    if rows == [] then h
    else h.(roll := Roller.FeedQuote(h.roll, rows), log := h.log + [Roller.FedQuotes(rows)])
  }

  /** Dedup one symbol's trades and feed what is left. */
  function KeepTrades(h: Handler, sym: string, group: seq<Msg<TradeData>>): Handler {
    var sorted, last := SortById(group), Last(h.lastId, sym);
    FeedTrades(h.(lastId := h.lastId[sym := Top(sorted, last)]), ParseTicks(Fresh(sorted, last)))
  }

  function KeepQuotes(h: Handler, sym: string, group: seq<Msg<QuoteData>>): Handler {
    var sorted, last := SortById(group), Last(h.lastQuoteId, sym);
    FeedQuotes(h.(lastQuoteId := h.lastQuoteId[sym := Top(sorted, last)]), ParseQuotes(Fresh(sorted, last)))
  }

  /** The loop body of `_apply_trades`. */
  ghost function ApplyGroup(h: Handler, sym: string, group: seq<Msg<TradeData>>, ep: Endpoint): Handler {
    KeepTrades(if sym in h.pending then MaybeRebridge(h, sym, group, ep) else h, sym, group)
  }

  ghost function ApplyGroups(h: Handler, syms: seq<string>, trades: seq<Msg<TradeData>>, rest: Exchange): Handler
    decreases |syms|
  {
    if syms == [] then h
    else ApplyGroups(ApplyGroup(h, syms[0], Of(trades, syms[0]), rest(syms[0])), syms[1..], trades, rest)
  }

  function KeepQuoteGroups(h: Handler, syms: seq<string>, quotes: seq<Msg<QuoteData>>): Handler
    decreases |syms|
  {
    if syms == [] then h
    else KeepQuoteGroups(KeepQuotes(h, syms[0], Of(quotes, syms[0])), syms[1..], quotes)
  }

  ghost function ApplyTrades(h: Handler, trades: seq<Msg<TradeData>>, rest: Exchange): Handler {
    ApplyGroups(h, Order(trades), trades, rest)
  }

  function ApplyQuotes(h: Handler, quotes: seq<Msg<QuoteData>>): Handler {
    KeepQuoteGroups(h, Order(quotes), quotes)
  }

  /** How many queued records one turn takes. */
  function BatchSize(queue: seq<Record>): (n: nat)
    ensures n <= |queue| && n <= BATCH_MAX
    ensures queue != [] ==> n > 0
  {
    if |queue| < BATCH_MAX then |queue| else BATCH_MAX
  }

  /** One turn of the main loop; it does nothing on an empty queue. */
  ghost function Work(h: Handler, rest: Exchange): Handler {
    var n := BatchSize(h.queue);
    var batch := h.queue[..n];
    ApplyQuotes(ApplyTrades(h.(queue := h.queue[n..]), TradesOf(batch), rest), QuotesOf(batch))
  }

  /** A reconnect flags every tracked symbol; the first connect does not. */
  function OnConnect(h: Handler, symbols: set<string>): Handler {
    if h.connectedOnce then h.(pending := symbols) else h.(connectedOnce := true)
  }

  /** Enqueue a well-formed record, or count it as dropped when the queue is full. */
  function OnMessage(h: Handler, payload: Option<Record>): Handler {
    match payload
    case None => h
    case Some(r) =>
      if |h.queue| < QUEUE_MAXSIZE then h.(queue := h.queue + [r]) else h.(dropped := h.dropped + 1)
  }

  /** The catch-up of one symbol before the handler connects. */
  ghost function CatchUp(h: Handler, sym: string, ep: Endpoint): Handler {
    var r := BridgeAndReload(h, sym, None, ep);
    r.(lastQuoteId := r.lastQuoteId[sym := MaxStoredQuoteId(r.roll.db, sym)])
  }

  ghost function CatchUpAll(h: Handler, syms: seq<string>, rest: Exchange): Handler
    decreases |syms|
  {
    if syms == [] then h else CatchUpAll(CatchUp(h, syms[0], rest(syms[0])), syms[1..], rest)
  }

  /** A new handler over a store. */
  function New(hdb: Hdb): Handler {
    Handler(Roller.State(Db([], [], hdb), None, []), map[], map[], {}, [], 0, false, [])
  }

  function Tracked(syms: seq<string>): set<string> {
    set s | s in syms
  }

  /** `run` up to connecting: catch up each symbol, then flag them all. */
  ghost function Start(hdb: Hdb, syms: seq<string>, rest: Exchange): Handler {
    CatchUpAll(New(hdb), syms, rest).(pending := Tracked(syms))
  }

  // --- runs ------------------------------------------------------------------------------------

  datatype Event = Connected | Received(payload: Option<Record>) | Worked(rest: Exchange)

  ghost function Apply(h: Handler, e: Event, symbols: set<string>): Handler {
    match e
    case Connected => OnConnect(h, symbols)
    case Received(payload) => OnMessage(h, payload)
    case Worked(rest) => Work(h, rest)
  }

  ghost function Run(h: Handler, es: seq<Event>, symbols: set<string>): Handler
    decreases |es|
  {
    if es == [] then h else Run(Apply(h, es[0], symbols), es[1..], symbols)
  }
}
