/** The feed handler object: its methods do exactly what the state machine says. */
module FeedHandlers {
  import opened Kdb
  import opened MaxId
  import opened Dedup
  import opened Feed
  import opened Options
  import Bridge
  import Roller

  /** A bridge ends that closes the gap before a flagged symbol's first new trade, if there is one. */
  ghost predicate RebridgeEnds(h: Handler, sym: string, group: seq<Msg<TradeData>>, ep: Endpoint) {
    var last, first := Last(h.lastId, sym), FirstNew(group, Last(h.lastId, sym));
    last.Some? && first.Some? && first.value > last.value + 1
    ==> Bridge.BridgeEnds(h.roll.db, ep.fetch, 0, sym, first, TRADES_LIMIT)
  }

  /** Every bridge that the groups call for ends. */
  ghost predicate GroupsEnd(h: Handler, syms: seq<string>, trades: seq<Msg<TradeData>>, rest: Exchange)
    decreases |syms|
  {
    syms == []
    || ((syms[0] in h.pending ==> RebridgeEnds(h, syms[0], Of(trades, syms[0]), rest(syms[0])))
        && GroupsEnd(ApplyGroup(h, syms[0], Of(trades, syms[0]), rest(syms[0])), syms[1..], trades, rest))
  }

  /** Every bridge of a turn ends. */
  ghost predicate TurnEnds(h: Handler, rest: Exchange) {
    var n := BatchSize(h.queue);
    var trades := TradesOf(h.queue[..n]);
    GroupsEnd(h.(queue := h.queue[n..]), Order(trades), trades, rest)
  }

  /** Every bridge of the catch-up ends. */
  ghost predicate CatchUpEnds(h: Handler, syms: seq<string>, rest: Exchange)
    decreases |syms|
  {
    syms == []
    || (Bridge.BridgeEnds(h.roll.db, rest(syms[0]).fetch, 0, syms[0], None, TRADES_LIMIT)
        && CatchUpEnds(CatchUp(h, syms[0], rest(syms[0])), syms[1..], rest))
  }

  /** Each endpoint answers with the first trades at or above the id asked for, of an exchange
      that grows only at its tip. */
  ghost predicate AllHonest(rest: Exchange) {
    forall s: string {:trigger rest(s)} ::
      Bridge.Honest(rest(s).fetch, rest(s).held, TRADES_LIMIT) && Bridge.GrowsAtTip(rest(s).held)
  }

  /** With honest endpoints every turn ends, whatever the handler holds. */
  lemma {:induction false} HonestGroupsEnd(h: Handler, syms: seq<string>, trades: seq<Msg<TradeData>>, rest: Exchange)
    requires AllHonest(rest)
    ensures GroupsEnd(h, syms, trades, rest)
    decreases |syms|
  {
    hide ApplyGroup, Bridge.Ends, Bridge.Honest, Bridge.GrowsAtTip;
    if syms != [] {
      var sym := syms[0];
      var ep, first, floor := rest(sym), FirstNew(Of(trades, sym), Last(h.lastId, sym)), MaxStoredId(h.roll.db, sym);
      if first.Some? && floor.Some? {
        Bridge.HonestEnds(ep.fetch, ep.held, 0, floor.value + 1, first, TRADES_LIMIT, first.value);
      }
      HonestGroupsEnd(ApplyGroup(h, sym, Of(trades, sym), ep), syms[1..], trades, rest);
    }
  }

  class FeedHandler {
    const writer: Process
    const roller: Roller.RdbRoller
    const symbols: seq<string>
    var lastId: map<string, Option<int>>
    var lastQuoteId: map<string, Option<int>>
    var pendingRebridge: set<string>
    var queue: seq<Record>
    var dropped: nat
    var connectedOnce: bool
    ghost var log: seq<Roller.Event>

    ghost predicate Valid()
      reads this
    {
      roller.writer == writer
    }

    ghost function Model(): Handler
      reads this, roller, roller.writer
    {
      Handler(roller.Model(), lastId, lastQuoteId, pendingRebridge, queue, dropped, connectedOnce, log)
    }

    constructor (symbols: seq<string>, writer: Process)
      ensures Valid() && this.writer == writer && this.symbols == symbols && fresh(roller)
      ensures writer.Model() == old(writer.Model())
      ensures Model() == Feed.New(writer.hdb).(roll := Roller.State(writer.Model(), None, []))
    {
      this.symbols, this.writer := symbols, writer;
      roller := new Roller.RdbRoller(writer);
      lastId, lastQuoteId, pendingRebridge := map[], map[], {};
      queue, dropped, connectedOnce, log := [], 0, false, [];
    }

    // --- the network thread --------------------------------------------------------------

    method OnConnect()
      modifies this
      ensures Model() == Feed.OnConnect(old(Model()), Tracked(symbols))
    {
      if connectedOnce {
        pendingRebridge := Tracked(symbols);
      } else {
        connectedOnce := true;
      }
    }

    method OnMessage(payload: Option<Record>)
      modifies this
      ensures Model() == Feed.OnMessage(old(Model()), payload)
    {
      match payload
      case None =>
      case Some(r) =>
        if |queue| < QUEUE_MAXSIZE {
          queue := queue + [r];
        } else {
          dropped := dropped + 1;
        }
    }

    // --- the main thread -----------------------------------------------------------------

    /** The bridge and the reload of the last stored id. */
    method BridgeTo(sym: string, target: Option<int>, ep: Endpoint)
      requires Valid() && Bridge.BridgeEnds(writer.Model(), ep.fetch, 0, sym, target, TRADES_LIMIT)
      modifies this, writer
      ensures Valid() && Model() == BridgeAndReload(old(Model()), sym, target, ep)
    {
      ghost var floor := MaxStoredId(writer.Model(), sym);
      log := log + BridgeLog(floor, sym, target, ep);
      var inserted, fromId, next := Bridge.BridgeSymbol(writer, ep.fetch, 0, sym, target, TRADES_LIMIT);
      var top := MaxStoredId(Db(writer.trade, writer.quote, writer.hdb), sym);
      lastId := lastId[sym := top];
    }

    method MaybeRebridge(sym: string, group: seq<Msg<TradeData>>, ep: Endpoint)
      requires Valid() && RebridgeEnds(Model(), sym, group, ep)
      modifies this, writer
      ensures Valid() && Model() == Feed.MaybeRebridge(old(Model()), sym, group, ep)
    {
      var last := Last(lastId, sym);
      var first := FirstNew(group, last);
      if first.None? {
        return;
      }
      if last.Some? && first.value > last.value + 1 {
        BridgeTo(sym, first, ep);
      }
      pendingRebridge := pendingRebridge - {sym};
    }

    /** Dedup one symbol's trades, advance its floor and feed what is left. */
    method KeepGroup(sym: string, group: seq<Msg<TradeData>>) returns (count: nat)
      requires Valid()
      modifies this, roller, writer
      ensures Valid() && Model() == KeepTrades(old(Model()), sym, group)
      ensures count == |Fresh(SortById(group), Last(old(lastId), sym))|
    {
      var kept, top := KeepFresh(group, Last(lastId, sym));
      lastId := lastId[sym := top];
      if kept != [] {
        var rows := ParseTicks(kept);
        log := log + [Roller.Fed(rows)];
        var inserted, rolled := roller.FeedTrades(rows);
      }
      count := |kept|;
    }

    method KeepQuoteGroup(sym: string, group: seq<Msg<QuoteData>>) returns (count: nat)
      requires Valid()
      modifies this, roller, writer
      ensures Valid() && Model() == KeepQuotes(old(Model()), sym, group)
      ensures count == |Fresh(SortById(group), Last(old(lastQuoteId), sym))|
    {
      var kept, top := KeepFresh(group, Last(lastQuoteId, sym));
      lastQuoteId := lastQuoteId[sym := top];
      if kept != [] {
        var rows := ParseQuotes(kept);
        log := log + [Roller.FedQuotes(rows)];
        var inserted, rolled := roller.FeedQuotes(rows);
      }
      count := |kept|;
    }

    method ApplyTrades(trades: seq<Msg<TradeData>>, rest: Exchange) returns (total: nat)
      requires Valid() && GroupsEnd(Model(), Order(trades), trades, rest)
      modifies this, roller, writer
      ensures Valid() && Model() == Feed.ApplyTrades(old(Model()), trades, rest)
    {
      var order, groups := BySymbol(trades);
      total := 0;
      ghost var goal := ApplyGroups(Model(), order, trades, rest);
      var i := 0;
      while i < |order|
        invariant 0 <= i <= |order|
        invariant Valid()
        invariant ApplyGroups(Model(), order[i..], trades, rest) == goal
        invariant GroupsEnd(Model(), order[i..], trades, rest)
      {
        assert order[i..][0] == order[i] && order[i..][1..] == order[i + 1..];
        var sym := order[i];
        assert sym in order && groups[sym] == Of(trades, sym);
        if sym in pendingRebridge {
          MaybeRebridge(sym, groups[sym], rest(sym));
        }
        var count := KeepGroup(sym, groups[sym]);
        total := total + count;
        i := i + 1;
      }
    }

    method ApplyQuotes(quotes: seq<Msg<QuoteData>>) returns (total: nat)
      requires Valid()
      modifies this, roller, writer
      ensures Valid() && Model() == Feed.ApplyQuotes(old(Model()), quotes)
    {
      var order, groups := BySymbol(quotes);
      total := 0;
      ghost var goal := KeepQuoteGroups(Model(), order, quotes);
      var i := 0;
      while i < |order|
        invariant 0 <= i <= |order|
        invariant Valid()
        invariant KeepQuoteGroups(Model(), order[i..], quotes) == goal
      {
        assert order[i..][0] == order[i] && order[i..][1..] == order[i + 1..];
        var sym := order[i];
        assert sym in order && groups[sym] == Of(quotes, sym);
        var count := KeepQuoteGroup(sym, groups[sym]);
        total := total + count;
        i := i + 1;
      }
    }

    /** Coalesce the first record with whatever else is queued. */
    method Drain(first: Record) returns (batch: seq<Record>)
      modifies this`queue
      ensures batch + queue == [first] + old(queue)
      ensures |batch| == BATCH_MAX || (|batch| < BATCH_MAX && queue == [])
    {
      batch := [first];
      while |batch| < BATCH_MAX
        invariant 1 <= |batch| <= BATCH_MAX
        invariant batch + queue == [first] + old(queue)
        decreases |queue|
      {
        if queue == [] {
          break;
        }
        batch := batch + [queue[0]];
        queue := queue[1..];
      }
    }

    /** One turn of the main loop on a non-empty queue. */
    method Turn(rest: Exchange)
      requires Valid() && queue != [] && TurnEnds(Model(), rest)
      modifies this, roller, writer
      ensures Valid() && Model() == Work(old(Model()), rest)
    {
      ghost var was := queue;
      var first := queue[0];
      queue := queue[1..];
      var batch := Drain(first);
      assert [first] + was[1..] == was;
      assert |batch| == BatchSize(was);
      assert batch == (batch + queue)[..|batch|] && queue == (batch + queue)[|batch|..];
      var total := ApplyTrades(TradesOf(batch), rest);
      total := ApplyQuotes(QuotesOf(batch));
    }

    /** The catch-up before connecting. */
    method CatchUpSymbols(rest: Exchange)
      requires Valid() && CatchUpEnds(Model(), symbols, rest)
      modifies this, writer
      ensures Valid()
      ensures Model() == CatchUpAll(old(Model()), symbols, rest).(pending := Tracked(symbols))
    {
      hide BridgeAndReload, MaxStoredQuoteId, Bridge.BridgeEnds;
      ghost var goal := CatchUpAll(Model(), symbols, rest);
      var i := 0;
      while i < |symbols|
        invariant 0 <= i <= |symbols|
        invariant Valid()
        invariant CatchUpAll(Model(), symbols[i..], rest) == goal
        invariant CatchUpEnds(Model(), symbols[i..], rest)
      {
        assert symbols[i..][0] == symbols[i] && symbols[i..][1..] == symbols[i + 1..];
        var sym := symbols[i];
        BridgeTo(sym, None, rest(sym));
        var top := MaxStoredQuoteId(Db(writer.trade, writer.quote, writer.hdb), sym);
        lastQuoteId := lastQuoteId[sym := top];
        i := i + 1;
      }
      pendingRebridge := Tracked(symbols);
    }

    /** Flush the current day. */
    method Shutdown()
      requires Valid()
      modifies roller, writer
      ensures roller.Model() == Roller.Flush(old(roller.Model()))
    {
      var day := roller.FlushDay();
    }
  }
}
