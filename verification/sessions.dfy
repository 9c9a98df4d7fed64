/** Whole sessions of the feed handler: the catch-up, then any number of broker connections one after the
    other. What the environment must do is said of the streams alone, not of the handler's flags. The last
    section counts the records that pass through the queue. */
module Sessions {
  import opened Feed
  import opened HoleFree
  import opened Kdb
  import opened Ledgers
  import opened MaxId
  import opened Options
  import opened Reconnects
  import opened Views

  /** One connection after another; each event list holds the receipts and turns of one connection. */
  ghost function Session(h: Handler, conns: seq<seq<Event>>, symbols: set<string>): Handler
    decreases |conns|
  {
    if conns == [] then h else Session(Feed.Run(h, [Connected] + conns[0], symbols), conns[1..], symbols)
  }

  /** One connection: the queue was drained before it and is never full; what arrives of the symbol is, with
      replays, contiguous after its first new id, which may lie anywhere above what is stored; the gap in
      front of it is served by REST when a turn needs it. */
  ghost predicate ConnectionOk(h: Handler, es: seq<Event>, symbols: set<string>, s: string, today: int) {
    var next := Feed.Apply(h, Connected, symbols);
    && h.queue == [] && Steady(next, es, symbols) && FineRecords(Arrivals(es), today)
    && Connection(Share(Arrivals(es), s), Last(h.lastId, s), true)
    && TurnsOk(next, es, symbols, s)
  }

  ghost predicate SessionOk(h: Handler, conns: seq<seq<Event>>, symbols: set<string>, s: string, today: int)
    decreases |conns|
  {
    conns == []
    || (ConnectionOk(h, conns[0], symbols, s, today)
        && SessionOk(Feed.Run(h, [Connected] + conns[0], symbols), conns[1..], symbols, s, today))
  }

  /** The next connect leaves the symbol flagged. */
  predicate WillFlag(h: Handler, s: string) {
    h.connectedOnce || s in h.pending
  }

  lemma {:induction false} StaysConnected(h: Handler, es: seq<Event>, symbols: set<string>)
    requires h.connectedOnce
    ensures Feed.Run(h, es, symbols).connectedOnce
    decreases |es|
  {
    hide Work;
    if es != [] {
      if es[0].Worked? {
        WorkQueue(h, es[0].rest);
      }
      StaysConnected(Feed.Apply(h, es[0], symbols), es[1..], symbols);
    }
  }

  /** One connection keeps the invariant, whatever jump it begins with. */
  lemma {:induction false} OneConnection(hdb: Hdb, h: Handler, es: seq<Event>, symbols: set<string>, s: string,
                                         floor: Option<int>, today: int)
    requires Inv(hdb, h, s, floor, today) && WillFlag(h, s) && s in symbols
    requires ConnectionOk(h, es, symbols, s, today)
    ensures var r := Feed.Run(h, [Connected] + es, symbols); Inv(hdb, r, s, floor, today) && WillFlag(r, s)
  {
    hide Inv, Steady, FineRecords, TurnsOk, Share, Connection, Arrivals, RunOk;
    assert ([Connected] + es)[1..] == es;
    var next := Feed.Apply(h, Connected, symbols);
    assert Feed.Run(h, [Connected] + es, symbols) == Feed.Run(next, es, symbols);
    EventKeepsInv(hdb, h, Connected, symbols, s, floor, today);
    assert next.queue + Arrivals(es) == Arrivals(es);
    ConnectionRunOk(hdb, next, es, symbols, s, floor, today);
    RunKeepsInv(hdb, next, es, symbols, s, floor, today);
    StaysConnected(next, es, symbols);
  }

  lemma {:induction false} SessionKeepsInv(hdb: Hdb, h: Handler, conns: seq<seq<Event>>, symbols: set<string>,
                                           s: string, floor: Option<int>, today: int)
    requires Inv(hdb, h, s, floor, today) && WillFlag(h, s) && s in symbols
    requires SessionOk(h, conns, symbols, s, today)
    ensures Inv(hdb, Session(h, conns, symbols), s, floor, today)
    decreases |conns|
  {
    hide Inv, ConnectionOk, WillFlag;
    if conns != [] {
      OneConnection(hdb, h, conns[0], symbols, s, floor, today);
      SessionKeepsInv(hdb, Feed.Run(h, [Connected] + conns[0], symbols), conns[1..], symbols, s, floor, today);
    }
  }

  /** From an archive, through the catch-up and any number of connections, the first one included, each of
      which may begin after any gap: the stored ids above the archive's last one are consecutive, each
      stored once, up to the handler's floor, the greatest id stored. */
  lemma {:induction false} EveryGapIsClosed(hdb: Hdb, syms: seq<string>, rest: Exchange, conns: seq<seq<Event>>,
                                            s: string, floor: Option<int>, today: int)
    requires s in syms && Archive(hdb, s, floor, today) && StartOk(New(hdb), syms, rest, s)
    requires SessionOk(Start(hdb, syms, rest), conns, Tracked(syms), s, today)
    ensures var h := Session(Start(hdb, syms, rest), conns, Tracked(syms));
            var db := h.roll.db;
            && Contig(Inserted(h, s), floor, Last(h.lastId, s))
            && multiset(Inserted(h, s))
               == multiset(OfSym(db.trade, s)) + Roller.SavedRows(db.hdb.trade, h.roll.saved, s)
            && IsTrueMax(db.trade, db.hdb.trade, TradeId, s, Last(h.lastId, s))
  {
    hide SessionOk, StartOk, Session;
    var start := Start(hdb, syms, rest);
    StartInv(hdb, syms, rest, s, floor, today);
    assert WillFlag(start, s);
    SessionKeepsInv(hdb, start, conns, Tracked(syms), s, floor, today);
    var h := Session(start, conns, Tracked(syms));
    LedgerIsStored(hdb, h, s, floor, Last(h.lastId, s), today);
  }

  // --- the queue ----------------------------------------------------------------------------------

  /** What one event takes from the queue: a turn up to 5,000 records. */
  function TakenBy(h: Handler, e: Event): seq<Record> {
    if e.Worked? then h.queue[..if |h.queue| < 5_000 then |h.queue| else 5_000] else []
  }

  /** What one event adds to it: a record received while fewer than 200,000 were queued. */
  function AcceptedFrom(h: Handler, e: Event): seq<Record> {
    if |h.queue| < 200_000 then ArrivalOf(e) else []
  }

  ghost function Taken(h: Handler, es: seq<Event>, symbols: set<string>): seq<Record>
    decreases |es|
  {
    if es == [] then [] else TakenBy(h, es[0]) + Taken(Feed.Apply(h, es[0], symbols), es[1..], symbols)
  }

  ghost function Accepted(h: Handler, es: seq<Event>, symbols: set<string>): seq<Record>
    decreases |es|
  {
    if es == [] then [] else AcceptedFrom(h, es[0]) + Accepted(Feed.Apply(h, es[0], symbols), es[1..], symbols)
  }

  lemma QueueStep(h: Handler, e: Event, symbols: set<string>)
    requires |h.queue| <= 200_000
    ensures var r := Feed.Apply(h, e, symbols);
            && |r.queue| <= 200_000
            && TakenBy(h, e) + r.queue == h.queue + AcceptedFrom(h, e)
            && |AcceptedFrom(h, e)| + r.dropped == |ArrivalOf(e)| + h.dropped
  {
    hide Work;
    if e.Worked? {
      WorkQueue(h, e.rest);
    }
  }

  lemma Regroup<T>(took: seq<T>, later: seq<T>, left: seq<T>, next: seq<T>, queue: seq<T>, came: seq<T>, more: seq<T>)
    requires took + next == queue + came && later + left == next + more
    ensures (took + later) + left == queue + (came + more)
  {
    calc {
      (took + later) + left;
      took + (later + left);
      (took + next) + more;
      (queue + came) + more;
      queue + (came + more);
    }
  }

  /** Over every run the queue is first in, first out and bounded, and every well-formed record received is
      taken by a turn, still queued, or counted as dropped. */
  lemma {:induction false} QueueConserves(h: Handler, es: seq<Event>, symbols: set<string>)
    requires |h.queue| <= 200_000
    ensures var r := Feed.Run(h, es, symbols);
            && |r.queue| <= 200_000
            && Taken(h, es, symbols) + r.queue == h.queue + Accepted(h, es, symbols)
            && |Accepted(h, es, symbols)| + r.dropped == |Arrivals(es)| + h.dropped
    decreases |es|
  {
    hide Feed.Apply, TakenBy, AcceptedFrom, ArrivalOf;
    if es != [] {
      var next := Feed.Apply(h, es[0], symbols);
      QueueStep(h, es[0], symbols);
      QueueConserves(next, es[1..], symbols);
      Regroup(TakenBy(h, es[0]), Taken(next, es[1..], symbols), Feed.Run(next, es[1..], symbols).queue,
              next.queue, h.queue, AcceptedFrom(h, es[0]), Accepted(next, es[1..], symbols));
    }
  }
}
