/** The three ways a trade reaches the store, archive, REST and live feed, and the one way of a quote: what
    the parsers make of what the sources say. */
module Sources {
  import opened Buckets
  import opened Bars
  import opened QuoteBars
  import opened Kdb
  import opened Dedup
  import opened Feed
  import Chunks
  import QuoteViews
  import Views

  /** One trade as the exchange knows it; `ms` is its time in milliseconds since 1970. */
  datatype Fact = Fact(sym: string, ms: int, trade: Trade)

  datatype QuoteFact = QuoteFact(sym: string, ms: int, quote: Quote)

  /** `time` is a moment of that millisecond, given in milliseconds or in microseconds. The range is that of
      the years 1974 to 5137. */
  predicate Dates(time: int, ms: int) {
    100_000_000_000 < ms <= 100_000_000_000_000 && (time == ms || 1_000 * ms <= time < 1_000 * (ms + 1))
  }

  /** Either unit gives the millisecond. */
  lemma UnitDoesNotMatter(time: int, ms: int)
    requires Dates(time, ms)
    ensures Bridge.ToMillis(time) == ms
  {
  }

  predicate LiveSays(m: Msg<TradeData>, x: Fact) {
    && m.sym == x.sym && Dates(m.time, x.ms) && m.id == x.trade.tradeID
    && m.body.price == x.trade.price && m.body.qty == x.trade.qty && m.body.buyerMaker == x.trade.buyerMaker
  }

  predicate RestSays(r: Bridge.Rest, x: Fact) {
    && Dates(r.time, x.ms) && r.id == x.trade.tradeID
    && r.price == x.trade.price && r.qty == x.trade.qty && r.buyerMaker == x.trade.buyerMaker
  }

  predicate ArchiveSays(c: Chunks.CsvRow, x: Fact) {
    && c.Line? && Dates(c.time, x.ms) && c.id == x.trade.tradeID
    && c.price == x.trade.price && c.qty == x.trade.qty && c.buyerMaker == x.trade.buyerMaker
  }

  predicate LiveQuoteSays(m: Msg<QuoteData>, x: QuoteFact) {
    && m.sym == x.sym && Dates(m.time, x.ms) && m.id == x.quote.updateID
    && m.body.bid == x.quote.bid && m.body.bidSize == x.quote.bidSize
    && m.body.ask == x.quote.ask && m.body.askSize == x.quote.askSize
  }

  /** The moment in the store's nanoseconds, which count from 2000-01-01. */
  function Moment(ms: int): int {
    (ms - 946_684_800_000) * 1_000_000
  }

  /** Whichever source tells of a trade, and in whichever unit of time, it is stored as the same row: the
      trade itself at its millisecond. */
  lemma SameRowFromEverySource(x: Fact, m: Msg<TradeData>, r: Bridge.Rest, c: Chunks.CsvRow)
    requires LiveSays(m, x) && RestSays(r, x) && ArchiveSays(c, x)
    ensures Stamp([ParseTick(m)]) == Stamp([Bridge.Parse(r, x.sym)]) == Stamp([Chunks.ParseLine(c, x.sym)])
            == [Stamped(Moment(x.ms), Tick(x.sym, x.trade))]
    ensures Views.StoredTick(m) == Stamped(Moment(x.ms), x.trade)
  {
    UnitDoesNotMatter(m.time, x.ms);
    UnitDoesNotMatter(r.time, x.ms);
    UnitDoesNotMatter(c.time, x.ms);
  }

  lemma QuoteIsStoredAsSent(x: QuoteFact, m: Msg<QuoteData>)
    requires LiveQuoteSays(m, x)
    ensures Stamp([ParseQuote(m)]) == [Stamped(Moment(x.ms), Tick(x.sym, x.quote))]
    ensures QuoteViews.StoredQuote(m) == Stamped(Moment(x.ms), x.quote)
  {
    UnitDoesNotMatter(m.time, x.ms);
  }
}
