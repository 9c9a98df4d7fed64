/** Quote bars: the last book state in each bucket, and the features derived from it. */
module QuoteBars {
  import opened Buckets
  import opened Aggregates
  import BarBounds

  datatype Quote = Quote(updateID: int, bid: real, bidSize: real, ask: real, askSize: real)

  /** The stored columns of a quote bar. */
  datatype Book = Book(bid: real, ask: real, bidSize: real, askSize: real)

  datatype Features = Features(book: Book, mid: real, spread: real, micro: Float, qimb: Float)

  const NO_BOOK := Book(0.0, 0.0, 0.0, 0.0)

  /** `last bid, last ask, last bidSize, last askSize`; only ever taken of a non-empty group. */
  function LastQuote(qs: seq<Quote>): Book {
    if qs == [] then NO_BOOK
    else var q := qs[|qs| - 1]; Book(q.bid, q.ask, q.bidSize, q.askSize)
  }

  function LastBook(bs: seq<Book>): Book {
    if bs == [] then NO_BOOK else bs[|bs| - 1]
  }

  function Derive(b: Book): Features {
    Features(b, 0.5 * (b.bid + b.ask), b.ask - b.bid,
             Ratio(b.bid * b.askSize + b.ask * b.bidSize, b.bidSize + b.askSize),
             Ratio(b.bidSize - b.askSize, b.bidSize + b.askSize))
  }

  function DeriveAll(b: seq<Stamped<Book>>): (r: seq<Stamped<Features>>)
    ensures |r| == |b| && forall i :: 0 <= i < |b| ==> r[i] == Stamped(b[i].time, Derive(b[i].body))
  {
    seq(|b|, i requires 0 <= i < |b| => Stamped(b[i].time, Derive(b[i].body)))
  }

  /** `buildQuoteBars` for one symbol: the raw last values, nothing derived. */
  function BuildQuoteBars(q: seq<Stamped<Quote>>, sz: int): seq<Stamped<Book>>
    requires sz > 0
  {
    GroupBy(q, sz, LastQuote)
  }

  /** `quoteBarsOf[q;sz]`. */
  function QuoteBarsOf(q: seq<Stamped<Quote>>, sz: int): seq<Stamped<Features>>
    requires sz > 0
  {
    DeriveAll(GroupBy(q, sz, LastQuote))
  }

  /** `rebucketQuoteBars[qb;sz]`. */
  function RebucketQuoteBars(qb: seq<Stamped<Book>>, sz: int): seq<Stamped<Features>>
    requires sz > 0
  {
    DeriveAll(GroupBy(qb, sz, LastBook))
  }

  lemma {:induction false} LastOfLasts(parts: seq<seq<Quote>>)
    requires parts != [] && forall p :: p in parts ==> p != []
    ensures Flatten(parts) != [] && LastBook(MapAll(parts, LastQuote)) == LastQuote(Flatten(parts))
  {
    assert parts == [parts[0]] + parts[1..];
    assert parts[0] in parts;
    assert forall p :: p in parts[1..] ==> p in parts;
    if |parts| == 1 {
      assert parts[0] + Flatten(parts[1..]) == parts[0];
    } else {
      LastOfLasts(parts[1..]);
      assert MapAll(parts, LastQuote)[1..] == MapAll(parts[1..], LastQuote);
    }
  }

  /** For quotes in time order, coarsening stored quote bars is exact. */
  lemma {:induction false} RebucketQuotesExact(q: seq<Stamped<Quote>>, base: int, m: int)
    requires base > 0 && m > 0 && m * base > 0 && InOrder(q)
    ensures RebucketQuoteBars(BuildQuoteBars(q, base), m * base) == QuoteBarsOf(q, m * base)
  {
    var sz := m * base;
    var fine := BuildQuoteBars(q, base);
    NestedKeys(q, base, m, LastQuote);
    KeysMeaning(q, sz);
    var ks := Keys(q, sz);
    forall i | 0 <= i < |ks| ensures LastBook(Group(fine, sz, ks[i])) == LastQuote(Group(q, sz, ks[i])) {
      var k := ks[i];
      assert k in ks;
      GroupOfGroups(q, base, sz, LastQuote, Keys(q, base), k);
      CoarseGroupIsItsParts(q, base, m, k);
      GroupNonempty(q, sz, k);
      LastOfLasts(Parts(q, base, KeysWithin(Keys(q, base), sz, k)));
    }
    assert GroupBy(fine, sz, LastBook) == GroupBy(q, sz, LastQuote);
  }

  /** In each base bucket the last inserted quote is also the latest. */
  ghost predicate LastsInOrder(q: seq<Stamped<Quote>>, base: int)
    requires base > 0
  {
    forall k :: HasKey(q, base, k) ==> EndsLatest(GroupRows(q, base, k))
  }

  /** The stored-bar read at width m * base equals the quote scan. */
  ghost predicate QuoteReadsAgree(q: seq<Stamped<Quote>>, base: int, m: int)
    requires base > 0 && m > 0 && m * base > 0
  {
    RebucketQuoteBars(BuildQuoteBars(q, base), m * base) == QuoteBarsOf(SortByTime(q), m * base)
  }

  lemma LastsInOrderAgree(q: seq<Stamped<Quote>>, base: int, m: int)
    requires base > 0 && m > 0 && m * base > 0 && LastsInOrder(q, base)
    ensures QuoteReadsAgree(q, base, m)
  {
    hide SortByTime, GroupRows, Group, Keys, Derive, EndsLatest;
    var s := SortByTime(q);
    SortKeys(q, base);
    KeysMeaning(q, base);
    var ks := Keys(q, base);
    forall i | 0 <= i < |ks| ensures LastQuote(Group(q, base, ks[i])) == LastQuote(Group(s, base, ks[i])) {
      var k := ks[i];
      assert k in ks;
      GroupNonempty(q, base, k);
      GroupIsBodies(q, base, k);
      GroupIsBodies(s, base, k);
      GroupOfSort(q, base, k);
      SortKeepsLast(GroupRows(q, base, k));
    }
    assert BuildQuoteBars(q, base) == BuildQuoteBars(s, base);
    SortMeaning(q);
    RebucketQuotesExact(s, base, m);
  }

  // --- exactly when stored quote bars agree ------------------------------------------------------

  /** Quotes at the same times, with any books. */
  ghost predicate Rebooked(q: seq<Stamped<Quote>>, u: seq<Stamped<Quote>>) {
    |q| == |u| && forall i :: 0 <= i < |q| ==> u[i].time == q[i].time
  }

  predicate BidsTime(q: seq<Stamped<Quote>>) {
    forall i :: 0 <= i < |q| ==> q[i].body.bid == q[i].time as real
  }

  /** Every quote bids its own timestamp. */
  function BookedByTime(q: seq<Stamped<Quote>>): (u: seq<Stamped<Quote>>)
    ensures Rebooked(q, u)
    ensures BidsTime(u)
  {
    seq(|q|, i requires 0 <= i < |q| => Stamped(q[i].time, q[i].body.(bid := q[i].time as real)))
  }

  lemma {:induction false} GroupRowsRebooked(q: seq<Stamped<Quote>>, u: seq<Stamped<Quote>>, base: int, k: int)
    requires base > 0 && Rebooked(q, u)
    ensures Rebooked(GroupRows(q, base, k), GroupRows(u, base, k))
  {
    if q != [] {
      assert forall i :: 0 <= i < |q[1..]| ==> q[1..][i] == q[i + 1] && u[1..][i] == u[i + 1];
      GroupRowsRebooked(q[1..], u[1..], base, k);
    }
  }

  /** Whether the last rows are in order depends on the times alone. */
  lemma RebookedKeepsOrder(q: seq<Stamped<Quote>>, u: seq<Stamped<Quote>>, base: int)
    requires base > 0 && Rebooked(q, u) && LastsInOrder(u, base)
    ensures LastsInOrder(q, base)
  {
    forall k | HasKey(q, base, k) ensures EndsLatest(GroupRows(q, base, k)) {
      var i :| 0 <= i < |q| && Xbar(base, q[i].time) == k;
      assert u[i].time == q[i].time;
      assert HasKey(u, base, k);
      GroupRowsRebooked(q, u, base, k);
    }
  }

  lemma RebookedBack(q: seq<Stamped<Quote>>, u: seq<Stamped<Quote>>)
    requires Rebooked(q, u)
    ensures Rebooked(u, q)
  {
  }

  /** Deriving loses nothing of the book. */
  lemma DeriveAllInjective(a: seq<Stamped<Book>>, b: seq<Stamped<Book>>)
    requires DeriveAll(a) == DeriveAll(b)
    ensures a == b
  {
    assert |a| == |DeriveAll(a)| == |DeriveAll(b)| == |b|;
    forall i | 0 <= i < |a| ensures a[i] == b[i] {
      assert DeriveAll(a)[i] == DeriveAll(b)[i];
      assert Derive(a[i].body).book == Derive(b[i].body).book;
    }
  }

  lemma {:induction false} GroupBidsTime(u: seq<Stamped<Quote>>, base: int, k: int)
    requires base > 0 && BidsTime(u)
    ensures BidsTime(GroupRows(u, base, k))
  {
    if u != [] {
      assert u[0].body.bid == u[0].time as real;
      assert forall i :: 0 <= i < |u[1..]| ==> u[1..][i] == u[i + 1];
      GroupBidsTime(u[1..], base, k);
    }
  }

  /** When bids tell the times, equal last books mean the last row is a latest one. */
  lemma {:induction false} BidsShowOrder(g: seq<Stamped<Quote>>)
    requires g != [] && BidsTime(g)
    requires LastQuote(Bodies(g)) == LastQuote(Bodies(SortByTime(g)))
    ensures EndsLatest(g)
  {
    var s, n := SortByTime(g), |g|;
    SortedEndsBound(g, 0);
    forall j | 0 <= j < n ensures g[j].time <= g[n - 1].time {
      SortedEndsBound(g, j);
      SortMembers(g, s[n - 1]);
      var p :| 0 <= p < n && g[p] == s[n - 1];
      assert Bodies(s)[n - 1].bid == s[n - 1].time as real;
      assert Bodies(g)[n - 1].bid == g[n - 1].time as real;
    }
  }

  lemma AgreementShowsLast(u: seq<Stamped<Quote>>, base: int, k: int)
    requires base > 0 && HasKey(u, base, k)
    requires GroupBy(BuildQuoteBars(u, base), base, LastBook) == GroupBy(SortByTime(u), base, LastQuote)
    ensures var g := GroupRows(u, base, k);
            g != [] && LastQuote(Bodies(g)) == LastQuote(Bodies(SortByTime(g)))
  {
    AgreementAtOneBucket(u, base, LastQuote, LastBook, k);
    GroupNonempty(u, base, k);
    GroupIsBodies(u, base, k);
    GroupIsBodies(SortByTime(u), base, k);
    GroupOfSort(u, base, k);
  }

  lemma AgreementShowsLasts(u: seq<Stamped<Quote>>, base: int)
    requires base > 0 && BidsTime(u)
    requires 1 * base > 0 && QuoteReadsAgree(u, base, 1)
    ensures LastsInOrder(u, base)
  {
    assert 1 * base == base;
    DeriveAllInjective(GroupBy(BuildQuoteBars(u, base), base, LastBook), GroupBy(SortByTime(u), base, LastQuote));
    forall k | HasKey(u, base, k) ensures EndsLatest(GroupRows(u, base, k)) {
      AgreementShowsLast(u, base, k);
      GroupBidsTime(u, base, k);
      BidsShowOrder(GroupRows(u, base, k));
    }
  }

  /** Quote bars are built from `quote` in insertion order too, before savedown sorts it by time.
      Whatever the books, every re-bucketed read equals the quote scan if and only if the last row
      inserted in each base bucket is its latest. */
  lemma StoredQuoteBarsExactIff(q: seq<Stamped<Quote>>, base: int)
    requires base > 0
    ensures LastsInOrder(q, base)
            <==> forall u, m: int | Rebooked(q, u) && m > 0 && m * base > 0 :: QuoteReadsAgree(u, base, m)
  {
    if LastsInOrder(q, base) {
      forall u, m: int | Rebooked(q, u) && m > 0 && m * base > 0 ensures QuoteReadsAgree(u, base, m) {
        RebookedBack(q, u);
        RebookedKeepsOrder(u, q, base);
        LastsInOrderAgree(u, base, m);
      }
    } else {
      var u := BookedByTime(q);
      assert 1 * base > 0;
      if QuoteReadsAgree(u, base, 1) {
        AgreementShowsLasts(u, base);
        RebookedKeepsOrder(q, u, base);
      }
    }
  }

  /** Two quotes of one bucket inserted out of order: the stored bar holds the earlier book. */
  lemma TwoQuotesOutOfOrder(late: Stamped<Quote>, early: Stamped<Quote>, sz: int)
    requires sz > 0 && early.time < late.time && Xbar(sz, early.time) == Xbar(sz, late.time)
    ensures var q := [late, early];
            var read, scan := RebucketQuoteBars(BuildQuoteBars(q, sz), sz), QuoteBarsOf(SortByTime(q), sz);
            && BuildQuoteBars(q, sz) != [] && |read| == |scan| == 1
            && read[0].body.book == LastQuote([early.body]) && scan[0].body.book == LastQuote([late.body])
  {
    var q := [late, early];
    TwoOutOfOrder(late, early, sz);
    OwnKeys(q, sz, LastQuote);
    OwnBucket(q, sz, LastQuote, Xbar(sz, late.time));
    GroupAt(BuildQuoteBars(q, sz), sz, LastBook, 0);
    GroupAt(q, sz, LastQuote, 0);
    GroupAt([early, late], sz, LastQuote, 0);
  }

  // --- bounds --------------------------------------------------------------------------------------

  /** What the derived columns say of their book: mid is half way, micro divides the spread as the sizes
      do, leaning to the ask as the bid side grows, and qimb is the size difference per unit of size. */
  predicate Derived(f: Features) {
    var b, total := f.book, f.book.bidSize + f.book.askSize;
    && f.mid - b.bid == b.ask - f.mid && f.spread == b.ask - b.bid
    && (total == 0.0 ==> f.micro == f.qimb == Null)
    && (total != 0.0 ==>
          && f.micro.Num? && (f.micro.r - b.bid) * total == f.spread * b.bidSize
          && (b.ask - f.micro.r) * total == f.spread * b.askSize
          && f.qimb.Num? && f.qimb.r * total == b.bidSize - b.askSize)
  }

  predicate AllDerived(f: seq<Stamped<Features>>) {
    forall i :: 0 <= i < |f| ==> Derived(f[i].body)
  }

  lemma MicroDivides(x: real, bid: real, ask: real, bidSize: real, askSize: real)
    requires x * (bidSize + askSize) == bid * askSize + ask * bidSize
    ensures (x - bid) * (bidSize + askSize) == (ask - bid) * bidSize
    ensures (ask - x) * (bidSize + askSize) == (ask - bid) * askSize
  {
    assert (x - bid) * (bidSize + askSize) == x * (bidSize + askSize) - bid * bidSize - bid * askSize;
    assert (ask - x) * (bidSize + askSize) == ask * bidSize + ask * askSize - x * (bidSize + askSize);
  }

  lemma KeepsBook(b: Book)
    ensures Derive(b).book == b
  {
  }

  lemma DeriveMeaning(b: Book)
    ensures Derived(Derive(b))
  {
    var total := b.bidSize + b.askSize;
    if total != 0.0 {
      RatioUndone(b.bid * b.askSize + b.ask * b.bidSize, total);
      RatioUndone(b.bidSize - b.askSize, total);
      MicroDivides(Derive(b).micro.r, b.bid, b.ask, b.bidSize, b.askSize);
    }
  }

  /** The book is this quote's. */
  predicate BookOf(b: Book, q: Quote) {
    b.bid == q.bid && b.ask == q.ask && b.bidSize == q.bidSize && b.askSize == q.askSize
  }

  /** Every quote bar of a scan starts at a multiple of the width, holds the book of the last quote in it,
      in table order, and the columns derived from that book. */
  lemma ScannedQuoteBarMeaning(q: seq<Stamped<Quote>>, sz: int, i: nat)
    requires sz > 0 && i < |QuoteBarsOf(q, sz)|
    ensures var b := QuoteBarsOf(q, sz)[i];
            var qs := During(q, b.time, sz);
            && b.time % sz == 0 && qs != []
            && BookOf(b.body.book, qs[|qs| - 1]) && Derived(b.body)
  {
    hide During, Derive, Derived, Keys, OverKeys;
    GroupByMeaning(q, sz, LastQuote);
    var b := GroupBy(q, sz, LastQuote)[i];
    assert QuoteBarsOf(q, sz)[i] == Stamped(b.time, Derive(b.body));
    assert IsBucket(b, q, sz, LastQuote);
    DeriveMeaning(b.body);
    KeepsBook(b.body);
  }

  predicate SaneBook(b: Book) {
    b.bidSize >= 0.0 && b.askSize >= 0.0 && b.bid <= b.ask
  }

  /** The micro-price lies between bid and ask, the quote imbalance in [-1, 1]; each is null exactly
      when both sizes are zero. */
  predicate SaneFeatures(f: Features) {
    var b := f.book;
    && BarBounds.Within(f.micro, b.bid, b.ask)
    && BarBounds.Within(f.qimb, -1.0, 1.0)
    && b.bid <= f.mid <= b.ask && f.spread >= 0.0
    && (f.micro.Null? <==> b.bidSize + b.askSize == 0.0)
    && (f.qimb.Null? <==> b.bidSize + b.askSize == 0.0)
  }

  lemma FeatureBounds(b: Book)
    requires SaneBook(b)
    ensures SaneFeatures(Derive(b))
  {
    var total := b.bidSize + b.askSize;
    BarBounds.ScaleBounds(b.askSize, b.bid, b.bid, b.ask);
    BarBounds.ScaleBounds(b.bidSize, b.bid, b.ask, b.ask);
    assert b.bid * total == b.bid * b.bidSize + b.bid * b.askSize;
    assert b.ask * total == b.ask * b.bidSize + b.ask * b.askSize;
    BarBounds.RatioWithin(b.bid * b.askSize + b.ask * b.bidSize, total, b.bid, b.ask);
    BarBounds.ImbalanceWithin(b.bidSize, b.askSize);
  }

  predicate SaneQuote(q: Quote) {
    q.bidSize >= 0.0 && q.askSize >= 0.0 && q.bid <= q.ask
  }

  predicate AllSaneQuotes(q: seq<Stamped<Quote>>) {
    forall i :: 0 <= i < |q| ==> SaneQuote(q[i].body)
  }

  predicate AllSaneBooks(b: seq<Stamped<Book>>) {
    forall i :: 0 <= i < |b| ==> SaneBook(b[i].body)
  }

  predicate AllSaneFeatures(f: seq<Stamped<Features>>) {
    forall i :: 0 <= i < |f| ==> SaneFeatures(f[i].body)
  }

  lemma DerivedAreSane(b: seq<Stamped<Book>>)
    requires AllSaneBooks(b)
    ensures AllSaneFeatures(DeriveAll(b))
  {
    forall i | 0 <= i < |b| ensures SaneFeatures(DeriveAll(b)[i].body) {
      FeatureBounds(b[i].body);
    }
  }

  /** The same of every bar served from stored ones. */
  lemma RebucketedAreDerived(qb: seq<Stamped<Book>>, sz: int)
    requires sz > 0
    ensures AllDerived(RebucketQuoteBars(qb, sz))
  {
    var b := GroupBy(qb, sz, LastBook);
    forall i | 0 <= i < |b| ensures Derived(DeriveAll(b)[i].body) {
      DeriveMeaning(b[i].body);
    }
  }

  lemma BuiltBooksAreSane(q: seq<Stamped<Quote>>, sz: int)
    requires sz > 0 && AllSaneQuotes(q)
    ensures AllSaneBooks(GroupBy(q, sz, LastQuote))
  {
    hide Group, Keys;
    KeysMeaning(q, sz);
    forall i | 0 <= i < |Keys(q, sz)| ensures SaneBook(GroupBy(q, sz, LastQuote)[i].body) {
      var k := Keys(q, sz)[i];
      assert k in Keys(q, sz);
      GroupAt(q, sz, LastQuote, i);
      GroupNonempty(q, sz, k);
      GroupSubset(q, sz, k);
      var g := Group(q, sz, k);
      assert g[|g| - 1] in g;
      var j :| 0 <= j < |Bodies(q)| && Bodies(q)[j] == g[|g| - 1];
      assert SaneQuote(q[j].body);
    }
  }

  lemma RebucketedBooksAreSane(b: seq<Stamped<Book>>, sz: int)
    requires sz > 0 && AllSaneBooks(b)
    ensures AllSaneBooks(GroupBy(b, sz, LastBook))
  {
    hide Group, Keys;
    KeysMeaning(b, sz);
    forall i | 0 <= i < |Keys(b, sz)| ensures SaneBook(GroupBy(b, sz, LastBook)[i].body) {
      var k := Keys(b, sz)[i];
      assert k in Keys(b, sz);
      GroupAt(b, sz, LastBook, i);
      GroupNonempty(b, sz, k);
      GroupSubset(b, sz, k);
      var g := Group(b, sz, k);
      assert g[|g| - 1] in g;
      var j :| 0 <= j < |Bodies(b)| && Bodies(b)[j] == g[|g| - 1];
    }
  }

  /** Every quote bar served, built directly or re-bucketed from stored ones, keeps the bounds. */
  lemma ServedQuoteBarsSane(q: seq<Stamped<Quote>>, base: int, sz: int)
    requires base > 0 && sz > 0 && AllSaneQuotes(q)
    ensures AllSaneFeatures(QuoteBarsOf(q, sz))
    ensures AllSaneFeatures(RebucketQuoteBars(BuildQuoteBars(q, base), sz))
  {
    BuiltBooksAreSane(q, sz);
    DerivedAreSane(GroupBy(q, sz, LastQuote));
    BuiltBooksAreSane(q, base);
    RebucketedBooksAreSane(BuildQuoteBars(q, base), sz);
    DerivedAreSane(GroupBy(BuildQuoteBars(q, base), sz, LastBook));
  }
}
