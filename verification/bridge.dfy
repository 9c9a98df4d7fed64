/** The REST bridge: paging trades by id from the last stored one against a growing exchange. */
module Bridge {
  import opened Buckets
  import opened Bars
  import opened Kdb
  import opened MaxId
  import opened Options

  /** One REST trade. */
  datatype Rest = Rest(id: int, time: int, price: real, qty: real, buyerMaker: bool)

  /** Timestamps above the millisecond range are microseconds. */
  function ToMillis(ts: int): int {
    if ts > 100_000_000_000_000 then ts / 1000 else ts
  }

  function Parse(r: Rest, sym: string): Stamped<Tick<Trade>> {
    Stamped(ToMillis(r.time), Tick(sym, Trade(r.id, r.price, r.qty, r.buyerMaker)))
  }

  /** `parse_rest_trades`. */
  function ParseAll(rs: seq<Rest>, sym: string): (t: Table<Trade>)
    ensures |t| == |rs| && forall i :: 0 <= i < |t| ==> t[i] == Parse(rs[i], sym)
  {
    seq(|rs|, i requires 0 <= i < |rs| => Parse(rs[i], sym))
  }

  // --- the exchange ------------------------------------------------------------------------

  predicate AscendingIds(rs: seq<Rest>) {
    forall i, j :: 0 <= i < j < |rs| ==> rs[i].id < rs[j].id
  }

  predicate Extends(a: seq<Rest>, b: seq<Rest>) {
    a <= b
  }

  /** What the exchange holds at each fetch: ids ascend, and it grows only at its tip. */
  ghost predicate GrowsAtTip(u: nat -> seq<Rest>) {
    && (forall n: nat {:trigger AscendingIds(u(n))} :: AscendingIds(u(n)))
    && (forall m: nat, n: nat {:trigger Extends(u(m), u(n))} :: m <= n ==> Extends(u(m), u(n)))
  }

  /** The number of leading trades with ids below `a`. */
  function Below(rs: seq<Rest>, a: int): (n: nat)
    ensures n <= |rs|
  {
    if rs == [] || rs[0].id >= a then 0 else 1 + Below(rs[1..], a)
  }

  lemma {:induction false} BelowMeaning(rs: seq<Rest>, a: int)
    requires AscendingIds(rs)
    ensures forall i :: 0 <= i < |rs| ==> (rs[i].id < a <==> i < Below(rs, a))
  {
    if rs != [] && rs[0].id < a {
      BelowMeaning(rs[1..], a);
      assert forall i :: 1 <= i < |rs| ==> rs[i] == rs[1..][i - 1];
    }
  }

  lemma {:induction false} BelowUnique(rs: seq<Rest>, a: int, k: nat)
    requires AscendingIds(rs) && k <= |rs|
    requires k > 0 ==> rs[k - 1].id < a
    requires k < |rs| ==> rs[k].id >= a
    ensures Below(rs, a) == k
  {
    BelowMeaning(rs, a);
    if k < |rs| {
      assert !(k < Below(rs, a));
    }
    if k > 0 {
      assert k - 1 < Below(rs, a);
    }
  }

  function FirstFrom(rs: seq<Rest>, p: nat, page: nat): seq<Rest>
    requires p <= |rs|
  {
    if p + page <= |rs| then rs[p..p + page] else rs[p..]
  }

  /** The first `page` trades with ids at or above `start`. */
  function FetchPage(rs: seq<Rest>, start: int, page: nat): seq<Rest> {
    FirstFrom(rs, Below(rs, start), page)
  }

  function KeepBelow(rs: seq<Rest>, target: int): seq<Rest> {
    if rs == [] then [] else (if rs[0].id < target then [rs[0]] else []) + KeepBelow(rs[1..], target)
  }

  lemma {:induction false} KeepBelowIsPrefix(rs: seq<Rest>, target: int)
    requires AscendingIds(rs)
    ensures KeepBelow(rs, target) == rs[..Below(rs, target)]
  {
    if rs != [] {
      KeepBelowIsPrefix(rs[1..], target);
      if rs[0].id >= target {
        BelowMeaning(rs[1..], target);
        assert Below(rs[1..], target) == 0 by {
          if rs[1..] != [] {
            assert rs[1..][0] == rs[1];
          }
        }
      }
    }
  }

  /** Where the trades below the target end. */
  function End(rs: seq<Rest>, target: Option<int>): (n: nat)
    ensures n <= |rs|
  {
    match target
    case None => |rs|
    case Some(t) => Below(rs, t)
  }

  /** The trades of `rs` with ids in [lo, hi), or from lo on. */
  function Between(rs: seq<Rest>, lo: int, hi: Option<int>): seq<Rest> {
    if Below(rs, lo) <= End(rs, hi) then rs[Below(rs, lo)..End(rs, hi)] else []
  }

  // --- the loop ------------------------------------------------------------------------------

  /** The client's n-th request, asking for ids from `start` on. */
  type Client = (int, int) -> seq<Rest>

  /** Request n is answered with the first `page` trades at or above `start` of the exchange then. */
  ghost predicate Honest(fetch: Client, u: nat -> seq<Rest>, page: nat) {
    forall n: nat, start: int {:trigger fetch(n, start)} :: fetch(n, start) == FetchPage(u(n), start, page)
  }

  /** Drop what lies at or past the target. */
  function Clip(rs: seq<Rest>, target: Option<int>): seq<Rest> {
    match target
    case None => rs
    case Some(t) => KeepBelow(rs, t)
  }

  /** Ids below the limit: the target, or a bound on the exchange's ids. */
  ghost predicate SnapshotLimited(s: seq<Rest>, target: Option<int>, limit: int) {
    match target
    case Some(t) => limit == t
    case None => forall i :: 0 <= i < |s| ==> s[i].id < limit
  }

  /** The whole paging stays below the limit. */
  ghost predicate Limited(u: nat -> seq<Rest>, target: Option<int>, limit: int) {
    forall n: nat {:trigger SnapshotLimited(u(n), target, limit)} :: SnapshotLimited(u(n), target, limit)
  }

  lemma {:induction false} PageStartsAt(s: seq<Rest>, start: int, page: nat)
    requires AscendingIds(s)
    ensures var raw := FetchPage(s, start, page);
            AscendingIds(raw) && forall i :: 0 <= i < |raw| ==> raw[i].id >= start && raw[i] in s
  {
    BelowMeaning(s, start);
  }

  lemma {:induction false} ClipStaysBelow(raw: seq<Rest>, t: int)
    requires AscendingIds(raw)
    ensures forall i ::
              0 <= i < |KeepBelow(raw, t)| ==>
                KeepBelow(raw, t)[i].id < t && i < |raw| && KeepBelow(raw, t)[i] == raw[i]
  {
    KeepBelowIsPrefix(raw, t);
    BelowMeaning(raw, t);
  }

  /** A clipped page makes progress and stays under the limit. */
  lemma {:induction false} PageAdvances(s: seq<Rest>, start: int, target: Option<int>, page: nat)
    requires AscendingIds(s) && Clip(FetchPage(s, start, page), target) != []
    ensures var kept := Clip(FetchPage(s, start, page), target);
            start <= kept[|kept| - 1].id
            && forall limit :: SnapshotLimited(s, target, limit) ==> kept[|kept| - 1].id < limit
  {
    var raw := FetchPage(s, start, page);
    PageStartsAt(s, start, page);
    if target.Some? {
      ClipStaysBelow(raw, target.value);
    } else {
      assert raw[|raw| - 1] in s;
    }
  }

  /** The client's answers with what lies at or past the target dropped. */
  function Clipped(fetch: Client, target: Option<int>): Client {
    (n: int, start: int) => Clip(fetch(n, start), target)
  }

  /** The pages inserted, in order. */
  datatype Pages = Done | Page(trades: seq<Rest>, more: Pages)

  function Rows(p: Pages): seq<Rest> {
    match p
    case Done => []
    case Page(trades, more) => trades + Rows(more)
  }

  /** The paging loop from request `n` and id `start` on, over clipped answers, for at most `k` passes. */
  function PagesIn(got: Client, n: nat, start: int, target: Option<int>, page: nat, k: nat): Pages
    decreases k
  {
    if k == 0 || (target.Some? && start >= target.value) then Done
    else
      var kept := got(n, start);
      if kept == [] then Done
      else if |kept| < page then Page(kept, Done)
      else Page(kept, PagesIn(got, n + 1, kept[|kept| - 1].id + 1, target, page, k - 1))
  }

  /** The loop ends within `k` passes. */
  predicate EndsIn(got: Client, n: nat, start: int, target: Option<int>, page: nat, k: nat)
    decreases k
  {
    || (target.Some? && start >= target.value)
    || (k > 0 &&
        var kept := got(n, start);
        kept == [] || |kept| < page || EndsIn(got, n + 1, kept[|kept| - 1].id + 1, target, page, k - 1))
  }

  ghost predicate Ends(got: Client, n: nat, start: int, target: Option<int>, page: nat) {
    exists k: nat :: EndsIn(got, n, start, target, page, k)
  }

  /** The pages of a loop that ends. */
  ghost function PagesFrom(got: Client, n: nat, start: int, target: Option<int>, page: nat): Pages {
    if Ends(got, n, start, target, page) then
      var k: nat :| EndsIn(got, n, start, target, page, k);
      PagesIn(got, n, start, target, page, k)
    else Done
  }

  /** The last of the requests made, the first being number `n`. */
  function LastOf(p: Pages, n: nat, page: nat): (m: nat)
    ensures m >= n
  {
    match p
    case Done => n
    case Page(trades, more) => if |trades| < page then n else LastOf(more, n + 1, page)
  }

  /** The rows inserted from request `n` on, paging from `start`. */
  ghost function Paged(fetch: Client, n: nat, start: int, target: Option<int>, page: nat): seq<Rest> {
    Rows(PagesFrom(Clipped(fetch, target), n, start, target, page))
  }

  ghost function LastFetch(fetch: Client, n: nat, start: int, target: Option<int>, page: nat): (m: nat)
    ensures m >= n
  {
    LastOf(PagesFrom(Clipped(fetch, target), n, start, target, page), n, page)
  }

  lemma {:induction false} SamePages(got: Client, n: nat, start: int, target: Option<int>, page: nat, j: nat, k: nat)
    requires EndsIn(got, n, start, target, page, j) && EndsIn(got, n, start, target, page, k)
    ensures PagesIn(got, n, start, target, page, j) == PagesIn(got, n, start, target, page, k)
    decreases k
  {
    if !(target.Some? && start >= target.value) {
      var kept := got(n, start);
      if kept != [] && |kept| >= page {
        SamePages(got, n + 1, kept[|kept| - 1].id + 1, target, page, j - 1, k - 1);
      }
    }
  }

  lemma {:induction false} PagesAre(got: Client, n: nat, start: int, target: Option<int>, page: nat, k: nat)
    requires EndsIn(got, n, start, target, page, k)
    ensures Ends(got, n, start, target, page)
    ensures PagesFrom(got, n, start, target, page) == PagesIn(got, n, start, target, page, k)
  {
    var j: nat :| EndsIn(got, n, start, target, page, j)
      && PagesFrom(got, n, start, target, page) == PagesIn(got, n, start, target, page, j);
    SamePages(got, n, start, target, page, j, k);
  }

  /** One pass of a loop that ends. */
  lemma {:induction false} PagesStep(got: Client, n: nat, start: int, target: Option<int>, page: nat)
    requires Ends(got, n, start, target, page)
    ensures var ps, kept := PagesFrom(got, n, start, target, page), got(n, start);
            if (target.Some? && start >= target.value) || kept == [] then ps == Done
            else if |kept| < page then ps == Page(kept, Done)
            else
              var next := kept[|kept| - 1].id + 1;
              Ends(got, n + 1, next, target, page) && ps == Page(kept, PagesFrom(got, n + 1, next, target, page))
  {
    var k: nat :| EndsIn(got, n, start, target, page, k);
    PagesAre(got, n, start, target, page, k);
    var kept := got(n, start);
    if !(target.Some? && start >= target.value) && kept != [] && |kept| >= page {
      PagesAre(got, n + 1, kept[|kept| - 1].id + 1, target, page, k - 1);
    }
  }

  /** Paging an honest exchange up to a target, or one whose ids are bounded, ends. */
  lemma {:induction false} HonestEnds(fetch: Client, u: nat -> seq<Rest>, n: nat, start: int, target: Option<int>,
                                      page: nat, limit: int)
    requires Honest(fetch, u, page) && GrowsAtTip(u) && Limited(u, target, limit)
    ensures Ends(Clipped(fetch, target), n, start, target, page)
    decreases if start < limit then limit - start else 0
  {
    var got := Clipped(fetch, target);
    var kept := got(n, start);
    assert fetch(n, start) == FetchPage(u(n), start, page);
    if (target.Some? && start >= target.value) || kept == [] || |kept| < page {
      assert EndsIn(got, n, start, target, page, 1);
    } else {
      assert AscendingIds(u(n)) && SnapshotLimited(u(n), target, limit);
      PageAdvances(u(n), start, target, page);
      var next := kept[|kept| - 1].id + 1;
      HonestEnds(fetch, u, n + 1, next, target, page, limit);
      var k: nat :| EndsIn(got, n + 1, next, target, page, k);
      assert EndsIn(got, n, start, target, page, k + 1);
    }
  }

  lemma {:induction false} BelowOrdered(rs: seq<Rest>, a: int, b: int)
    requires AscendingIds(rs) && a <= b
    ensures Below(rs, a) <= Below(rs, b)
  {
    BelowMeaning(rs, a);
    BelowMeaning(rs, b);
    if Below(rs, b) < |rs| {
      assert rs[Below(rs, b)].id >= b;
    }
  }

  /** Where a stretch of an ascending sequence crosses `t`. */
  lemma {:induction false} BelowInSlice(s: seq<Rest>, p: nat, e: nat, t: int)
    requires AscendingIds(s) && p <= e <= |s| && p <= Below(s, t)
    ensures Below(s[p..e], t) == if Below(s, t) < e then Below(s, t) - p else e - p
  {
    var k := if Below(s, t) < e then Below(s, t) - p else e - p;
    BelowMeaning(s, t);
    assert k > 0 ==> s[p..e][k - 1] == s[p + k - 1];
    assert k < e - p ==> s[p..e][k] == s[p + k];
    BelowUnique(s[p..e], t, k);
  }

  lemma SliceOfSlice(s: seq<Rest>, p: nat, e: nat, k: nat)
    requires p <= e <= |s| && k <= e - p
    ensures s[p..e][..k] == s[p..p + k]
  {
  }

  lemma {:induction false} ClippedStretch(s: seq<Rest>, p: nat, top: nat, t: int)
    requires AscendingIds(s) && p <= top <= |s| && p <= Below(s, t)
    ensures KeepBelow(s[p..top], t) == if Below(s, t) < top then s[p..Below(s, t)] else s[p..top]
  {
    var raw := s[p..top];
    assert AscendingIds(raw);
    KeepBelowIsPrefix(raw, t);
    BelowInSlice(s, p, top, t);
    SliceOfSlice(s, p, top, Below(raw, t));
  }

  /** `kept` is the stretch of `s` from p to e, or the first `page` trades of it. */
  predicate PageAt(s: seq<Rest>, p: nat, e: nat, page: nat, kept: seq<Rest>) {
    p <= e <= |s| && kept == if p + page <= e then s[p..p + page] else s[p..e]
  }

  /** `kept` is what is left from `start` to the target, or its first `page` trades. */
  predicate IsPage(s: seq<Rest>, start: int, target: Option<int>, page: nat, kept: seq<Rest>) {
    PageAt(s, Below(s, start), End(s, target), page, kept)
  }

  lemma {:induction false} ClippedFrom(s: seq<Rest>, p: nat, page: nat, t: int)
    requires AscendingIds(s) && p <= Below(s, t)
    ensures PageAt(s, p, Below(s, t), page, KeepBelow(FirstFrom(s, p, page), t))
  {
    hide AscendingIds, KeepBelow, Below;
    var top := if p + page <= |s| then p + page else |s|;
    assert FirstFrom(s, p, page) == s[p..top];
    ClippedStretch(s, p, top, t);
  }

  lemma {:induction false} ClippedPage(s: seq<Rest>, start: int, target: Option<int>, page: nat)
    requires AscendingIds(s) && (target.Some? ==> start < target.value)
    ensures IsPage(s, start, target, page, Clip(FetchPage(s, start, page), target))
  {
    match target
    case None =>
    case Some(t) =>
      BelowOrdered(s, start, t);
      ClippedFrom(s, Below(s, start), page, t);
  }

  /** Growth at the tip does not move the place of an id already passed. */
  lemma {:induction false} PrefixBelow(s: seq<Rest>, z: seq<Rest>, a: int)
    requires s <= z && Below(s, a) < |s|
    ensures Below(z, a) == Below(s, a)
  {
    assert z[0] == s[0];
    if s[0].id < a {
      PrefixBelow(s[1..], z[1..], a);
    }
  }

  /** After a full page, then and ever after: the page is the next stretch of the exchange, and
      the id after its last is where the rest begins. */
  lemma {:induction false} FullPage(s: seq<Rest>, z: seq<Rest>, start: int, page: nat)
    requires AscendingIds(z) && s <= z && page >= 1 && Below(s, start) + page <= |s|
    ensures Below(z, start) == Below(s, start)
    ensures Below(z, z[Below(s, start) + page - 1].id + 1) == Below(s, start) + page
  {
    PrefixBelow(s, z, start);
    BelowUnique(z, z[Below(s, start) + page - 1].id + 1, Below(s, start) + page);
  }

  lemma {:induction false} BelowAll(s: seq<Rest>, z: seq<Rest>, a: int)
    requires s <= z && Below(s, a) == |s|
    ensures Below(z, a) >= |s|
  {
    if s != [] {
      assert z[0] == s[0];
      BelowAll(s[1..], z[1..], a);
    }
  }

  lemma {:induction false} EndGrows(s: seq<Rest>, z: seq<Rest>, target: Option<int>)
    requires s <= z
    ensures End(s, target) <= End(z, target)
  {
    if target.Some? {
      if Below(s, target.value) < |s| {
        PrefixBelow(s, z, target.value);
      } else {
        BelowAll(s, z, target.value);
      }
    }
  }

  lemma SplitStretch(z: seq<Rest>, p: nat, mid: nat, e: nat)
    requires p <= mid <= e <= |z|
    ensures z[p..e] == z[p..mid] + z[mid..e]
  {
  }

  lemma BetweenAscends(rs: seq<Rest>, lo: int, hi: Option<int>)
    requires AscendingIds(rs)
    ensures AscendingIds(Between(rs, lo, hi))
  {
  }

  lemma NothingBetween(rs: seq<Rest>, lo: int, hi: int)
    requires AscendingIds(rs) && hi <= lo
    ensures Between(rs, lo, Some(hi)) == []
  {
    BelowOrdered(rs, hi, lo);
  }

  lemma SameStretch(s: seq<Rest>, z: seq<Rest>, p: nat, e: nat)
    requires s <= z && p <= e <= |s|
    ensures s[p..e] == z[p..e]
  {
  }

  lemma PrefixLast(s: seq<Rest>, z: seq<Rest>, e: nat)
    requires s <= z && 0 < e <= |s|
    ensures s[e - 1] == z[e - 1]
  {
  }

  /** What lies between, cut where `mid` stands. */
  lemma SplitBetween(z: seq<Rest>, start: int, mid: int, target: Option<int>)
    requires Below(z, start) <= Below(z, mid) <= End(z, target)
    ensures Between(z, start, target) == z[Below(z, start)..Below(z, mid)] + Between(z, mid, target)
  {
    SplitStretch(z, Below(z, start), Below(z, mid), End(z, target));
  }

  /** A full page is a prefix of what is left, then and ever after. */
  lemma {:induction false} FullPageOfRest(s: seq<Rest>, z: seq<Rest>, start: int, target: Option<int>, page: nat)
    requires AscendingIds(z) && s <= z && page >= 1 && Below(s, start) + page <= End(s, target)
    ensures var kept := s[Below(s, start)..Below(s, start) + page];
            Between(z, start, target) == kept + Between(z, kept[page - 1].id + 1, target)
  {
    hide AscendingIds, Below, End;
    var p := Below(s, start);
    FullPage(s, z, start, page);
    EndGrows(s, z, target);
    SameStretch(s, z, p, p + page);
    PrefixLast(s, z, p + page);
    assert s[p..p + page][page - 1] == s[p + page - 1];
    SplitBetween(z, start, s[p + page - 1].id + 1, target);
  }

  lemma PageSize(s: seq<Rest>, start: int, target: Option<int>, page: nat, kept: seq<Rest>)
    requires IsPage(s, start, target, page, kept)
    ensures var p := Below(s, start);
            if p + page <= End(s, target) then |kept| == page && kept == s[p..p + page]
            else |kept| < page && kept == Between(s, start, target)
  {
  }

  /** What one page contributes: everything left, or a prefix of what is left. */
  lemma {:induction false} PageOfRest(s: seq<Rest>, z: seq<Rest>, start: int, target: Option<int>, page: nat,
                                      kept: seq<Rest>)
    requires AscendingIds(z) && s <= z && page >= 1 && IsPage(s, start, target, page, kept)
    ensures |kept| < page ==> kept == Between(s, start, target)
    ensures |kept| >= page ==> Between(z, start, target) == kept + Between(z, kept[|kept| - 1].id + 1, target)
  {
    hide *;
    PageSize(s, start, target, page, kept);
    if |kept| >= page {
      FullPageOfRest(s, z, start, target, page);
    }
  }

  /** Each clipped answer is a page of the exchange as it then is. */
  ghost predicate Answers(got: Client, u: nat -> seq<Rest>, target: Option<int>, page: nat) {
    forall n: nat, start: int {:trigger got(n, start)} ::
      (target.Some? ==> start < target.value) ==> IsPage(u(n), start, target, page, got(n, start))
  }

  lemma HonestAnswers(fetch: Client, u: nat -> seq<Rest>, target: Option<int>, page: nat)
    requires Honest(fetch, u, page) && GrowsAtTip(u)
    ensures Answers(Clipped(fetch, target), u, target, page)
  {
    forall n: nat, start: int | target.Some? ==> start < target.value
      ensures IsPage(u(n), start, target, page, Clip(fetch(n, start), target))
    {
      assert fetch(n, start) == FetchPage(u(n), start, page);
      assert AscendingIds(u(n));
      ClippedPage(u(n), start, target, page);
    }
  }

  lemma Snapshots(u: nat -> seq<Rest>, n: nat, m: nat)
    requires GrowsAtTip(u) && n <= m
    ensures AscendingIds(u(m)) && u(n) <= u(m)
  {
    assert Extends(u(n), u(m));
  }

  lemma {:induction false} AnswerOfRest(got: Client, u: nat -> seq<Rest>, n: nat, m: nat, start: int,
                                        target: Option<int>, page: nat)
    requires Answers(got, u, target, page) && GrowsAtTip(u) && n <= m && page >= 1
    requires target.Some? ==> start < target.value
    ensures |got(n, start)| < page ==> got(n, start) == Between(u(n), start, target)
    ensures |got(n, start)| >= page ==>
              Between(u(m), start, target)
              == got(n, start) + Between(u(m), got(n, start)[|got(n, start)| - 1].id + 1, target)
  {
    Snapshots(u, n, m);
    PageOfRest(u(n), u(m), start, target, page, got(n, start));
  }

  predicate SplitAt(kept: seq<Rest>, rest: int -> seq<Rest>, last: bool, start: int, page: nat) {
    && (|kept| < page && last ==> kept == rest(start))
    && (|kept| >= page >= 1 ==> rest(start) == kept + rest(kept[|kept| - 1].id + 1))
  }

  /** `rest` is split by every answer up to request m: into the answer and what remains, or
      into the answer alone when the answer ends the loop. */
  ghost predicate Splits(got: Client, rest: int -> seq<Rest>, m: nat, target: Option<int>, page: nat) {
    && (forall start: int {:trigger rest(start)} :: target.Some? && start >= target.value ==> rest(start) == [])
    && (forall n: nat, start: int {:trigger got(n, start)} :: n <= m && (target.Some? ==> start < target.value) ==>
          SplitAt(got(n, start), rest, n == m, start, page))
  }

  lemma {:induction false} PagesAreRest(got: Client, rest: int -> seq<Rest>, n: nat, m: nat, start: int,
                                        target: Option<int>, page: nat)
    requires Splits(got, rest, m, target, page) && Ends(got, n, start, target, page) && page >= 1
    requires m == LastOf(PagesFrom(got, n, start, target, page), n, page)
    ensures Rows(PagesFrom(got, n, start, target, page)) == rest(start)
    decreases PagesFrom(got, n, start, target, page)
  {
    hide Ends, PagesFrom;
    var ps, kept := PagesFrom(got, n, start, target, page), got(n, start);
    PagesStep(got, n, start, target, page);
    if !(target.Some? && start >= target.value) {
      assert SplitAt(kept, rest, n == m, start, page);
      if kept != [] && |kept| < page {
        assert Rows(Page(kept, Done)) == kept + Rows(Done);
      } else if kept != [] {
        PagesAreRest(got, rest, n + 1, m, kept[|kept| - 1].id + 1, target, page);
      }
    }
  }

  function RestOf(s: seq<Rest>, target: Option<int>): int -> seq<Rest> {
    start => Between(s, start, target)
  }

  lemma {:induction false} AnswersSplit(got: Client, u: nat -> seq<Rest>, m: nat, target: Option<int>, page: nat)
    requires Answers(got, u, target, page) && GrowsAtTip(u) && page >= 1
    ensures Splits(got, RestOf(u(m), target), m, target, page)
  {
    var rest := RestOf(u(m), target);
    forall start: int | target.Some? && start >= target.value ensures rest(start) == [] {
      assert AscendingIds(u(m));
      NothingBetween(u(m), start, target.value);
    }
    forall n: nat, start: int | n <= m && (target.Some? ==> start < target.value)
      ensures SplitAt(got(n, start), rest, n == m, start, page)
    {
      AnswerOfRest(got, u, n, m, start, target, page);
    }
  }

  /** The bridge inserts, in ascending order, exactly the exchange's trades from the first
      missing id up to the target, or to the tip seen by the last request. */
  lemma {:induction false} BridgeExact(fetch: Client, u: nat -> seq<Rest>, n: nat, start: int, target: Option<int>,
                                       page: nat)
    requires Honest(fetch, u, page) && GrowsAtTip(u) && page >= 1
             && Ends(Clipped(fetch, target), n, start, target, page)
    ensures Paged(fetch, n, start, target, page) == Between(u(LastFetch(fetch, n, start, target, page)), start, target)
    ensures AscendingIds(Paged(fetch, n, start, target, page))
  {
    hide Ends, PagesFrom, Between, GrowsAtTip, Honest;
    HonestAnswers(fetch, u, target, page);
    var m := LastFetch(fetch, n, start, target, page);
    AnswersSplit(Clipped(fetch, target), u, m, target, page);
    PagesAreRest(Clipped(fetch, target), RestOf(u(m), target), n, m, start, target, page);
    Snapshots(u, m, m);
    BetweenAscends(u(m), start, target);
  }

  // --- what is inserted when a request raises half way ------------------------------------------------

  /** The rows of the first `k` pages. */
  function FirstPages(p: Pages, k: nat): seq<Rest> {
    match p
    case Done => []
    case Page(trades, more) => if k == 0 then [] else trades + FirstPages(more, k - 1)
  }

  /** Where the loop stands after `k` pages: past the last id inserted. */
  function NextStart(p: Pages, start: int, k: nat): int {
    match p
    case Done => start
    case Page(trades, more) =>
      if k == 0 || trades == [] then start else NextStart(more, trades[|trades| - 1].id + 1, k - 1)
  }

  /** The pages after the first `k`. */
  function PagesAfter(p: Pages, k: nat): Pages {
    match p
    case Done => Done
    case Page(trades, more) => if k == 0 then p else PagesAfter(more, k - 1)
  }

  lemma {:induction false} BetweenJoins(z: seq<Rest>, a: int, b: int, c: int)
    requires AscendingIds(z) && a <= b <= c
    ensures Between(z, a, Some(c)) == Between(z, a, Some(b)) + Between(z, b, Some(c))
  {
    BelowOrdered(z, a, b);
    BelowOrdered(z, b, c);
    SplitStretch(z, Below(z, a), Below(z, b), Below(z, c));
  }

  /** A page is the exchange's stretch up to its own last id, then and ever after. */
  lemma {:induction false} PageIsStretch(s: seq<Rest>, z: seq<Rest>, start: int, target: Option<int>, page: nat,
                                         kept: seq<Rest>)
    requires AscendingIds(z) && s <= z && kept != [] && IsPage(s, start, target, page, kept)
    ensures kept == Between(z, start, Some(kept[|kept| - 1].id + 1))
  {
    var p, e := Below(s, start), Below(s, start) + |kept|;
    PrefixBelow(s, z, start);
    SameStretch(s, z, p, e);
    assert kept == z[p..e] && kept[|kept| - 1] == z[e - 1];
    BelowUnique(z, z[e - 1].id + 1, e);
  }

  /** The next page of an honest exchange, then and ever after. */
  lemma {:induction false} NextPageIsStretch(fetch: Client, u: nat -> seq<Rest>, n: nat, start: int,
                                             target: Option<int>, page: nat,
                                             m: nat, kept: seq<Rest>)
    requires Honest(fetch, u, page) && GrowsAtTip(u) && n <= m && (target.Some? ==> start < target.value)
    requires kept == Clipped(fetch, target)(n, start) && kept != []
    ensures kept == Between(u(m), start, Some(kept[|kept| - 1].id + 1)) && start <= kept[|kept| - 1].id
  {
    hide Between, IsPage, Clip, FetchPage;
    HonestAnswers(fetch, u, target, page);
    Snapshots(u, n, m);
    Snapshots(u, n, n);
    assert fetch(n, start) == FetchPage(u(n), start, page);
    PageAdvances(u(n), start, target, page);
    hide Honest;
    PageIsStretch(u(n), u(m), start, target, page, kept);
  }

  /** A page, if there is one, and where the loop goes after it. */
  lemma {:induction false} FirstPage(got: Client, n: nat, start: int, target: Option<int>, page: nat, j: nat, k: nat)
    ensures var ps := PagesIn(got, n, start, target, page, j);
            ps.Page? ==>
              && (target.Some? ==> start < target.value)
              && j > 0 && ps.trades == got(n, start) && ps.trades != []
              && (ps.more == Done
                  || ps.more == PagesIn(got, n + 1, ps.trades[|ps.trades| - 1].id + 1, target, page, j - 1))
              && FirstPages(ps, k + 1) == ps.trades + FirstPages(ps.more, k)
              && NextStart(ps, start, k + 1) == NextStart(ps.more, ps.trades[|ps.trades| - 1].id + 1, k)
  {
  }

  lemma Standstill(ps: Pages, start: int, k: nat)
    ensures k == 0 || ps == Done ==> FirstPages(ps, k) == [] && NextStart(ps, start, k) == start
  {
  }

  /** After every number of pages, whether or not the loop would ever end, the rows inserted are
      exactly the exchange's from the first missing id up to where the loop stands, on any later
      snapshot. */
  lemma {:induction false} EveryPrefixExact(fetch: Client, u: nat -> seq<Rest>, n: nat, start: int, target: Option<int>,
                                            page: nat, j: nat, k: nat, m: nat)
    requires Honest(fetch, u, page) && GrowsAtTip(u) && m >= n + k - 1
    ensures var ps := PagesIn(Clipped(fetch, target), n, start, target, page, j);
            FirstPages(ps, k) == Between(u(m), start, Some(NextStart(ps, start, k))) && NextStart(ps, start, k) >= start
    decreases k
  {
    hide *;
    var got := Clipped(fetch, target);
    var ps := PagesIn(got, n, start, target, page, j);
    Snapshots(u, m, m);
    if k == 0 || ps == Done {
      Standstill(ps, start, k);
      NothingBetween(u(m), start, start);
    } else {
      FirstPage(got, n, start, target, page, j, k - 1);
      var next := ps.trades[|ps.trades| - 1].id + 1;
      NextPageIsStretch(fetch, u, n, start, target, page, m, ps.trades);
      if ps.more == Done {
        Standstill(ps.more, next, k - 1);
      } else {
        EveryPrefixExact(fetch, u, n + 1, next, target, page, j - 1, k - 1, m);
        BetweenJoins(u(m), start, next, NextStart(ps, start, k));
      }
    }
  }

  /** Whatever honest exchange answers, `rows` are its trades in [from, start) by request m. */
  ghost predicate ExactSoFar(fetch: Client, from: int, page: nat, m: nat, start: int, rows: seq<Rest>) {
    forall u: nat -> seq<Rest> :: Honest(fetch, u, page) && GrowsAtTip(u) ==> rows == Between(u(m), from, Some(start))
  }

  lemma {:induction false} PrefixExactSoFar(fetch: Client, n: nat, from: int, target: Option<int>, page: nat, k: nat)
    requires Ends(Clipped(fetch, target), n, from, target, page)
    ensures var ps := PagesFrom(Clipped(fetch, target), n, from, target, page);
            ExactSoFar(fetch, from, page, n + k, NextStart(ps, from, k), FirstPages(ps, k))
  {
    hide Honest, GrowsAtTip;
    var j: nat :| EndsIn(Clipped(fetch, target), n, from, target, page, j);
    PagesAre(Clipped(fetch, target), n, from, target, page, j);
    hide Ends, EndsIn, PagesFrom, PagesIn;
    forall u: nat -> seq<Rest> | Honest(fetch, u, page) && GrowsAtTip(u)
      ensures var ps := PagesFrom(Clipped(fetch, target), n, from, target, page);
              FirstPages(ps, k) == Between(u(n + k), from, Some(NextStart(ps, from, k)))
    {
      EveryPrefixExact(fetch, u, n, from, target, page, j, k, n + k);
    }
  }

  // --- an exchange without holes -----------------------------------------------------------------

  predicate Lists(rs: seq<Rest>, id: int) {
    exists i :: 0 <= i < |rs| && rs[i].id == id
  }

  /** Every id in [lo, hi) is on the exchange at each fetch from n on. */
  ghost predicate Serves(u: nat -> seq<Rest>, n: nat, lo: int, hi: int) {
    forall m: nat, id :: m >= n && lo <= id < hi ==> Lists(u(m), id)
  }

  lemma {:induction false} IdsSpread(rs: seq<Rest>, lo: int, i: nat)
    requires AscendingIds(rs) && i < |rs| && forall k :: 0 <= k < |rs| ==> lo <= rs[k].id
    ensures rs[i].id >= lo + i
  {
    if i > 0 {
      IdsSpread(rs, lo, i - 1);
    }
  }

  lemma {:induction false} IdAtOrAfter(rs: seq<Rest>, lo: int, hi: int, i: nat)
    requires AscendingIds(rs) && i < hi - lo
    requires forall id :: lo <= id < hi ==> Lists(rs, id)
    ensures exists j :: i <= j < |rs| && rs[j].id == lo + i
  {
    assert Lists(rs, lo + i);
    var j :| 0 <= j < |rs| && rs[j].id == lo + i;
    if i > 0 {
      IdAtOrAfter(rs, lo, hi, i - 1);
      var k :| i - 1 <= k < |rs| && rs[k].id == lo + i - 1;
      assert k < j;
    }
  }

  /** Ascending ids covering a range hold exactly its numbers, in order. */
  lemma {:induction false} ContiguousIds(rs: seq<Rest>, lo: int, hi: int)
    requires AscendingIds(rs) && lo <= hi
    requires forall k :: 0 <= k < |rs| ==> lo <= rs[k].id < hi
    requires forall id :: lo <= id < hi ==> Lists(rs, id)
    ensures |rs| == hi - lo && forall i :: 0 <= i < |rs| ==> rs[i].id == lo + i
  {
    forall i | 0 <= i < hi - lo ensures i < |rs| && rs[i].id == lo + i {
      IdAtOrAfter(rs, lo, hi, i);
      var j :| i <= j < |rs| && rs[j].id == lo + i;
      IdsSpread(rs, lo, j);
    }
    if rs != [] {
      IdsSpread(rs, lo, |rs| - 1);
    }
    if hi > lo {
      IdAtOrAfter(rs, lo, hi, hi - lo - 1);
    }
  }

  lemma BetweenCovers(s: seq<Rest>, lo: int, hi: int)
    requires AscendingIds(s) && lo <= hi && forall id :: lo <= id < hi ==> Lists(s, id)
    ensures var rows := Between(s, lo, Some(hi));
            && (forall k :: 0 <= k < |rows| ==> lo <= rows[k].id < hi)
            && (forall id :: lo <= id < hi ==> Lists(rows, id))
  {
    var rows, p := Between(s, lo, Some(hi)), Below(s, lo);
    BelowMeaning(s, lo);
    BelowMeaning(s, hi);
    forall id | lo <= id < hi ensures Lists(rows, id) {
      assert Lists(s, id);
      var i :| 0 <= i < |s| && s[i].id == id;
      assert rows[i - p] == s[i];
    }
    forall k | 0 <= k < |rows| ensures lo <= rows[k].id < hi {
      assert rows[k] == s[p + k];
    }
  }

  /** When REST already serves every id below the target, the bridge inserts precisely the
      missing ids, one each. */
  lemma {:induction false} BridgeFillsGap(fetch: Client, u: nat -> seq<Rest>, n: nat, start: int, target: int,
                                          page: nat)
    requires Honest(fetch, u, page) && GrowsAtTip(u) && page >= 1 && start <= target && Serves(u, n, start, target)
    ensures var rows := Paged(fetch, n, start, Some(target), page);
            |rows| == target - start && forall i :: 0 <= i < |rows| ==> rows[i].id == start + i
  {
    HonestEnds(fetch, u, n, start, Some(target), page, target);
    BridgeExact(fetch, u, n, start, Some(target), page);
    var m := LastFetch(fetch, n, start, Some(target), page);
    assert AscendingIds(u(m));
    BetweenCovers(u(m), start, target);
    ContiguousIds(Paged(fetch, n, start, Some(target), page), start, target);
  }

  /** From `lo` on, the snapshot misses no id up to its tip. */
  predicate GaplessFrom(s: seq<Rest>, lo: int) {
    forall i, id :: 0 <= i < |s| && lo <= id <= s[i].id ==> Lists(s, id)
  }

  lemma TipCovers(s: seq<Rest>, lo: int)
    requires AscendingIds(s) && GaplessFrom(s, lo) && Between(s, lo, None) != []
    ensures var rows := Between(s, lo, None);
            var hi := rows[|rows| - 1].id + 1;
            && lo < hi
            && (forall k :: 0 <= k < |rows| ==> lo <= rows[k].id < hi)
            && (forall id :: lo <= id < hi ==> Lists(rows, id))
  {
    var rows, p := Between(s, lo, None), Below(s, lo);
    BelowMeaning(s, lo);
    var hi := rows[|rows| - 1].id + 1;
    assert rows[|rows| - 1] == s[|s| - 1];
    forall id | lo <= id < hi ensures Lists(rows, id) {
      assert Lists(s, id);
      var i :| 0 <= i < |s| && s[i].id == id;
      assert rows[i - p] == s[i];
    }
    forall k | 0 <= k < |rows| ensures lo <= rows[k].id < hi {
      assert rows[k] == s[p + k];
    }
  }

  lemma {:induction false} AllFromStart(s: seq<Rest>, start: int)
    requires AscendingIds(s)
    ensures forall i :: 0 <= i < |s| && s[i].id >= start ==> s[i] in Between(s, start, None)
  {
    BelowMeaning(s, start);
    forall i | 0 <= i < |s| && s[i].id >= start ensures s[i] in Between(s, start, None) {
      assert Between(s, start, None)[i - Below(s, start)] == s[i];
    }
  }

  /** Without a target the bridge inserts every id from the first missing one up to the tip that the last
      request saw, one each. */
  lemma {:induction false} BridgeReachesTip(fetch: Client, u: nat -> seq<Rest>, n: nat, start: int, page: nat)
    requires Honest(fetch, u, page) && GrowsAtTip(u) && page >= 1 && Ends(Clipped(fetch, None), n, start, None, page)
    requires forall m: nat {:trigger u(m)} :: GaplessFrom(u(m), start)
    ensures var rows, seen := Paged(fetch, n, start, None, page), u(LastFetch(fetch, n, start, None, page));
            && (forall i :: 0 <= i < |rows| ==> rows[i].id == start + i)
            && forall i :: 0 <= i < |seen| && seen[i].id >= start ==> seen[i] in rows
  {
    hide Ends, Paged, LastFetch, Between, Honest, GrowsAtTip, AscendingIds;
    BridgeExact(fetch, u, n, start, None, page);
    var m := LastFetch(fetch, n, start, None, page);
    var rows := Paged(fetch, n, start, None, page);
    Snapshots(u, m, m);
    AllFromStart(u(m), start);
    if rows != [] {
      assert GaplessFrom(u(m), start);
      TipCovers(u(m), start);
      ContiguousIds(rows, start, rows[|rows| - 1].id + 1);
    }
  }

  // --- the method ------------------------------------------------------------------------------------

  lemma ParseConcat(a: seq<Rest>, b: seq<Rest>, sym: string)
    ensures ParseAll(a + b, sym) == ParseAll(a, sym) + ParseAll(b, sym)
  {
  }

  /** The store after a bridge of `sym` that begins with request number n. */
  ghost function Bridged(db: Db, fetch: Client, n: nat, sym: string, target: Option<int>, page: nat): Db {
    match MaxStoredId(db, sym)
    case None => db
    case Some(floor) => InsertRaw(db, ParseAll(Paged(fetch, n, floor + 1, target, page), sym))
  }

  /** A bridge of `sym` that begins with request number n ends. */
  ghost predicate BridgeEnds(db: Db, fetch: Client, n: nat, sym: string, target: Option<int>, page: nat) {
    match MaxStoredId(db, sym)
    case None => true
    case Some(floor) => Ends(Clipped(fetch, target), n, floor + 1, target, page)
  }

  lemma InsertNothing(db: Db, sym: string)
    ensures InsertRaw(db, ParseAll([], sym)) == db
  {
    assert db.trade + Stamp(ParseAll([], sym)) == db.trade;
  }

  lemma InsertMore(db: Db, a: seq<Rest>, b: seq<Rest>, sym: string)
    ensures InsertRaw(InsertRaw(db, ParseAll(a, sym)), ParseAll(b, sym)) == InsertRaw(db, ParseAll(a + b, sym))
  {
    InsertTwice(db, ParseAll(a, sym), ParseAll(b, sym));
    ParseConcat(a, b, sym);
  }

  /** No page is empty. */
  predicate Nonempty(p: Pages) {
    p.Page? ==> p.trades != [] && Nonempty(p.more)
  }

  /** `k` pages in, the next one leads to `k + 1`. */
  lemma {:induction false} OnePageMore(all: Pages, from: int, k: nat)
    requires Nonempty(all) && PagesAfter(all, k).Page?
    ensures var p := PagesAfter(all, k);
            && p.trades != []
            && FirstPages(all, k + 1) == FirstPages(all, k) + p.trades
            && PagesAfter(all, k + 1) == p.more
            && NextStart(all, from, k + 1) == p.trades[|p.trades| - 1].id + 1
    decreases k
  {
    match all {
      case Done =>
      case Page(trades, more) =>
        if k > 0 {
          OnePageMore(more, trades[|trades| - 1].id + 1, k - 1);
          assert trades + FirstPages(more, k - 1) + PagesAfter(more, k - 1).trades
              == trades + (FirstPages(more, k - 1) + PagesAfter(more, k - 1).trades);
        }
    }
  }

  lemma {:induction false} PagesNonempty(got: Client, n: nat, start: int, target: Option<int>, page: nat)
    requires Ends(got, n, start, target, page)
    ensures Nonempty(PagesFrom(got, n, start, target, page))
    decreases PagesFrom(got, n, start, target, page)
  {
    hide Ends, PagesFrom;
    var ps := PagesFrom(got, n, start, target, page);
    PagesStep(got, n, start, target, page);
    if ps.Page? && |ps.trades| >= page {
      PagesNonempty(got, n + 1, ps.trades[|ps.trades| - 1].id + 1, target, page);
    }
  }

  /** With no pages left, every row is in. */
  lemma {:induction false} AllPages(all: Pages, k: nat)
    requires PagesAfter(all, k) == Done
    ensures FirstPages(all, k) == Rows(all)
    decreases k
  {
    if all.Page? && k > 0 {
      AllPages(all.more, k - 1);
    }
  }

  lemma NoPages(all: Pages, from: int)
    ensures FirstPages(all, 0) == [] && NextStart(all, from, 0) == from && PagesAfter(all, 0) == all
  {
  }

  /** The paging loop. At every pass, and so also if the next request raises, what it has
      inserted is the first `k` pages: exactly the exchange's trades from `from` to `start`. */
  method PageFrom(writer: Process, fetch: Client, n: nat, from: int, sym: string, target: Option<int>, page: nat,
                  ghost got: Client)
    returns (inserted: nat, next: nat)
    requires got == Clipped(fetch, target) && Ends(got, n, from, target, page)
    modifies writer
    ensures writer.Model() == InsertRaw(old(writer.Model()), ParseAll(Rows(PagesFrom(got, n, from, target, page)), sym))
    ensures inserted == |Rows(PagesFrom(got, n, from, target, page))|
    ensures next >= n
  {
    hide Ends, PagesFrom, FirstPages, NextStart, PagesAfter, Rows, InsertRaw, ParseAll, ExactSoFar, Nonempty;
    var start := from;
    inserted, next := 0, n;
    ghost var all, k, db := PagesFrom(got, n, from, target, page), 0, writer.Model();
    ghost var todo := all;
    NoPages(all, from);
    PagesNonempty(got, n, from, target, page);
    InsertNothing(db, sym);
    PrefixExactSoFar(fetch, n, from, target, page, 0);
    while target.None? || start < target.value
      invariant next == n + k && start == NextStart(all, from, k)
      invariant Ends(got, next, start, target, page)
      invariant todo == PagesAfter(all, k) == PagesFrom(got, next, start, target, page)
      invariant writer.Model() == InsertRaw(db, ParseAll(FirstPages(all, k), sym))
      invariant inserted == |FirstPages(all, k)|
      invariant ExactSoFar(fetch, from, page, next, start, FirstPages(all, k))
      decreases todo
    {
      var trades := fetch(next, start);
      PagesStep(got, next, start, target, page);
      trades := Clip(trades, target);
      if trades == [] {
        break;
      }
      OnePageMore(all, from, k);
      InsertMore(db, FirstPages(all, k), trades, sym);
      PrefixExactSoFar(fetch, n, from, target, page, k + 1);
      var count := writer.InsertTrades(ParseAll(trades, sym));
      inserted, k, todo := inserted + count, k + 1, todo.more;
      if |trades| < page {
        break;
      }
      start := trades[|trades| - 1].id + 1;
      next := next + 1;
    }
    PagesStep(got, next, start, target, page);
    AllPages(all, k);
  }

  /** Page REST trades into the store, from the last stored id up to the target or the tip. */
  method BridgeSymbol(writer: Process, fetch: Client, n: nat, sym: string, target: Option<int>, page: nat)
    returns (inserted: nat, fromId: Option<int>, next: nat)
    requires BridgeEnds(writer.Model(), fetch, n, sym, target, page)
    modifies writer
    ensures writer.Model() == Bridged(old(writer.Model()), fetch, n, sym, target, page)
    ensures match MaxStoredId(old(writer.Model()), sym)
            case None => inserted == 0 && fromId == None
            case Some(floor) => inserted == |Paged(fetch, n, floor + 1, target, page)| && fromId == Some(floor + 1)
    ensures next >= n
  {
    hide Ends, PagesFrom;
    ghost var db := writer.Model();
    var floor := MaxStoredId(Db(writer.trade, writer.quote, writer.hdb), sym);
    assert floor == MaxStoredId(db, sym);
    if floor.None? {
      return 0, None, n;
    }
    inserted, next := PageFrom(writer, fetch, n, floor.value + 1, sym, target, page, Clipped(fetch, target));
    fromId := Some(floor.value + 1);
  }
}
