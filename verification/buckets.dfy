/** Time-stamped rows, the stable time sort, and grouping by `sz xbar time`. */
module Buckets {
  import opened Ascents

  datatype Stamped<T> = Stamped(time: int, body: T)

  /** `sz xbar t`: the start of the width-sz bucket holding t (floor division). */
  function Xbar(sz: int, t: int): int
    requires sz > 0
  {
    t / sz * sz
  }

  lemma MulMonotone(sz: int, a: int, b: int)
    requires sz > 0 && a <= b
    ensures a * sz <= b * sz
  {
  }

  lemma XbarMonotone(sz: int, t: int, u: int)
    requires sz > 0 && t <= u
    ensures Xbar(sz, t) <= Xbar(sz, u)
  {
    if t / sz > u / sz {
      var a, b := t / sz, u / sz;
      assert a >= b + 1;
      MulMonotone(sz, b + 1, a);
    }
  }

  lemma QuotientUnique(sz: int, q: int, r: int)
    requires sz > 0 && 0 <= r < sz
    ensures (q * sz + r) / sz == q
  {
    var d := (q * sz + r) / sz;
    if d < q {
      MulMonotone(sz, d + 1, q);
    } else if d > q {
      MulMonotone(sz, q + 1, d);
    }
  }

  /** A time's bucket is the multiple of the width at or below it, less than one width away. */
  lemma XbarMeaning(sz: int, t: int, k: int)
    requires sz > 0
    ensures Xbar(sz, t) == k <==> k % sz == 0 && k <= t < k + sz
  {
    QuotientUnique(sz, t / sz, 0);
    if k % sz == 0 && k <= t < k + sz {
      QuotientUnique(sz, k / sz, t - k);
    }
  }

  /** Bucketing at a multiple of the base width does not see the base bucketing. */
  lemma XbarNests(base: int, m: int, t: int)
    requires base > 0 && m > 0
    ensures m * base > 0
    ensures Xbar(m * base, Xbar(base, t)) == Xbar(m * base, t)
  {
    var sz := m * base;
    var q, s := t / base, t % base;
    var c, r := q / m, q % m;
    MulMonotone(base, 1, m);
    assert q * base == c * sz + r * base by {
      assert q == c * m + r;
      assert (c * m + r) * base == c * m * base + r * base;
      assert c * m * base == c * (m * base);
    }
    MulMonotone(base, 0, r);
    MulMonotone(base, r, m - 1);
    assert (m - 1) * base == sz - base;
    QuotientUnique(sz, c, r * base);
    QuotientUnique(sz, c, r * base + s);
    assert t == c * sz + (r * base + s);
  }

  // --- ordered distinct keys -------------------------------------------------------

  /** The keys of `select ... by bar: sz xbar time`, ascending. */
  function Keys<T>(rows: seq<Stamped<T>>, sz: int): seq<int>
    requires sz > 0
  {
    if rows == [] then [] else InsertKey(Xbar(sz, rows[0].time), Keys(rows[1..], sz))
  }

  ghost predicate HasKey<T>(rows: seq<Stamped<T>>, sz: int, k: int)
    requires sz > 0
  {
    exists i :: 0 <= i < |rows| && Xbar(sz, rows[i].time) == k
  }

  lemma {:induction false} KeysMeaning<T>(rows: seq<Stamped<T>>, sz: int)
    requires sz > 0
    ensures Ascending(Keys(rows, sz))
    ensures forall k :: k in Keys(rows, sz) <==> HasKey(rows, sz, k)
  {
    if rows != [] {
      KeysMeaning(rows[1..], sz);
      InsertKeyKeeps(Xbar(sz, rows[0].time), Keys(rows[1..], sz));
      forall k ensures HasKey(rows, sz, k) <==> Xbar(sz, rows[0].time) == k || HasKey(rows[1..], sz, k) {
        if HasKey(rows[1..], sz, k) {
          var i :| 0 <= i < |rows[1..]| && Xbar(sz, rows[1..][i].time) == k;
          assert rows[i + 1] == rows[1..][i];
        }
        if HasKey(rows, sz, k) {
          var i :| 0 <= i < |rows| && Xbar(sz, rows[i].time) == k;
          assert i > 0 ==> rows[i] == rows[1..][i - 1];
        }
      }
    }
  }

  lemma TailMember(a: seq<int>, x: int)
    requires a != [] && Ascending(a)
    ensures x in a[1..] <==> x in a && x != a[0]
  {
    if x in a[1..] {
      var i :| 0 <= i < |a[1..]| && a[1..][i] == x;
      assert a[i + 1] == x;
    }
    assert a == [a[0]] + a[1..];
  }

  /** An ascending sequence is determined by its elements. */
  lemma {:induction false} AscendingUnique(a: seq<int>, b: seq<int>)
    requires Ascending(a) && Ascending(b)
    requires forall x :: x in a <==> x in b
    ensures a == b
  {
    if b != [] {
      assert b[0] in b;
    }
    if a != [] {
      assert a[0] in a;
      assert a[0] == b[0];
      assert a == [a[0]] + a[1..] && b == [b[0]] + b[1..];
      forall x ensures x in a[1..] <==> x in b[1..] {
        TailMember(a, x);
        TailMember(b, x);
      }
      AscendingUnique(a[1..], b[1..]);
    }
  }

  // --- groups ----------------------------------------------------------------------

  /** The bodies of the rows in bucket k, in table order. */
  function Group<T>(rows: seq<Stamped<T>>, sz: int, k: int): seq<T>
    requires sz > 0
  {
    if rows == [] then []
    else (if Xbar(sz, rows[0].time) == k then [rows[0].body] else []) + Group(rows[1..], sz, k)
  }

  lemma {:induction false} GroupNonempty<T>(rows: seq<Stamped<T>>, sz: int, k: int)
    requires sz > 0 && HasKey(rows, sz, k)
    ensures Group(rows, sz, k) != []
  {
    var i :| 0 <= i < |rows| && Xbar(sz, rows[i].time) == k;
    if i > 0 {
      assert rows[1..][i - 1] == rows[i];
      GroupNonempty(rows[1..], sz, k);
    }
  }

  function Bodies<T>(rows: seq<Stamped<T>>): (r: seq<T>)
    ensures |r| == |rows| && forall i :: 0 <= i < |r| ==> r[i] == rows[i].body
  {
    seq(|rows|, i requires 0 <= i < |rows| => rows[i].body)
  }

  lemma {:induction false} GroupSubset<T>(rows: seq<Stamped<T>>, sz: int, k: int)
    requires sz > 0
    ensures forall x :: x in Group(rows, sz, k) ==> x in Bodies(rows)
  {
    if rows != [] {
      GroupSubset(rows[1..], sz, k);
      assert Bodies(rows) == [rows[0].body] + Bodies(rows[1..]);
    }
  }

  function OverKeys<T, C>(rows: seq<Stamped<T>>, sz: int, agg: seq<T> -> C, ks: seq<int>): (r: seq<Stamped<C>>)
    requires sz > 0
    ensures |r| == |ks|
    ensures forall i :: 0 <= i < |r| ==> r[i] == Stamped(ks[i], agg(Group(rows, sz, ks[i])))
  {
    if ks == [] then []
    else [Stamped(ks[0], agg(Group(rows, sz, ks[0])))] + OverKeys(rows, sz, agg, ks[1..])
  }

  /** `select agg by bar: sz xbar time from rows`. */
  function GroupBy<T, C>(rows: seq<Stamped<T>>, sz: int, agg: seq<T> -> C): seq<Stamped<C>>
    requires sz > 0
  {
    OverKeys(rows, sz, agg, Keys(rows, sz))
  }

  /** The bodies of the rows from time `k` up to, but not at, `k + sz`, in table order. */
  function During<T>(rows: seq<Stamped<T>>, k: int, sz: int): seq<T> {
    if rows == [] then []
    else (if k <= rows[0].time < k + sz then [rows[0].body] else []) + During(rows[1..], k, sz)
  }

  lemma {:induction false} GroupIsDuring<T>(rows: seq<Stamped<T>>, sz: int, k: int)
    requires sz > 0 && k % sz == 0
    ensures Group(rows, sz, k) == During(rows, k, sz)
  {
    if rows != [] {
      XbarMeaning(sz, rows[0].time, k);
      GroupIsDuring(rows[1..], sz, k);
    }
  }

  /** One bucket of the result: aligned, not empty, and aggregating the rows whose time lies in it. */
  ghost predicate IsBucket<T, C>(b: Stamped<C>, rows: seq<Stamped<T>>, sz: int, agg: seq<T> -> C)
    requires sz > 0
  {
    && b.time % sz == 0
    && During(rows, b.time, sz) != []
    && b.body == agg(During(rows, b.time, sz))
  }

  predicate Covers<C>(bs: seq<Stamped<C>>, t: int, sz: int) {
    exists j :: 0 <= j < |bs| && bs[j].time <= t < bs[j].time + sz
  }

  /** Grouping gives ascending buckets, each as above, and one for every row. */
  lemma GroupByMeaning<T, C>(rows: seq<Stamped<T>>, sz: int, agg: seq<T> -> C)
    requires sz > 0
    ensures var bs := GroupBy(rows, sz, agg);
            && (forall i, j :: 0 <= i < j < |bs| ==> bs[i].time < bs[j].time)
            && (forall i :: 0 <= i < |bs| ==> IsBucket(bs[i], rows, sz, agg))
            && (forall i :: 0 <= i < |rows| ==> Covers(bs, rows[i].time, sz))
  {
    hide Keys, Group, Xbar, During;
    var ks, bs := Keys(rows, sz), GroupBy(rows, sz, agg);
    KeysMeaning(rows, sz);
    forall i | 0 <= i < |bs| ensures IsBucket(bs[i], rows, sz, agg) {
      assert ks[i] in ks;
      var j :| 0 <= j < |rows| && Xbar(sz, rows[j].time) == ks[i];
      XbarMeaning(sz, rows[j].time, ks[i]);
      GroupNonempty(rows, sz, ks[i]);
      GroupIsDuring(rows, sz, ks[i]);
    }
    forall i | 0 <= i < |rows| ensures Covers(bs, rows[i].time, sz) {
      var k := Xbar(sz, rows[i].time);
      assert HasKey(rows, sz, k);
      XbarMeaning(sz, rows[i].time, k);
      var j :| 0 <= j < |ks| && ks[j] == k;
      assert bs[j].time == k;
    }
  }

  // --- nested grouping -------------------------------------------------------------

  /** The base-width keys falling in coarse bucket k. */
  function KeysWithin(ks: seq<int>, sz: int, k: int): seq<int>
    requires sz > 0
  {
    if ks == [] then []
    else (if Xbar(sz, ks[0]) == k then [ks[0]] else []) + KeysWithin(ks[1..], sz, k)
  }

  lemma {:induction false} KeysWithinMeaning(ks: seq<int>, sz: int, k: int)
    requires sz > 0 && Ascending(ks)
    ensures Ascending(KeysWithin(ks, sz, k))
    ensures forall x :: x in KeysWithin(ks, sz, k) <==> x in ks && Xbar(sz, x) == k
  {
    if ks != [] {
      KeysWithinMeaning(ks[1..], sz, k);
      var r := KeysWithin(ks[1..], sz, k);
      assert ks == [ks[0]] + ks[1..];
      forall i | 0 <= i < |r| ensures ks[0] < r[i] {
        assert r[i] in r && r[i] in ks[1..];
      }
    }
  }

  /** The base-width groups of the given keys. */
  function Parts<T>(rows: seq<Stamped<T>>, base: int, ks: seq<int>): (r: seq<seq<T>>)
    requires base > 0
    ensures |r| == |ks| && forall i :: 0 <= i < |r| ==> r[i] == Group(rows, base, ks[i])
  {
    if ks == [] then [] else [Group(rows, base, ks[0])] + Parts(rows, base, ks[1..])
  }

  function Flatten<T>(parts: seq<seq<T>>): seq<T> {
    if parts == [] then [] else parts[0] + Flatten(parts[1..])
  }

  lemma {:induction false} FlattenSnoc<T>(parts: seq<seq<T>>, last: seq<T>)
    ensures Flatten(parts + [last]) == Flatten(parts) + last
  {
    if parts == [] {
      assert parts + [last] == [last];
      assert Flatten([last]) == last + Flatten([]);
    } else {
      FlattenSnoc(parts[1..], last);
      assert (parts + [last])[1..] == parts[1..] + [last];
    }
  }

  function MapAll<T, C>(parts: seq<seq<T>>, agg: seq<T> -> C): (r: seq<C>)
    ensures |r| == |parts| && forall i :: 0 <= i < |r| ==> r[i] == agg(parts[i])
  {
    if parts == [] then [] else [agg(parts[0])] + MapAll(parts[1..], agg)
  }

  lemma {:induction false} PartsOfNothing<T>(sz: int, ks: seq<int>)
    requires sz > 0
    ensures Flatten(Parts<T>([], sz, ks)) == []
  {
    if ks != [] {
      PartsOfNothing<T>(sz, ks[1..]);
    }
  }

  /** One more row in front adds exactly itself to the groups, when its bucket is listed. */
  lemma {:induction false} PartsGain<T>(x: Stamped<T>, rows: seq<Stamped<T>>, sz: int, ks: seq<int>)
    requires sz > 0 && Ascending(ks)
    ensures multiset(Flatten(Parts([x] + rows, sz, ks)))
            == multiset(Flatten(Parts(rows, sz, ks))) + if Xbar(sz, x.time) in ks then multiset{x.body} else multiset{}
  {
    assert ([x] + rows)[1..] == rows;
    if ks != [] {
      assert ks == [ks[0]] + ks[1..];
      TailMember(ks, Xbar(sz, x.time));
      PartsGain(x, rows, sz, ks[1..]);
      var g := Group(rows, sz, ks[0]);
      assert multiset([x.body] + g) == multiset{x.body} + multiset(g);
    }
  }

  lemma BodiesCons<T>(x: Stamped<T>, rest: seq<Stamped<T>>)
    ensures multiset(Bodies([x] + rest)) == multiset(Bodies(rest)) + multiset{x.body}
  {
    assert Bodies([x] + rest) == [x.body] + Bodies(rest);
  }

  /** The rows' buckets are all listed. */
  predicate Listed<T>(rows: seq<Stamped<T>>, sz: int, ks: seq<int>)
    requires sz > 0
  {
    forall i :: 0 <= i < |rows| ==> Xbar(sz, rows[i].time) in ks
  }

  lemma ListedTail<T>(x: Stamped<T>, rest: seq<Stamped<T>>, sz: int, ks: seq<int>)
    requires sz > 0 && Listed([x] + rest, sz, ks)
    ensures Xbar(sz, x.time) in ks && Listed(rest, sz, ks)
  {
    assert ([x] + rest)[0] == x;
    assert forall i :: 0 <= i < |rest| ==> rest[i] == ([x] + rest)[i + 1];
  }

  lemma {:induction false} PartsHold<T>(rows: seq<Stamped<T>>, sz: int, ks: seq<int>)
    requires sz > 0 && Ascending(ks) && Listed(rows, sz, ks)
    ensures multiset(Flatten(Parts(rows, sz, ks))) == multiset(Bodies(rows))
  {
    if rows == [] {
      PartsOfNothing<T>(sz, ks);
    } else {
      hide Parts, Flatten, Xbar, Ascending, Listed, Bodies;
      var x, rest := rows[0], rows[1..];
      assert rows == [x] + rest;
      ListedTail(x, rest, sz, ks);
      PartsHold(rest, sz, ks);
      PartsGain(x, rest, sz, ks);
      BodiesCons(x, rest);
    }
  }

  /** Every row is in exactly one group, whatever the order of the table. */
  lemma {:induction false} GroupsHoldEveryRow<T>(rows: seq<Stamped<T>>, sz: int)
    requires sz > 0
    ensures multiset(Flatten(Parts(rows, sz, Keys(rows, sz)))) == multiset(Bodies(rows))
  {
    KeysMeaning(rows, sz);
    forall i | 0 <= i < |rows| ensures Xbar(sz, rows[i].time) in Keys(rows, sz) {
      assert HasKey(rows, sz, Xbar(sz, rows[i].time));
    }
    PartsHold(rows, sz, Keys(rows, sz));
  }

  lemma {:induction false} GroupOfGroups<T, C>(rows: seq<Stamped<T>>, base: int, sz: int, agg: seq<T> -> C,
                                               ks: seq<int>, k: int)
    requires base > 0 && sz > 0
    ensures Group(OverKeys(rows, base, agg, ks), sz, k)
            == MapAll(Parts(rows, base, KeysWithin(ks, sz, k)), agg)
  {
    if ks != [] {
      GroupOfGroups(rows, base, sz, agg, ks[1..], k);
      var all := OverKeys(rows, base, agg, ks);
      assert all[1..] == OverKeys(rows, base, agg, ks[1..]);
      var within := KeysWithin(ks, sz, k);
      if Xbar(sz, ks[0]) == k {
        assert within[1..] == KeysWithin(ks[1..], sz, k);
      } else {
        assert within == KeysWithin(ks[1..], sz, k);
      }
    }
  }

  predicate InOrder<T>(rows: seq<Stamped<T>>) {
    forall i, j :: 0 <= i < j < |rows| ==> rows[i].time <= rows[j].time
  }

  /** The rows of `tail` come last, whatever is before them. */
  ghost predicate IsTail<T>(all: seq<Stamped<T>>, tail: seq<Stamped<T>>) {
    |tail| <= |all| && all[|all| - |tail|..] == tail
  }

  lemma TailLonger<T>(all: seq<Stamped<T>>, tail: seq<Stamped<T>>, more: seq<Stamped<T>>)
    requires IsTail(all, tail)
    ensures IsTail(all + more, tail + more)
  {
  }

  /** The bodies of the rows whose base bucket is one of ks, in table order. */
  function Select<T>(rows: seq<Stamped<T>>, base: int, ks: seq<int>): seq<T>
    requires base > 0
  {
    if rows == [] then []
    else (if Xbar(base, rows[0].time) in ks then [rows[0].body] else []) + Select(rows[1..], base, ks)
  }

  lemma {:induction false} NoSuchGroup<T>(rows: seq<Stamped<T>>, sz: int, k: int)
    requires sz > 0
    requires forall i :: 0 <= i < |rows| ==> Xbar(sz, rows[i].time) != k
    ensures Group(rows, sz, k) == []
  {
    if rows != [] {
      assert Xbar(sz, rows[0].time) != k;
      forall i | 0 <= i < |rows[1..]| ensures Xbar(sz, rows[1..][i].time) != k {
        assert rows[1..][i] == rows[i + 1];
      }
      NoSuchGroup(rows[1..], sz, k);
    }
  }

  lemma {:induction false} SelectHead<T>(rows: seq<Stamped<T>>, base: int, ks: seq<int>)
    requires base > 0 && ks != [] && Ascending(ks) && InOrder(rows)
    ensures Select(rows, base, ks) == Group(rows, base, ks[0]) + Select(rows, base, ks[1..])
  {
    if rows != [] {
      SelectHead(rows[1..], base, ks);
      assert ks == [ks[0]] + ks[1..];
      var b := Xbar(base, rows[0].time);
      if b in ks[1..] {
        if HasKey(rows, base, ks[0]) {
          var i :| 0 <= i < |rows| && Xbar(base, rows[i].time) == ks[0];
          XbarMonotone(base, rows[0].time, rows[i].time);
        }
        NoSuchGroup(rows[1..], base, ks[0]);
      }
    }
  }

  lemma {:induction false} SelectNone<T>(rows: seq<Stamped<T>>, base: int)
    requires base > 0
    ensures Select(rows, base, []) == []
  {
    if rows != [] {
      SelectNone(rows[1..], base);
    }
  }

  lemma {:induction false} SelectIsFlatParts<T>(rows: seq<Stamped<T>>, base: int, ks: seq<int>)
    requires base > 0 && Ascending(ks) && InOrder(rows)
    ensures Select(rows, base, ks) == Flatten(Parts(rows, base, ks))
  {
    if ks == [] {
      SelectNone(rows, base);
    } else {
      SelectHead(rows, base, ks);
      SelectIsFlatParts(rows, base, ks[1..]);
      assert Parts(rows, base, ks)[1..] == Parts(rows, base, ks[1..]);
    }
  }

  lemma {:induction false} SelectIsGroup<T>(rows: seq<Stamped<T>>, base: int, m: int, ks: seq<int>, k: int)
    requires base > 0 && m > 0 && m * base > 0
    requires forall i :: 0 <= i < |rows| ==>
               (Xbar(base, rows[i].time) in ks <==> Xbar(m * base, Xbar(base, rows[i].time)) == k)
    ensures Select(rows, base, ks) == Group(rows, m * base, k)
  {
    if rows != [] {
      XbarNests(base, m, rows[0].time);
      forall i | 0 <= i < |rows[1..]|
        ensures Xbar(base, rows[1..][i].time) in ks <==> Xbar(m * base, Xbar(base, rows[1..][i].time)) == k
      {
        assert rows[1..][i] == rows[i + 1];
      }
      SelectIsGroup(rows[1..], base, m, ks, k);
    }
  }

  /** For rows in time order, a coarse group is its base groups laid end to end. */
  lemma CoarseGroupIsItsParts<T>(rows: seq<Stamped<T>>, base: int, m: int, k: int)
    requires base > 0 && m > 0 && m * base > 0 && InOrder(rows)
    ensures Group(rows, m * base, k) == Flatten(Parts(rows, base, KeysWithin(Keys(rows, base), m * base, k)))
    ensures forall p :: p in Parts(rows, base, KeysWithin(Keys(rows, base), m * base, k)) ==> p != []
  {
    var sz := m * base;
    var all := Keys(rows, base);
    var ks := KeysWithin(all, sz, k);
    KeysMeaning(rows, base);
    KeysWithinMeaning(all, sz, k);
    forall i | 0 <= i < |rows|
      ensures Xbar(base, rows[i].time) in ks <==> Xbar(sz, Xbar(base, rows[i].time)) == k
    {
      assert HasKey(rows, base, Xbar(base, rows[i].time));
    }
    SelectIsGroup(rows, base, m, ks, k);
    SelectIsFlatParts(rows, base, ks);
    forall p | p in Parts(rows, base, ks) ensures p != [] {
      var i :| 0 <= i < |ks| && p == Group(rows, base, ks[i]);
      assert ks[i] in ks;
      GroupNonempty(rows, base, ks[i]);
    }
  }

  /** Re-bucketing yields the same bucket starts as bucketing directly. */
  lemma NestedKeys<T, C>(rows: seq<Stamped<T>>, base: int, m: int, agg: seq<T> -> C)
    requires base > 0 && m > 0 && m * base > 0
    ensures Keys(GroupBy(rows, base, agg), m * base) == Keys(rows, m * base)
  {
    var sz := m * base;
    var fine := GroupBy(rows, base, agg);
    var ks := Keys(rows, base);
    KeysMeaning(rows, base);
    KeysMeaning(rows, sz);
    KeysMeaning(fine, sz);
    forall k ensures HasKey(fine, sz, k) <==> HasKey(rows, sz, k) {
      if HasKey(fine, sz, k) {
        var i :| 0 <= i < |fine| && Xbar(sz, fine[i].time) == k;
        assert ks[i] in ks && HasKey(rows, base, ks[i]);
        var j :| 0 <= j < |rows| && Xbar(base, rows[j].time) == ks[i];
        XbarNests(base, m, rows[j].time);
      }
      if HasKey(rows, sz, k) {
        var j :| 0 <= j < |rows| && Xbar(sz, rows[j].time) == k;
        XbarNests(base, m, rows[j].time);
        assert HasKey(rows, base, Xbar(base, rows[j].time));
        var i :| 0 <= i < |ks| && ks[i] == Xbar(base, rows[j].time);
        assert fine[i].time == ks[i];
      }
    }
    AscendingUnique(Keys(fine, sz), Keys(rows, sz));
  }

  // --- the stable time sort --------------------------------------------------------

  function InsertByTime<T>(x: Stamped<T>, s: seq<Stamped<T>>): seq<Stamped<T>> {
    if s == [] || x.time <= s[0].time then [x] + s else [s[0]] + InsertByTime(x, s[1..])
  }

  /** `time xasc rows`: ascending by time, equal times keeping their order. */
  function SortByTime<T>(s: seq<Stamped<T>>): seq<Stamped<T>> {
    if s == [] then [] else InsertByTime(s[0], SortByTime(s[1..]))
  }

  lemma {:induction false} InsertByTimeMembers<T>(x: Stamped<T>, s: seq<Stamped<T>>)
    ensures multiset(InsertByTime(x, s)) == multiset{x} + multiset(s)
  {
    if s == [] {
    } else if x.time <= s[0].time {
      assert multiset([x] + s) == multiset([x]) + multiset(s);
    } else {
      InsertByTimeMembers(x, s[1..]);
      assert s == [s[0]] + s[1..];
    }
  }

  lemma {:induction false} InsertByTimeKeeps<T>(x: Stamped<T>, s: seq<Stamped<T>>)
    requires InOrder(s)
    ensures InOrder(InsertByTime(x, s))
    ensures multiset(InsertByTime(x, s)) == multiset{x} + multiset(s)
  {
    InsertByTimeMembers(x, s);
    if s != [] && x.time > s[0].time {
      InsertByTimeKeeps(x, s[1..]);
      var t := InsertByTime(x, s[1..]);
      forall i | 0 <= i < |t| ensures s[0].time <= t[i].time {
        assert t[i] in multiset(t);
        assert t[i] == x || t[i] in s[1..];
      }
    }
  }

  lemma {:induction false} SortMeaning<T>(s: seq<Stamped<T>>)
    ensures InOrder(SortByTime(s))
    ensures multiset(SortByTime(s)) == multiset(s)
  {
    if s != [] {
      SortMeaning(s[1..]);
      InsertByTimeKeeps(s[0], SortByTime(s[1..]));
      assert s == [s[0]] + s[1..];
    }
  }

  lemma SortMembers<T>(s: seq<Stamped<T>>, r: Stamped<T>)
    ensures r in SortByTime(s) <==> r in s
  {
    SortMeaning(s);
    assert r in SortByTime(s) <==> r in multiset(SortByTime(s));
    assert r in s <==> r in multiset(s);
  }

  lemma {:induction false} SortedIsFixed<T>(s: seq<Stamped<T>>)
    requires InOrder(s)
    ensures SortByTime(s) == s
  {
    if s != [] {
      SortedIsFixed(s[1..]);
      assert s == [s[0]] + s[1..];
    }
  }

  /** The rows in bucket k, in table order. */
  function GroupRows<T>(rows: seq<Stamped<T>>, sz: int, k: int): seq<Stamped<T>>
    requires sz > 0
  {
    if rows == [] then []
    else (if Xbar(sz, rows[0].time) == k then [rows[0]] else []) + GroupRows(rows[1..], sz, k)
  }

  lemma {:induction false} GroupIsBodies<T>(rows: seq<Stamped<T>>, sz: int, k: int)
    requires sz > 0
    ensures Group(rows, sz, k) == Bodies(GroupRows(rows, sz, k))
  {
    if rows != [] {
      GroupIsBodies(rows[1..], sz, k);
    }
  }

  lemma {:induction false} GroupRowsMembers<T>(rows: seq<Stamped<T>>, sz: int, k: int)
    requires sz > 0
    ensures forall i :: 0 <= i < |GroupRows(rows, sz, k)| ==>
              GroupRows(rows, sz, k)[i] in rows && Xbar(sz, GroupRows(rows, sz, k)[i].time) == k
  {
    if rows != [] {
      GroupRowsMembers(rows[1..], sz, k);
      assert rows == [rows[0]] + rows[1..];
    }
  }

  lemma GroupStartsNoEarlier<T>(s: seq<Stamped<T>>, sz: int, k: int)
    requires sz > 0 && s != [] && InOrder(s)
    ensures GroupRows(s, sz, k) != [] ==> s[0].time <= GroupRows(s, sz, k)[0].time
  {
    GroupRowsMembers(s, sz, k);
    var g := GroupRows(s, sz, k);
    if g != [] {
      var j :| 0 <= j < |s| && s[j] == g[0];
    }
  }

  lemma {:induction false} GroupOfInsert<T>(x: Stamped<T>, s: seq<Stamped<T>>, sz: int, k: int)
    requires sz > 0 && InOrder(s)
    ensures GroupRows(InsertByTime(x, s), sz, k)
            == if Xbar(sz, x.time) == k then InsertByTime(x, GroupRows(s, sz, k)) else GroupRows(s, sz, k)
  {
    var t := InsertByTime(x, s);
    if s == [] {
    } else if x.time <= s[0].time {
      assert t[1..] == s;
      GroupStartsNoEarlier(s, sz, k);
      var g := GroupRows(s, sz, k);
      assert InsertByTime(x, g) == [x] + g;
      assert GroupRows(t, sz, k) == (if Xbar(sz, x.time) == k then [x] else []) + g;
    } else {
      GroupOfInsert(x, s[1..], sz, k);
      assert t[1..] == InsertByTime(x, s[1..]);
      if Xbar(sz, s[0].time) == k {
        var g := GroupRows(s, sz, k);
        assert g[1..] == GroupRows(s[1..], sz, k);
      } else {
        assert GroupRows(s, sz, k) == GroupRows(s[1..], sz, k);
        assert GroupRows(t, sz, k) == GroupRows(t[1..], sz, k);
      }
    }
  }

  /** Sorting and then grouping is grouping and then sorting each group. */
  lemma {:induction false} GroupOfSort<T>(s: seq<Stamped<T>>, sz: int, k: int)
    requires sz > 0
    ensures GroupRows(SortByTime(s), sz, k) == SortByTime(GroupRows(s, sz, k))
  {
    if s != [] {
      GroupOfSort(s[1..], sz, k);
      SortMeaning(s[1..]);
      GroupOfInsert(s[0], SortByTime(s[1..]), sz, k);
      var g := GroupRows(s, sz, k);
      if Xbar(sz, s[0].time) == k {
        assert g[1..] == GroupRows(s[1..], sz, k);
      } else {
        assert g == GroupRows(s[1..], sz, k);
      }
    }
  }

  lemma {:induction false} BucketOfOne<T>(s: seq<Stamped<T>>, t: int)
    ensures forall i :: 0 <= i < |GroupRows(s, 1, t)| ==> GroupRows(s, 1, t)[i].time == t
  {
    if s != [] {
      BucketOfOne(s[1..], t);
    }
  }

  /** The sort is stable: the rows at one time keep their order. */
  lemma SortIsStable<T>(s: seq<Stamped<T>>, t: int)
    ensures GroupRows(SortByTime(s), 1, t) == GroupRows(s, 1, t)
  {
    GroupOfSort(s, 1, t);
    BucketOfOne(s, t);
    SortedIsFixed(GroupRows(s, 1, t));
  }

  lemma {:induction false} InsertBodies<T>(x: Stamped<T>, s: seq<Stamped<T>>)
    ensures multiset(Bodies(InsertByTime(x, s))) == multiset{x.body} + multiset(Bodies(s))
  {
    var r := InsertByTime(x, s);
    if s == [] || x.time <= s[0].time {
      assert Bodies(r) == [x.body] + Bodies(s);
    } else {
      InsertBodies(x, s[1..]);
      assert Bodies(s) == [s[0].body] + Bodies(s[1..]);
      assert Bodies(r) == [s[0].body] + Bodies(InsertByTime(x, s[1..]));
    }
  }

  lemma {:induction false} SortBodies<T>(s: seq<Stamped<T>>)
    ensures multiset(Bodies(SortByTime(s))) == multiset(Bodies(s))
  {
    if s != [] {
      SortBodies(s[1..]);
      InsertBodies(s[0], SortByTime(s[1..]));
      assert Bodies(s) == [s[0].body] + Bodies(s[1..]);
    }
  }

  /** Sorting moves no row to another bucket and loses none. */
  lemma SortGroup<T>(s: seq<Stamped<T>>, sz: int, k: int)
    requires sz > 0
    ensures multiset(Group(SortByTime(s), sz, k)) == multiset(Group(s, sz, k))
  {
    var g := GroupRows(s, sz, k);
    GroupOfSort(s, sz, k);
    SortBodies(g);
    GroupIsBodies(s, sz, k);
    GroupIsBodies(SortByTime(s), sz, k);
  }

  lemma {:induction false} InsertBeforeLast<T>(x: Stamped<T>, s: seq<Stamped<T>>)
    requires s != [] && x.time <= s[|s| - 1].time
    ensures var r := InsertByTime(x, s); r != [] && r[|r| - 1] == s[|s| - 1]
  {
    if x.time > s[0].time {
      InsertBeforeLast(x, s[1..]);
    }
  }

  lemma {:induction false} SortLength<T>(g: seq<Stamped<T>>)
    ensures |SortByTime(g)| == |g|
  {
    SortMeaning(g);
    assert |multiset(SortByTime(g))| == |multiset(g)|;
  }

  ghost predicate StartsEarliest<T>(g: seq<Stamped<T>>) {
    forall j :: 0 <= j < |g| ==> g[0].time <= g[j].time
  }

  ghost predicate EndsLatest<T>(g: seq<Stamped<T>>) {
    forall j :: 0 <= j < |g| ==> g[j].time <= g[|g| - 1].time
  }

  /** Every row of the sorted table comes from the table. */
  lemma SortMember<T>(g: seq<Stamped<T>>, i: nat) returns (j: nat)
    requires i < |SortByTime(g)|
    ensures j < |g| && g[j] == SortByTime(g)[i]
  {
    SortMeaning(g);
    assert SortByTime(g)[i] in multiset(g);
    j :| 0 <= j < |g| && g[j] == SortByTime(g)[i];
  }

  /** A row that is first in the table and earliest in time stays first. */
  lemma SortKeepsFirst<T>(g: seq<Stamped<T>>)
    requires g != [] && StartsEarliest(g)
    ensures SortByTime(g) != [] && SortByTime(g)[0] == g[0]
  {
    SortLength(g);
    var t := SortByTime(g[1..]);
    if t != [] {
      var j := SortMember(g[1..], 0);
      assert g[j + 1] == t[0];
    }
  }

  /** A row that is last in the table and latest in time stays last. */
  lemma {:induction false} SortKeepsLast<T>(g: seq<Stamped<T>>)
    requires g != [] && EndsLatest(g)
    ensures |SortByTime(g)| == |g| && SortByTime(g)[|g| - 1] == g[|g| - 1]
  {
    SortLength(g);
    if |g| > 1 {
      forall j | 0 <= j < |g[1..]| ensures g[1..][j].time <= g[1..][|g[1..]| - 1].time {
        assert g[1..][j] == g[j + 1];
      }
      SortKeepsLast(g[1..]);
      SortLength(g[1..]);
      InsertBeforeLast(g[0], SortByTime(g[1..]));
    }
  }

  lemma SortKeys<T>(s: seq<Stamped<T>>, sz: int)
    requires sz > 0
    ensures Keys(SortByTime(s), sz) == Keys(s, sz)
  {
    var t := SortByTime(s);
    SortMeaning(s);
    KeysMeaning(s, sz);
    KeysMeaning(t, sz);
    forall k ensures HasKey(t, sz, k) <==> HasKey(s, sz, k) {
      if HasKey(t, sz, k) {
        var i :| 0 <= i < |t| && Xbar(sz, t[i].time) == k;
        assert t[i] in multiset(s);
        var j :| 0 <= j < |s| && s[j] == t[i];
        assert Xbar(sz, s[j].time) == k;
      }
      if HasKey(s, sz, k) {
        var i :| 0 <= i < |s| && Xbar(sz, s[i].time) == k;
        assert s[i] in multiset(t);
        var j :| 0 <= j < |t| && t[j] == s[i];
        assert Xbar(sz, t[j].time) == k;
      }
    }
    AscendingUnique(Keys(t, sz), Keys(s, sz));
  }

  /** Wherever a row of the group stands, the sorted group starts no later and ends no earlier. */
  lemma SortedEndsBound<T>(g: seq<Stamped<T>>, j: nat)
    requires j < |g|
    ensures SortByTime(g) != [] && |SortByTime(g)| == |g|
    ensures SortByTime(g)[0].time <= g[j].time <= SortByTime(g)[|g| - 1].time
  {
    SortMeaning(g);
    SortLength(g);
    SortMembers(g, g[j]);
    hide SortByTime;
    var q :| 0 <= q < |g| && SortByTime(g)[q] == g[j];
  }

  // --- grouping groups again at their own width ----------------------------------------

  lemma XbarOfKey(base: int, t: int)
    requires base > 0
    ensures Xbar(base, Xbar(base, t)) == Xbar(base, t)
  {
    QuotientUnique(base, t / base, 0);
  }

  /** Each group is in a bucket of its own. */
  lemma OwnBucket<T, C>(t: seq<Stamped<T>>, base: int, agg: seq<T> -> C, k: int)
    requires base > 0 && HasKey(t, base, k)
    ensures Group(GroupBy(t, base, agg), base, k) == [agg(Group(t, base, k))]
  {
    var ks := Keys(t, base);
    var within := KeysWithin(ks, base, k);
    KeysMeaning(t, base);
    KeysWithinMeaning(ks, base, k);
    forall x ensures x in within <==> x in [k] {
      if x in ks {
        assert HasKey(t, base, x);
        var i :| 0 <= i < |t| && Xbar(base, t[i].time) == x;
        XbarOfKey(base, t[i].time);
      }
    }
    AscendingUnique(within, [k]);
    GroupOfGroups(t, base, base, agg, ks, k);
  }

  lemma GroupAt<T, C>(rows: seq<Stamped<T>>, sz: int, agg: seq<T> -> C, i: nat)
    requires sz > 0 && i < |Keys(rows, sz)|
    ensures |GroupBy(rows, sz, agg)| == |Keys(rows, sz)|
    ensures GroupBy(rows, sz, agg)[i].body == agg(Group(rows, sz, Keys(rows, sz)[i]))
  {
  }

  lemma OwnKeys<T, C>(t: seq<Stamped<T>>, base: int, agg: seq<T> -> C)
    requires base > 0
    ensures Keys(GroupBy(t, base, agg), base) == Keys(t, base)
  {
    assert 1 * base == base;
    NestedKeys(t, base, 1, agg);
  }

  /** If grouping the groups again equals grouping the sorted rows, it does so bucket by bucket. */
  lemma AgreementAtOneBucket<T, C>(t: seq<Stamped<T>>, base: int, agg: seq<T> -> C, re: seq<C> -> C, k: int)
    requires base > 0 && HasKey(t, base, k)
    requires GroupBy(GroupBy(t, base, agg), base, re) == GroupBy(SortByTime(t), base, agg)
    ensures re([agg(Group(t, base, k))]) == agg(Group(SortByTime(t), base, k))
  {
    SortKeys(t, base);
    OwnKeys(t, base, agg);
    KeysMeaning(t, base);
    var i :| 0 <= i < |Keys(t, base)| && Keys(t, base)[i] == k;
    GroupAt(GroupBy(t, base, agg), base, re, i);
    GroupAt(SortByTime(t), base, agg, i);
    OwnBucket(t, base, agg, k);
  }

  /** Two rows of one bucket, inserted latest first. */
  lemma {:induction false} TwoOutOfOrder<T>(late: Stamped<T>, early: Stamped<T>, sz: int)
    requires sz > 0 && early.time < late.time && Xbar(sz, early.time) == Xbar(sz, late.time)
    ensures var q, s, k := [late, early], [early, late], Xbar(sz, late.time);
            && SortByTime(q) == s && Keys(q, sz) == [k] && Keys(s, sz) == [k]
            && Group(q, sz, k) == [late.body, early.body] && Group(s, sz, k) == [early.body, late.body]
            && GroupRows(q, sz, k) == q && HasKey(q, sz, k)
  {
    var q, s := [late, early], [early, late];
    assert q[1..] == [early] && s[1..] == [late];
    assert [early][1..] == [] && [late][1..] == [];
    assert SortByTime([early]) == [early];
    assert InsertByTime(late, []) == [late];
    assert InsertByTime(late, [early]) == [early] + [late];
    assert Keys<T>([], sz) == [];
    assert InsertKey(Xbar(sz, early.time), []) == [Xbar(sz, early.time)];
    assert InsertKey(Xbar(sz, late.time), [Xbar(sz, late.time)]) == [Xbar(sz, late.time)];
    assert Keys([early], sz) == [Xbar(sz, early.time)] && Keys([late], sz) == [Xbar(sz, late.time)];
    assert Group([early], sz, Xbar(sz, early.time)) == [early.body];
    assert Group([late], sz, Xbar(sz, late.time)) == [late.body];
    assert GroupRows([early], sz, Xbar(sz, early.time)) == [early];
    assert Xbar(sz, q[0].time) == Xbar(sz, late.time);
  }
}
