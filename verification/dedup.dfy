/** Per-symbol deduplication of the live feed, and when the cutting of the feed into batches
    does not matter. */
module Dedup {
  import opened Buckets
  import opened Options

  /** One live record; ids are per symbol. */
  datatype Msg<T> = Msg(id: int, sym: string, time: int, body: T)

  predicate Above(last: Option<int>, id: int) {
    last.None? || id > last.value
  }

  function InsertById<T>(x: Msg<T>, s: seq<Msg<T>>): seq<Msg<T>> {
    if s == [] || x.id <= s[0].id then [x] + s else [s[0]] + InsertById(x, s[1..])
  }

  /** The stable sort by id. */
  function SortById<T>(s: seq<Msg<T>>): seq<Msg<T>> {
    if s == [] then [] else InsertById(s[0], SortById(s[1..]))
  }

  /** The records kept by the dedup loop, and by one-by-one processing: each exceeds the last kept. */
  function Fresh<T>(s: seq<Msg<T>>, last: Option<int>): seq<Msg<T>> {
    if s == [] then []
    else if Above(last, s[0].id) then [s[0]] + Fresh(s[1..], Some(s[0].id))
    else Fresh(s[1..], last)
  }

  /** The floor after the loop. */
  function Top<T>(s: seq<Msg<T>>, last: Option<int>): Option<int> {
    if s == [] then last
    else if Above(last, s[0].id) then Top(s[1..], Some(s[0].id))
    else Top(s[1..], last)
  }

  /** `_dedup`. */
  method KeepFresh<T>(items: seq<Msg<T>>, last: Option<int>) returns (kept: seq<Msg<T>>, top: Option<int>)
    ensures kept == Fresh(SortById(items), last) && top == Top(SortById(items), last)
  {
    var sorted := SortById(items);
    kept, top := [], last;
    var i := 0;
    while i < |sorted|
      invariant 0 <= i <= |sorted|
      invariant kept + Fresh(sorted[i..], top) == Fresh(sorted, last)
      invariant Top(sorted[i..], top) == Top(sorted, last)
    {
      assert sorted[i..][0] == sorted[i] && sorted[i..][1..] == sorted[i + 1..];
      if top.None? || sorted[i].id > top.value {
        kept := kept + [sorted[i]];
        top := Some(sorted[i].id);
      }
      i := i + 1;
    }
  }

  // --- the loop on any sequence ----------------------------------------------------------------

  lemma {:induction false} FreshConcat<T>(a: seq<Msg<T>>, b: seq<Msg<T>>, last: Option<int>)
    ensures Fresh(a + b, last) == Fresh(a, last) + Fresh(b, Top(a, last))
    ensures Top(a + b, last) == Top(b, Top(a, last))
  {
    if a == [] {
      assert a + b == b;
    } else {
      assert (a + b)[1..] == a[1..] + b;
      FreshConcat(a[1..], b, if Above(last, a[0].id) then Some(a[0].id) else last);
    }
  }

  predicate AscendingRecords<T>(s: seq<Msg<T>>) {
    forall i, j :: 0 <= i < j < |s| ==> s[i].id < s[j].id
  }

  predicate HasId<T>(s: seq<Msg<T>>, id: int) {
    exists i :: 0 <= i < |s| && s[i].id == id
  }

  /** What is kept ascends strictly, lies above the floor and up to the new one, and comes from the input. */
  lemma {:induction false} FreshMeaning<T>(s: seq<Msg<T>>, last: Option<int>)
    ensures var f := Fresh(s, last);
            && AscendingRecords(f)
            && (forall i :: 0 <= i < |f| ==> Above(last, f[i].id) && f[i] in s)
            && (f == [] ==> Top(s, last) == last)
            && (f != [] ==> Top(s, last) == Some(f[|f| - 1].id))
  {
    if s != [] {
      var next := if Above(last, s[0].id) then Some(s[0].id) else last;
      FreshMeaning(s[1..], next);
    }
  }

  /** The new floor bounds the old one and every id. */
  lemma {:induction false} TopBounds<T>(s: seq<Msg<T>>, last: Option<int>)
    ensures last.Some? ==> Top(s, last).Some? && last.value <= Top(s, last).value
    ensures forall i :: 0 <= i < |s| ==> !Above(Top(s, last), s[i].id)
  {
    if s != [] {
      var next := if Above(last, s[0].id) then Some(s[0].id) else last;
      TopBounds(s[1..], next);
      assert forall i :: 1 <= i < |s| ==> s[i] == s[1..][i - 1];
    }
  }

  // --- first arrivals ---------------------------------------------------------------------------

  /** The first record to arrive with the id. */
  function FirstWith<T>(s: seq<Msg<T>>, id: int): (m: Msg<T>)
    requires HasId(s, id)
    ensures m in s && m.id == id
  {
    if s[0].id == id then s[0]
    else
      assert HasId(s[1..], id) by {
        var i :| 0 <= i < |s| && s[i].id == id;
        assert s[1..][i - 1].id == id;
      }
      FirstWith(s[1..], id)
  }

  predicate ExceedsAll<T>(id: int, s: seq<Msg<T>>) {
    forall j :: 0 <= j < |s| ==> s[j].id < id
  }

  /** Each id is at or below the floor, a repeat, or above every earlier id. */
  predicate Rising<T>(s: seq<Msg<T>>, last: Option<int>) {
    forall i :: 0 <= i < |s| && Above(last, s[i].id) ==> HasId(s[..i], s[i].id) || ExceedsAll(s[i].id, s[..i])
  }

  lemma {:induction false} RisingPrefix<T>(s: seq<Msg<T>>, last: Option<int>, n: nat)
    requires Rising(s, last) && n <= |s|
    ensures Rising(s[..n], last)
  {
    forall i | 0 <= i < n && Above(last, s[i].id)
      ensures HasId(s[..n][..i], s[i].id) || ExceedsAll(s[i].id, s[..n][..i])
    {
      assert s[..n][..i] == s[..i];
    }
  }

  lemma {:induction false} FirstInPrefix<T>(a: seq<Msg<T>>, b: seq<Msg<T>>, id: int)
    requires HasId(a, id)
    ensures HasId(a + b, id) && FirstWith(a + b, id) == FirstWith(a, id)
  {
    var i :| 0 <= i < |a| && a[i].id == id;
    assert (a + b)[i].id == id;
    if a[0].id != id {
      assert (a + b)[1..] == a[1..] + b;
      FirstInPrefix(a[1..], b, id);
    }
  }

  lemma {:induction false} FirstIsNew<T>(a: seq<Msg<T>>, x: Msg<T>)
    requires !HasId(a, x.id)
    ensures HasId(a + [x], x.id) && FirstWith(a + [x], x.id) == x
  {
    assert (a + [x])[|a|] == x;
    if a != [] {
      assert (a + [x])[1..] == a[1..] + [x];
      assert forall i :: 0 <= i < |a[1..]| ==> a[1..][i] == a[i + 1];
      FirstIsNew(a[1..], x);
    }
  }

  /** `f` holds, in ascending order, the first arrival of every id above the floor. */
  ghost predicate FirstArrivals<T>(f: seq<Msg<T>>, s: seq<Msg<T>>, last: Option<int>) {
    && AscendingRecords(f)
    && (forall id :: HasId(f, id) <==> HasId(s, id) && Above(last, id))
    && (forall i :: 0 <= i < |f| ==> HasId(s, f[i].id) && f[i] == FirstWith(s, f[i].id))
  }

  lemma {:induction false} IdsOfSnoc<T>(s: seq<Msg<T>>, x: Msg<T>, id: int)
    ensures HasId(s + [x], id) <==> HasId(s, id) || id == x.id
  {
    if HasId(s, id) {
      var i :| 0 <= i < |s| && s[i].id == id;
      assert (s + [x])[i].id == id;
    }
    assert (s + [x])[|s|] == x;
  }

  lemma {:induction false} ArrivalRepeats<T>(f: seq<Msg<T>>, s: seq<Msg<T>>, x: Msg<T>, last: Option<int>)
    requires FirstArrivals(f, s, last) && (HasId(s, x.id) || !Above(last, x.id))
    ensures FirstArrivals(f, s + [x], last)
  {
    forall id ensures HasId(s + [x], id) <==> HasId(s, id) || id == x.id {
      IdsOfSnoc(s, x, id);
    }
    forall i | 0 <= i < |f| ensures HasId(s + [x], f[i].id) && f[i] == FirstWith(s + [x], f[i].id) {
      FirstInPrefix(s, [x], f[i].id);
    }
  }

  lemma {:induction false} ArrivalIsNew<T>(f: seq<Msg<T>>, s: seq<Msg<T>>, x: Msg<T>, last: Option<int>)
    requires FirstArrivals(f, s, last) && ExceedsAll(x.id, s) && Above(last, x.id)
    ensures FirstArrivals(f + [x], s + [x], last)
  {
    forall id ensures HasId(s + [x], id) <==> HasId(s, id) || id == x.id {
      IdsOfSnoc(s, x, id);
    }
    forall id ensures HasId(f + [x], id) <==> HasId(f, id) || id == x.id {
      IdsOfSnoc(f, x, id);
    }
    FirstIsNew(s, x);
    forall i | 0 <= i < |f| ensures HasId(s + [x], f[i].id) && f[i] == FirstWith(s + [x], f[i].id) && f[i].id < x.id {
      FirstInPrefix(s, [x], f[i].id);
      assert f[i] in s;
    }
  }

  lemma {:induction false} FreshSnoc<T>(a: seq<Msg<T>>, x: Msg<T>, last: Option<int>)
    ensures Fresh(a + [x], last) == if Above(Top(a, last), x.id) then Fresh(a, last) + [x] else Fresh(a, last)
  {
    FreshConcat(a, [x], last);
    assert Fresh([x], Top(a, last)) == if Above(Top(a, last), x.id) then [x] else [];
  }

  lemma {:induction false} NotAboveTop<T>(a: seq<Msg<T>>, last: Option<int>, id: int)
    requires HasId(a, id) || !Above(last, id)
    ensures !Above(Top(a, last), id)
  {
    TopBounds(a, last);
  }

  lemma {:induction false} NewExceedsTop<T>(a: seq<Msg<T>>, last: Option<int>, id: int)
    requires Above(last, id) && ExceedsAll(id, a)
    ensures Above(Top(a, last), id)
  {
    FreshMeaning(a, last);
  }

  lemma {:induction false} LastOfRising<T>(a: seq<Msg<T>>, x: Msg<T>, last: Option<int>)
    requires Rising(a + [x], last)
    ensures Rising(a, last)
    ensures !Above(last, x.id) || HasId(a, x.id) || ExceedsAll(x.id, a)
  {
    var s := a + [x];
    RisingPrefix(s, last, |a|);
    assert s[..|a|] == a && s[|a|] == x;
  }

  lemma {:induction false} ArrivalKept<T>(a: seq<Msg<T>>, x: Msg<T>, last: Option<int>)
    requires FirstArrivals(Fresh(a, last), a, last)
    requires !Above(last, x.id) || HasId(a, x.id) || ExceedsAll(x.id, a)
    ensures FirstArrivals(Fresh(a + [x], last), a + [x], last)
  {
    FreshSnoc(a, x, last);
    if !Above(last, x.id) || HasId(a, x.id) {
      NotAboveTop(a, last, x.id);
      ArrivalRepeats(Fresh(a, last), a, x, last);
    } else {
      NewExceedsTop(a, last, x.id);
      ArrivalIsNew(Fresh(a, last), a, x, last);
    }
  }

  /** On a rising feed the dedup loop keeps exactly the first arrivals above the floor. */
  lemma {:induction false} RisingKeepsFirstArrivals<T>(s: seq<Msg<T>>, last: Option<int>)
    requires Rising(s, last)
    ensures FirstArrivals(Fresh(s, last), s, last)
    decreases |s|
  {
    if s != [] {
      var a, x := s[..|s| - 1], s[|s| - 1];
      assert s == a + [x];
      LastOfRising(a, x, last);
      RisingKeepsFirstArrivals(a, last);
      ArrivalKept(a, x, last);
    }
  }

  // --- sorting changes nothing ------------------------------------------------------------------

  predicate Sorted<T>(s: seq<Msg<T>>) {
    forall i, j :: 0 <= i < j < |s| ==> s[i].id <= s[j].id
  }

  lemma {:induction false} IdsOfCons<T>(x: Msg<T>, s: seq<Msg<T>>, id: int)
    ensures HasId([x] + s, id) <==> HasId(s, id) || id == x.id
  {
    assert ([x] + s)[0] == x;
    if HasId(s, id) {
      var i :| 0 <= i < |s| && s[i].id == id;
      assert ([x] + s)[i + 1].id == id;
    }
  }

  lemma {:induction false} InsertIds<T>(x: Msg<T>, s: seq<Msg<T>>, id: int)
    ensures HasId(InsertById(x, s), id) <==> HasId(s, id) || id == x.id
  {
    var r := InsertById(x, s);
    if s == [] || x.id <= s[0].id {
      IdsOfCons(x, s, id);
    } else {
      InsertIds(x, s[1..], id);
      IdsOfCons(s[0], InsertById(x, s[1..]), id);
      assert [s[0]] + s[1..] == s;
      IdsOfCons(s[0], s[1..], id);
    }
  }

  lemma {:induction false} InsertKeepsSorted<T>(x: Msg<T>, s: seq<Msg<T>>)
    requires Sorted(s)
    ensures Sorted(InsertById(x, s))
  {
    if s != [] && x.id > s[0].id {
      InsertKeepsSorted(x, s[1..]);
      var t := InsertById(x, s[1..]);
      forall i | 0 <= i < |t| ensures s[0].id <= t[i].id {
        assert HasId(t, t[i].id);
        InsertIds(x, s[1..], t[i].id);
      }
    }
  }

  /** A record inserted where it belongs comes before those with its id. */
  lemma {:induction false} InsertFirst<T>(x: Msg<T>, s: seq<Msg<T>>, id: int)
    requires Sorted(s) && HasId(InsertById(x, s), id)
    ensures id == x.id ==> FirstWith(InsertById(x, s), id) == x
    ensures id != x.id ==> HasId(s, id) && FirstWith(InsertById(x, s), id) == FirstWith(s, id)
  {
    InsertIds(x, s, id);
    if s == [] || x.id <= s[0].id {
      assert ([x] + s)[1..] == s;
    } else if s[0].id != id {
      assert ([s[0]] + InsertById(x, s[1..]))[1..] == InsertById(x, s[1..]);
      IdsOfCons(s[0], InsertById(x, s[1..]), id);
      InsertFirst(x, s[1..], id);
    }
  }

  lemma {:induction false} SortMeaning<T>(s: seq<Msg<T>>)
    ensures Sorted(SortById(s))
    ensures forall id :: HasId(SortById(s), id) <==> HasId(s, id)
    ensures forall id :: HasId(s, id) ==> HasId(SortById(s), id) && FirstWith(SortById(s), id) == FirstWith(s, id)
  {
    if s != [] {
      var rest := SortById(s[1..]);
      SortMeaning(s[1..]);
      InsertKeepsSorted(s[0], rest);
      assert [s[0]] + s[1..] == s;
      forall id ensures HasId(SortById(s), id) <==> HasId(s, id) {
        InsertIds(s[0], rest, id);
        IdsOfCons(s[0], s[1..], id);
      }
      forall id | HasId(s, id) ensures FirstWith(SortById(s), id) == FirstWith(s, id) {
        InsertFirst(s[0], rest, id);
      }
    }
  }

  lemma {:induction false} SortedIsRising<T>(s: seq<Msg<T>>, last: Option<int>)
    requires Sorted(s)
    ensures Rising(s, last)
  {
    forall i | 0 <= i < |s| ensures HasId(s[..i], s[i].id) || ExceedsAll(s[i].id, s[..i]) {
      if !ExceedsAll(s[i].id, s[..i]) {
        var j :| 0 <= j < i && s[..i][j].id >= s[i].id;
        assert s[..i][j].id == s[i].id;
      }
    }
  }

  lemma {:induction false} TopIsLastKept<T>(s: seq<Msg<T>>, last: Option<int>)
    ensures var f := Fresh(s, last); Top(s, last) == if f == [] then last else Some(f[|f| - 1].id)
  {
    if s != [] {
      TopIsLastKept(s[1..], if Above(last, s[0].id) then Some(s[0].id) else last);
    }
  }

  /** A batch keeps, once each and in ascending order, the first arrival of every id above the
      floor; whatever the order of arrival. */
  lemma {:induction false} BatchKeepsFirstArrivals<T>(s: seq<Msg<T>>, last: Option<int>)
    ensures FirstArrivals(Fresh(SortById(s), last), s, last)
  {
    SortMeaning(s);
    SortedIsRising(SortById(s), last);
    RisingKeepsFirstArrivals(SortById(s), last);
  }

  lemma {:induction false} IdsOfInit<T>(f: seq<Msg<T>>, id: int)
    requires f != [] && AscendingRecords(f)
    ensures HasId(f[..|f| - 1], id) <==> HasId(f, id) && id < f[|f| - 1].id
  {
    var a := f[..|f| - 1];
    if HasId(a, id) {
      var i :| 0 <= i < |a| && a[i].id == id;
      assert f[i].id == id;
    }
    if HasId(f, id) && id < f[|f| - 1].id {
      var i :| 0 <= i < |f| && f[i].id == id;
      assert a[i].id == id;
    }
  }

  ghost predicate SameIdSets<T>(f: seq<Msg<T>>, g: seq<Msg<T>>) {
    forall id: int :: HasId(f, id) <==> HasId(g, id)
  }

  lemma {:induction false} SameIds<T>(f: seq<Msg<T>>, g: seq<Msg<T>>)
    requires AscendingRecords(f) && AscendingRecords(g) && SameIdSets(f, g)
    ensures |f| == |g| && forall i :: 0 <= i < |f| ==> f[i].id == g[i].id
    decreases |f|
  {
    if f == [] {
      assert g != [] ==> HasId(g, g[0].id);
    } else {
      var x := f[|f| - 1].id;
      assert HasId(f, x);
      assert HasId(g, x);
      assert HasId(g, g[|g| - 1].id);
      assert HasId(f, g[|g| - 1].id);
      assert g[|g| - 1].id == x;
      var a, b := f[..|f| - 1], g[..|g| - 1];
      forall id: int ensures HasId(a, id) <==> HasId(b, id) {
        assert HasId(f, id) <==> HasId(g, id);
        IdsOfInit(f, id);
        IdsOfInit(g, id);
      }
      SameIds(a, b);
    }
  }

  lemma {:induction false} SameFirstArrivals<T>(f: seq<Msg<T>>, g: seq<Msg<T>>, s: seq<Msg<T>>, last: Option<int>)
    requires FirstArrivals(f, s, last) && FirstArrivals(g, s, last)
    ensures f == g
  {
    SameIds(f, g);
  }

  /** On a rising feed a batch keeps what one-by-one processing keeps. */
  lemma {:induction false} RisingBatch<T>(s: seq<Msg<T>>, last: Option<int>)
    requires Rising(s, last)
    ensures Fresh(SortById(s), last) == Fresh(s, last)
    ensures Top(SortById(s), last) == Top(s, last)
  {
    BatchKeepsFirstArrivals(s, last);
    RisingKeepsFirstArrivals(s, last);
    SameFirstArrivals(Fresh(SortById(s), last), Fresh(s, last), s, last);
    FreshMeaning(s, last);
    FreshMeaning(SortById(s), last);
  }

  // --- cutting the feed ---------------------------------------------------------------------------

  /** What is stored when the feed is drained in these batches. */
  function Kept<T>(batches: seq<seq<Msg<T>>>, last: Option<int>): seq<Msg<T>> {
    if batches == [] then []
    else Fresh(SortById(batches[0]), last) + Kept(batches[1..], Top(SortById(batches[0]), last))
  }

  function KeptTop<T>(batches: seq<seq<Msg<T>>>, last: Option<int>): Option<int> {
    if batches == [] then last else KeptTop(batches[1..], Top(SortById(batches[0]), last))
  }

  lemma {:induction false} RisingSplit<T>(a: seq<Msg<T>>, b: seq<Msg<T>>, last: Option<int>)
    requires Rising(a + b, last)
    ensures Rising(a, last) && Rising(b, Top(a, last))
  {
    var s := a + b;
    assert s[..|a|] == a;
    RisingPrefix(s, last, |a|);
    TopBounds(a, last);
    forall i | 0 <= i < |b| && Above(Top(a, last), b[i].id)
      ensures HasId(b[..i], b[i].id) || ExceedsAll(b[i].id, b[..i])
    {
      var n := |a| + i;
      assert s[n] == b[i] && s[..n] == a + b[..i];
      assert Above(last, s[n].id);
      if HasId(s[..n], s[n].id) {
        var j :| 0 <= j < n && s[..n][j].id == s[n].id;
        assert j >= |a|;
        assert b[..i][j - |a|].id == b[i].id;
      } else {
        forall j | 0 <= j < i ensures b[..i][j].id < b[i].id {
          assert s[..n][|a| + j] == b[j];
        }
      }
    }
  }

  /** On a rising feed, any way of cutting it stores what one-by-one processing stores. */
  lemma {:induction false} RisingCuts<T>(batches: seq<seq<Msg<T>>>, last: Option<int>)
    requires Rising(Flatten(batches), last)
    ensures Kept(batches, last) == Fresh(Flatten(batches), last)
    ensures KeptTop(batches, last) == Top(Flatten(batches), last)
  {
    if batches != [] {
      RisingSplit(batches[0], Flatten(batches[1..]), last);
      RisingBatch(batches[0], last);
      RisingCuts(batches[1..], Top(batches[0], last));
      FreshConcat(batches[0], Flatten(batches[1..]), last);
    }
  }

  function Singles<T>(s: seq<Msg<T>>): seq<seq<Msg<T>>> {
    if s == [] then [] else [[s[0]]] + Singles(s[1..])
  }

  lemma {:induction false} SinglesAreOneByOne<T>(s: seq<Msg<T>>, last: Option<int>)
    ensures Flatten(Singles(s)) == s && Kept(Singles(s), last) == Fresh(s, last)
  {
    if s != [] {
      var next := if Above(last, s[0].id) then Some(s[0].id) else last;
      SinglesAreOneByOne(s[1..], next);
      var first := [s[0]];
      assert Singles(s)[0] == first && Singles(s)[1..] == Singles(s[1..]);
      assert SortById(first) == first;
      assert Top(first, last) == next;
      assert first + s[1..] == s;
      FreshConcat(first, s[1..], last);
    }
  }

  lemma {:induction false} FreshIds<T>(s: seq<Msg<T>>, last: Option<int>, id: int)
    requires HasId(Fresh(s, last), id)
    ensures HasId(s, id) && Above(last, id)
  {
    FreshMeaning(s, last);
    var i :| 0 <= i < |Fresh(s, last)| && Fresh(s, last)[i].id == id;
    assert Fresh(s, last)[i] in s;
  }

  lemma {:induction false} IdsOfConcat<T>(a: seq<Msg<T>>, b: seq<Msg<T>>, id: int)
    requires HasId(a + b, id)
    ensures HasId(a, id) || HasId(b, id)
  {
    var i :| 0 <= i < |a + b| && (a + b)[i].id == id;
    assert if i < |a| then a[i].id == id else b[i - |a|].id == id;
  }

  lemma {:induction false} LateNotAbove<T>(a: seq<Msg<T>>, last: Option<int>, id: int)
    requires !ExceedsAll(id, a)
    ensures !Above(Top(a, last), id)
  {
    TopBounds(a, last);
    var j :| 0 <= j < |a| && a[j].id >= id;
    assert !Above(Top(a, last), a[j].id);
  }

  /** An id that arrives late, behind a greater one, is lost when it comes in its own batch. */
  lemma {:induction false} LateIsLost<T>(s: seq<Msg<T>>, last: Option<int>, i: nat)
    requires i < |s| && !HasId(s[..i], s[i].id) && !ExceedsAll(s[i].id, s[..i])
    ensures !HasId(Fresh(s, last), s[i].id)
  {
    var a, b, id := s[..i], s[i..], s[i].id;
    assert s == a + b;
    FreshConcat(a, b, last);
    LateNotAbove(a, last, id);
    if HasId(Fresh(s, last), id) {
      IdsOfConcat(Fresh(a, last), Fresh(b, Top(a, last)), id);
      if HasId(Fresh(a, last), id) {
        FreshIds(a, last, id);
      } else {
        FreshIds(b, Top(a, last), id);
      }
    }
  }

  /** Every way of cutting the feed into batches stores the same records if and only if each id
      is at or below the floor, a repeat, or above every earlier one. What is stored is then the
      first arrival of each id above the floor, once, ascending. */
  lemma {:induction false} CutsDoNotMatterIff<T>(s: seq<Msg<T>>, last: Option<int>)
    ensures Rising(s, last)
            <==> forall batches: seq<seq<Msg<T>>> :: Flatten(batches) == s ==> Kept(batches, last) == Kept([s], last)
    ensures FirstArrivals(Kept([s], last), s, last)
  {
    BatchKeepsFirstArrivals(s, last);
    assert Flatten([s]) == s + Flatten([]);
    assert Kept([s], last) == Fresh(SortById(s), last) + Kept([], Top(SortById(s), last));
    assert Kept([s], last) == Fresh(SortById(s), last);
    if Rising(s, last) {
      RisingBatch(s, last);
      forall batches: seq<seq<Msg<T>>> | Flatten(batches) == s ensures Kept(batches, last) == Kept([s], last) {
        RisingCuts(batches, last);
      }
    } else {
      var i :| 0 <= i < |s| && Above(last, s[i].id) && !HasId(s[..i], s[i].id) && !ExceedsAll(s[i].id, s[..i]);
      LateIsLost(s, last, i);
      SinglesAreOneByOne(s, last);
      assert HasId(s, s[i].id);
      assert HasId(Fresh(SortById(s), last), s[i].id);
      assert Kept(Singles(s), last) != Kept([s], last);
    }
  }
}
