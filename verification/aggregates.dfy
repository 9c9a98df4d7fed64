/** Column aggregations over exact reals: sum, max, min, first, last and the null-aware ratio. */
module Aggregates {

  /** A float column value that may be q's null. */
  datatype Float = Null | Num(r: real)

  /** q's `%` for a denominator that is a sum of non-negative weights: 0 % 0 is null. */
  function Ratio(a: real, b: real): Float {
    if b == 0.0 then Null else Num(a / b)
  }

  /** Nulls contribute nothing to a sum. */
  function OrZero(x: Float): real {
    if x.Num? then x.r else 0.0
  }

  function Sum<T>(s: seq<T>, f: T -> real): real {
    if s == [] then 0.0 else f(s[0]) + Sum(s[1..], f)
  }

  function Max(a: real, b: real): real {
    if a >= b then a else b
  }

  function Min(a: real, b: real): real {
    if a <= b then a else b
  }

  /** `max` of a column; only ever taken of a non-empty group. */
  function MaxOf<T>(s: seq<T>, f: T -> real): real {
    if s == [] then 0.0 else if |s| == 1 then f(s[0]) else Max(f(s[0]), MaxOf(s[1..], f))
  }

  /** `min` of a column; only ever taken of a non-empty group. */
  function MinOf<T>(s: seq<T>, f: T -> real): real {
    if s == [] then 0.0 else if |s| == 1 then f(s[0]) else Min(f(s[0]), MinOf(s[1..], f))
  }

  function FirstOf<T>(s: seq<T>, f: T -> real): real {
    if s == [] then 0.0 else f(s[0])
  }

  function LastOf<T>(s: seq<T>, f: T -> real): real {
    if s == [] then 0.0 else f(s[|s| - 1])
  }

  lemma {:induction false} SumConcat<T>(a: seq<T>, b: seq<T>, f: T -> real)
    ensures Sum(a + b, f) == Sum(a, f) + Sum(b, f)
  {
    if a == [] {
      assert a + b == b;
    } else {
      SumConcat(a[1..], b, f);
      assert (a + b)[1..] == a[1..] + b;
    }
  }

  lemma {:induction false} MaxConcat<T>(a: seq<T>, b: seq<T>, f: T -> real)
    requires a != [] && b != []
    ensures MaxOf(a + b, f) == Max(MaxOf(a, f), MaxOf(b, f))
  {
    assert (a + b)[1..] == a[1..] + b;
    if |a| > 1 {
      MaxConcat(a[1..], b, f);
    } else {
      assert a[1..] + b == b;
    }
  }

  lemma {:induction false} MinConcat<T>(a: seq<T>, b: seq<T>, f: T -> real)
    requires a != [] && b != []
    ensures MinOf(a + b, f) == Min(MinOf(a, f), MinOf(b, f))
  {
    assert (a + b)[1..] == a[1..] + b;
    if |a| > 1 {
      MinConcat(a[1..], b, f);
    } else {
      assert a[1..] + b == b;
    }
  }

  /** `max` is attained and bounds the column. */
  lemma {:induction false} MaxMeaning<T>(s: seq<T>, f: T -> real)
    requires s != []
    ensures forall x :: x in s ==> f(x) <= MaxOf(s, f)
    ensures exists x :: x in s && f(x) == MaxOf(s, f)
  {
    assert s == [s[0]] + s[1..];
    if |s| > 1 {
      MaxMeaning(s[1..], f);
      if f(s[0]) < MaxOf(s[1..], f) {
        var x :| x in s[1..] && f(x) == MaxOf(s[1..], f);
        assert x in s && f(x) == MaxOf(s, f);
      } else {
        assert s[0] in s && f(s[0]) == MaxOf(s, f);
      }
    } else {
      assert s[0] in s && f(s[0]) == MaxOf(s, f);
    }
  }

  /** `min` is attained and bounds the column. */
  lemma {:induction false} MinMeaning<T>(s: seq<T>, f: T -> real)
    requires s != []
    ensures forall x :: x in s ==> f(x) >= MinOf(s, f)
    ensures exists x :: x in s && f(x) == MinOf(s, f)
  {
    assert s == [s[0]] + s[1..];
    if |s| > 1 {
      MinMeaning(s[1..], f);
      if f(s[0]) > MinOf(s[1..], f) {
        var x :| x in s[1..] && f(x) == MinOf(s[1..], f);
        assert x in s && f(x) == MinOf(s, f);
      } else {
        assert s[0] in s && f(s[0]) == MinOf(s, f);
      }
    } else {
      assert s[0] in s && f(s[0]) == MinOf(s, f);
    }
  }

  // --- order does not matter -------------------------------------------------------

  lemma SameMembers<T>(a: seq<T>, b: seq<T>)
    requires multiset(a) == multiset(b)
    ensures |a| == |b| && forall x :: x in a <==> x in b
  {
    assert |multiset(a)| == |multiset(b)|;
    forall x ensures x in a <==> x in b {
      assert x in a <==> x in multiset(a);
      assert x in b <==> x in multiset(b);
    }
  }

  lemma IndexIn<T>(s: seq<T>, x: T) returns (j: nat)
    requires x in multiset(s)
    ensures j < |s| && s[j] == x
  {
    j :| 0 <= j < |s| && s[j] == x;
  }

  lemma {:induction false} SumPermuted<T>(a: seq<T>, b: seq<T>, f: T -> real)
    requires multiset(a) == multiset(b)
    ensures Sum(a, f) == Sum(b, f)
    decreases |a|
  {
    SameMembers(a, b);
    if a != [] {
      var j := IndexIn(b, a[0]);
      var front, back := b[..j], b[j + 1..];
      assert b == front + ([b[j]] + back);
      assert a == [a[0]] + a[1..];
      assert multiset(a[1..]) == multiset(a) - multiset{a[0]};
      assert multiset(front + back) == multiset(b) - multiset{b[j]};
      SumPermuted(a[1..], front + back, f);
      SumConcat(front, back, f);
      SumConcat(front, [b[j]] + back, f);
      assert ([b[j]] + back)[1..] == back;
    }
  }

  lemma MaxPermuted<T>(a: seq<T>, b: seq<T>, f: T -> real)
    requires multiset(a) == multiset(b)
    ensures MaxOf(a, f) == MaxOf(b, f)
  {
    SameMembers(a, b);
    if a != [] {
      MaxMeaning(a, f);
      MaxMeaning(b, f);
    }
  }

  lemma MinPermuted<T>(a: seq<T>, b: seq<T>, f: T -> real)
    requires multiset(a) == multiset(b)
    ensures MinOf(a, f) == MinOf(b, f)
  {
    SameMembers(a, b);
    if a != [] {
      MinMeaning(a, f);
      MinMeaning(b, f);
    }
  }

  /** One row's value p lies between lo and hi times its weight w. */
  predicate WeighsBetween(w: real, p: real, lo: real, hi: real) {
    w >= 0.0 && lo * w <= p <= hi * w
  }

  lemma {:induction false} SumBounds<T>(s: seq<T>, w: T -> real, p: T -> real, lo: real, hi: real)
    requires forall x :: x in s ==> WeighsBetween(w(x), p(x), lo, hi)
    ensures lo * Sum(s, w) <= Sum(s, p) <= hi * Sum(s, w)
  {
    if s != [] {
      assert s == [s[0]] + s[1..];
      assert s[0] in s;
      SumBounds(s[1..], w, p, lo, hi);
      var x, y := w(s[0]), Sum(s[1..], w);
      assert lo * (x + y) == lo * x + lo * y && hi * (x + y) == hi * x + hi * y;
    }
  }

  lemma {:induction false} SumNonNegative<T>(s: seq<T>, f: T -> real)
    requires forall x :: x in s ==> f(x) >= 0.0
    ensures Sum(s, f) >= 0.0
    ensures Sum(s, f) == 0.0 ==> forall x :: x in s ==> f(x) == 0.0
  {
    if s != [] {
      assert s == [s[0]] + s[1..];
      SumNonNegative(s[1..], f);
    }
  }

  lemma RatioBounds(a: real, b: real, lo: real, hi: real)
    requires b > 0.0 && lo * b <= a <= hi * b
    ensures lo <= a / b <= hi
  {
    var q := a / b;
    assert q * b == a;
    assert q < lo ==> (lo - q) * b > 0.0;
    assert q > hi ==> (q - hi) * b > 0.0;
  }

  lemma RatioUndone(a: real, b: real)
    requires b != 0.0 || a == 0.0
    ensures b * OrZero(Ratio(a, b)) == a
  {
  }
}
