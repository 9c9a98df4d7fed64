/** Day numbers as ordered keys. */
module Days {

  predicate IsGreatest(keys: set<int>, d: int) {
    d in keys && forall e :: e in keys ==> e <= d
  }

  lemma {:induction false} GreatestKey(keys: set<int>, k: int)
    requires k in keys
    ensures exists d :: IsGreatest(keys, d)
  {
    var later := set e | e in keys && e > k;
    if j :| j in later {
      assert later < keys by {
        assert k !in later;
      }
      GreatestKey(later, j);
      var d :| IsGreatest(later, d);
      assert d in later && d > k;
      forall e | e in keys ensures e <= d {
        assert e > k ==> e in later;
      }
      assert d in keys;
      assert IsGreatest(keys, d);
    } else {
      assert IsGreatest(keys, k) by {
        forall e | e in keys ensures e <= k {
          assert e !in later;
        }
      }
    }
  }
}
