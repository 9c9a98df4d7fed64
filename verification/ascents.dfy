/** Strictly ascending integers: bucket keys, class labels, saved days and log entries. */
module Ascents {

  predicate Ascending(ks: seq<int>) {
    forall i, j :: 0 <= i < j < |ks| ==> ks[i] < ks[j]
  }

  /** Insert into its place, unless it is there already. */
  function InsertKey(k: int, ks: seq<int>): seq<int> {
    if ks == [] || k < ks[0] then [k] + ks
    else if k == ks[0] then ks
    else [ks[0]] + InsertKey(k, ks[1..])
  }

  lemma {:induction false} InsertKeyKeeps(k: int, ks: seq<int>)
    requires Ascending(ks)
    ensures Ascending(InsertKey(k, ks))
    ensures forall x :: x in InsertKey(k, ks) <==> x == k || x in ks
  {
    if !(ks == [] || k <= ks[0]) {
      InsertKeyKeeps(k, ks[1..]);
      var r := InsertKey(k, ks[1..]);
      assert ks == [ks[0]] + ks[1..];
      forall i | 0 <= i < |r| ensures ks[0] < r[i] {
        assert r[i] in r;
      }
    }
  }
}
