/** `Array.prototype.find` over a constant catalogue, keyed by a string id. */
module Catalog {
  import opened Wrappers

  /** No two catalogue entries share a key. */
  predicate DistinctKeys<T>(xs: seq<T>, key: T -> string)
  {
    forall i, j :: 0 <= i < j < |xs| ==> key(xs[i]) != key(xs[j])
  }

  /**
   * The first entry whose key equals the query: when one is returned it
   * is in the catalogue, carries the query as its key and no earlier
   * entry does; nothing is returned exactly when no entry carries it.
   */
  function FindFirst<T>(xs: seq<T>, key: T -> string, q: string): (r: Option<T>)
    ensures r.Some? ==> r.value in xs && key(r.value) == q
    ensures r.Some? ==> exists i :: 0 <= i < |xs| && xs[i] == r.value && forall k :: 0 <= k < i ==> key(xs[k]) != q
    ensures r.None? <==> forall k :: 0 <= k < |xs| ==> key(xs[k]) != q
  {
    if xs == [] then None
    else if key(xs[0]) == q then Some(xs[0])
    else
      var r := FindFirst(xs[1..], key, q);
      assert forall k :: 1 <= k < |xs| ==> xs[k] == xs[1..][k - 1];
      assert r.Some? ==> exists i :: 0 <= i < |xs| && xs[i] == r.value && forall k :: 0 <= k < i ==> key(xs[k]) != q by {
        if r.Some? {
          var j :| 0 <= j < |xs| - 1 && xs[1..][j] == r.value && forall k :: 0 <= k < j ==> key(xs[1..][k]) != q;
          assert xs[j + 1] == r.value;
        }
      }
      r
  }

  /** With distinct keys, the entry found is the unique one carrying the query. */
  lemma {:induction false} FindFirstUnique<T>(xs: seq<T>, key: T -> string, k: nat)
    requires DistinctKeys(xs, key) && k < |xs|
    ensures FindFirst(xs, key, key(xs[k])) == Some(xs[k])
  {
    if k > 0 {
      assert key(xs[0]) != key(xs[k]);
      assert DistinctKeys(xs[1..], key) by {
        forall i, j | 0 <= i < j < |xs| - 1 ensures key(xs[1..][i]) != key(xs[1..][j]) {
          assert xs[1..][i] == xs[i + 1] && xs[1..][j] == xs[j + 1];
        }
      }
      FindFirstUnique(xs[1..], key, k - 1);
      assert xs[1..][k - 1] == xs[k];
    }
  }
}
