/** Orders in which a set's elements can be listed: every element exactly
    once. The results table uses them for the order in which the JavaScript
    engine lists an object's keys. */
module Enumeration {

  /** A sequence without repeated elements. */
  predicate NoDuplicates<T(==)>(s: seq<T>)
  {
    forall i, j :: 0 <= i < j < |s| ==> s[i] != s[j]
  }

  /** `order` lists every element of `keys` exactly once, and nothing else. */
  predicate Enumerates<T(==)>(order: seq<T>, keys: set<T>)
  {
    && NoDuplicates(order)
    && (forall i :: 0 <= i < |order| ==> order[i] in keys)
    && (forall k :: k in keys ==> k in order)
  }

  /** A duplicate-free enumeration of a set is exactly as long as the set is large. */
  lemma {:induction false} EnumerationLength<T>(order: seq<T>, keys: set<T>)
    requires Enumerates(order, keys)
    ensures |order| == |keys|
    decreases |order|
  {
    if |order| > 0 {
      var rest := keys - {order[0]};
      forall k | k in rest
        ensures k in order[1..]
      {
        var i :| 0 <= i < |order| && order[i] == k;
        assert i != 0;
        assert order[1..][i - 1] == k;
      }
      EnumerationLength(order[1..], rest);
    } else {
      assert forall k :: k !in keys;
      assert keys == {};
    }
  }

  /** Dropping the first element of an enumeration enumerates the rest of the set. */
  lemma EnumerationTail<T>(order: seq<T>, keys: set<T>)
    requires Enumerates(order, keys)
    requires |order| > 0
    ensures Enumerates(order[1..], keys - {order[0]})
  {
  }
}
