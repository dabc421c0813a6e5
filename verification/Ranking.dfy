/** Sorting by an order and keeping the first few, as ORDER BY with LIMIT or sort with slice do. */
module Ranking {

  /** A total order up to ties. */
  ghost predicate IsOrder<K(!new)>(le: (K, K) -> bool) {
    && (forall a, b :: le(a, b) || le(b, a))
    && (forall a, b, c :: le(a, b) && le(b, c) ==> le(a, c))
  }

  /** keys is the front of the sorted elements: nothing left out comes before anything in it. */
  ghost predicate Front<K(!new)>(le: (K, K) -> bool, eligible: set<K>, keys: seq<K>, limit: nat) {
    && (forall i :: 0 <= i < |keys| ==> keys[i] in eligible)
    && (forall i, j :: 0 <= i < j < |keys| ==> keys[i] != keys[j] && le(keys[i], keys[j]))
    && |keys| <= limit
    && (forall k :: k in eligible && k !in keys ==> |keys| == limit && forall i :: 0 <= i < |keys| ==> le(keys[i], k))
  }

  /** An element that no other element of the set comes before. */
  method First<K(!new, ==)>(le: (K, K) -> bool, keys: set<K>) returns (first: K)
    requires keys != {} && IsOrder(le)
    ensures first in keys && forall k <- keys :: le(first, k)
  {
    first :| first in keys;
    var left := keys - {first};
    while left != {}
      invariant first in keys && left <= keys
      invariant forall k <- keys :: k in left || le(first, k)
      decreases |left|
    {
      var k :| k in left;
      if !le(first, k) {
        first := k;
      }
      left := left - {k};
    }
  }

  method Select<K(!new, ==)>(le: (K, K) -> bool, eligible: set<K>, limit: nat) returns (keys: seq<K>)
    requires IsOrder(le)
    ensures Front(le, eligible, keys, limit)
  {
    keys := [];
    var left := eligible;
    while |keys| < limit && left != {}
      invariant left <= eligible && |keys| <= limit
      invariant forall i :: 0 <= i < |keys| ==> keys[i] in eligible && keys[i] !in left
      invariant forall k :: k in eligible ==> k in left || k in keys
      invariant forall i, j :: 0 <= i < j < |keys| ==> keys[i] != keys[j] && le(keys[i], keys[j])
      invariant forall i, k :: 0 <= i < |keys| && k in left ==> le(keys[i], k)
      decreases |left|
    {
      var k := First(le, left);
      keys := keys + [k];
      left := left - {k};
    }
  }
}
