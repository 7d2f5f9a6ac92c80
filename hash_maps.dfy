/**
 * `java.util.HashMap` iteration: the order in which a map's entries are visited is
 * unspecified, so it is a sequence that lists every key exactly once.
 */
module HashMaps {

  /** `order` lists every key once: a `HashMap`'s iteration order. */
  predicate Enumerates(order: seq<string>, keys: set<string>) {
    && (forall i :: 0 <= i < |order| ==> order[i] in keys)
    && (forall k :: k in keys ==> k in order)
    && (forall i, j :: 0 <= i < j < |order| ==> order[i] != order[j])
  }

  lemma {:induction false} DistinctCardinality(order: seq<string>)
    requires forall i, j :: 0 <= i < j < |order| ==> order[i] != order[j]
    ensures |set i | 0 <= i < |order| :: order[i]| == |order|
    decreases |order|
  {
    if order != [] {
      var init := order[..|order| - 1];
      DistinctCardinality(init);
      var s := set i | 0 <= i < |init| :: init[i];
      assert (set i | 0 <= i < |order| :: order[i]) == s + {order[|order| - 1]};
      assert order[|order| - 1] !in s;
    }
  }

  lemma EnumerationSize(order: seq<string>, keys: set<string>)
    requires Enumerates(order, keys)
    ensures |order| == |keys|
  {
    DistinctCardinality(order);
    assert (set i | 0 <= i < |order| :: order[i]) == keys;
  }

  /** Some iteration order of a map's keys; which one is left unspecified. */
  method IterationOrder(keys: set<string>) returns (order: seq<string>)
    ensures Enumerates(order, keys)
  {
    order := [];
    var left := keys;
    while left != {}
      invariant forall i :: 0 <= i < |order| ==> order[i] in keys && order[i] !in left
      invariant forall k :: k in keys ==> k in left || k in order
      invariant left <= keys
      invariant forall i, j :: 0 <= i < j < |order| ==> order[i] != order[j]
      decreases left
    {
      var k :| k in left;
      order := order + [k];
      left := left - {k};
    }
  }
}
