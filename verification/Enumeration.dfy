/**
 Go's `range` over a map visits the keys in an arbitrary order. A loop over a
 map reports the order it took, and results that may not depend on it are proved
 for all of them.
 */
module Enumeration {
  import opened Text

  /** A possible order in which Go ranges over a map with these keys. */
  ghost predicate Enumerates<T(!new)>(order: seq<T>, keys: set<T>) {
    && |order| == |keys| && NoDuplicates(order)
    && forall k {:trigger k in order} {:trigger k in keys} :: k in order <==> k in keys
  }

  lemma EnumeratesNothing<T(!new)>(order: seq<T>)
    requires Enumerates(order, {})
    ensures order == []
  {
  }

  lemma EnumeratedByNothing<T(!new)>(keys: set<T>)
    requires Enumerates([], keys)
    ensures keys == {}
  {
  }

  lemma EnumeratesStart<T(!new)>()
    ensures Enumerates<T>([], {})
  {
  }

  lemma EnumeratesSnoc<T(!new)>(order: seq<T>, keys: set<T>, k: T)
    requires Enumerates(order, keys) && k !in keys
    ensures Enumerates(order + [k], keys + {k})
  {
  }

  function Without<T>(order: seq<T>, i: nat): seq<T>
    requires i < |order|
  {
    order[..i] + order[i + 1..]
  }

  lemma EnumeratesWithout<T(!new)>(order: seq<T>, keys: set<T>, i: nat)
    requires Enumerates(order, keys) && i < |order|
    ensures Enumerates(Without(order, i), keys - {order[i]})
  {
    var rest := Without(order, i);
    forall k ensures k in rest <==> k in keys - {order[i]} {
      if k in rest {
        var j :| 0 <= j < |rest| && rest[j] == k;
        assert k == order[if j < i then j else j + 1];
      }
      if k in keys && k != order[i] {
        var j :| 0 <= j < |order| && order[j] == k;
        assert rest[if j < i then j else j - 1] == k;
      }
    }
  }

  lemma EnumeratesFind<T(!new)>(order: seq<T>, keys: set<T>, k: T) returns (i: nat)
    requires Enumerates(order, keys) && k in keys
    ensures i < |order| && order[i] == k
  {
    assert k in order;
    i :| 0 <= i < |order| && order[i] == k;
  }

  ghost function AnyOrder<T(!new)>(keys: set<T>): (order: seq<T>)
    ensures Enumerates(order, keys)
  {
    if keys == {} then [] else
      var k :| k in keys;
      [k] + AnyOrder(keys - {k})
  }
}
