/**
 Filtering, mapping and stable sorting of sequences. Go's sort.SliceStable and
 slices.SortStableFunc are library calls; here they are the function `Sort`,
 whose defining facts (sorted, a permutation, stable) are proved below.
 */
module Sequences {

  function Filter<T>(p: T -> bool, xs: seq<T>): seq<T> {
    if xs == [] then [] else
    if p(xs[0]) then [xs[0]] + Filter(p, xs[1..]) else Filter(p, xs[1..])
  }

  lemma {:induction false} FilterMembers<T(!new)>(p: T -> bool, xs: seq<T>)
    ensures forall x :: x in Filter(p, xs) <==> x in xs && p(x)
  {
    if xs != [] {
      FilterMembers(p, xs[1..]);
      assert xs == [xs[0]] + xs[1..];
    }
  }

  function Map<T, U>(f: T -> U, xs: seq<T>): (r: seq<U>)
    ensures |r| == |xs|
    ensures forall i :: 0 <= i < |xs| ==> r[i] == f(xs[i])
  {
    seq(|xs|, i requires 0 <= i < |xs| => f(xs[i]))
  }

  lemma Assoc<T>(xs: seq<T>, ys: seq<T>, zs: seq<T>)
    ensures xs + (ys + zs) == (xs + ys) + zs
  {
  }

  /** A list that is not empty is its front and its last element. */
  lemma Snoc<T>(xs: seq<T>)
    requires xs != []
    ensures xs == xs[..|xs| - 1] + [xs[|xs| - 1]]
  {
  }

  lemma {:induction false} FilterConcat<T(!new)>(p: T -> bool, xs: seq<T>, ys: seq<T>)
    ensures Filter(p, xs + ys) == Filter(p, xs) + Filter(p, ys)
  {
    if xs == [] {
      assert xs + ys == ys;
    } else {
      assert (xs + ys)[1..] == xs[1..] + ys;
      FilterConcat(p, xs[1..], ys);
    }
  }

  /** The step a filtering loop takes. */
  lemma FilterSnoc<T(!new)>(p: T -> bool, xs: seq<T>, i: nat)
    requires i < |xs|
    ensures Filter(p, xs[..i + 1]) == Filter(p, xs[..i]) + (if p(xs[i]) then [xs[i]] else [])
  {
    assert xs[..i + 1] == xs[..i] + [xs[i]];
    FilterConcat(p, xs[..i], [xs[i]]);
  }

  lemma {:induction false} FilterAll<T(!new)>(p: T -> bool, xs: seq<T>)
    requires forall x :: x in xs ==> p(x)
    ensures Filter(p, xs) == xs
  {
    if xs != [] {
      assert xs[0] in xs && xs == [xs[0]] + xs[1..];
      FilterAll(p, xs[1..]);
    }
  }

  lemma {:induction false} FilterNone<T(!new)>(p: T -> bool, xs: seq<T>)
    requires forall x :: x in xs ==> !p(x)
    ensures Filter(p, xs) == []
  {
    if xs != [] {
      FilterNone(p, xs[1..]);
    }
  }

  /** How often an element survives depends on the list as a multiset only. */
  lemma {:induction false} FilterCount<T(!new)>(p: T -> bool, xs: seq<T>, x: T)
    ensures multiset(Filter(p, xs))[x] == if p(x) then multiset(xs)[x] else 0
  {
    if xs != [] {
      assert xs == [xs[0]] + xs[1..];
      FilterCount(p, xs[1..], x);
    }
  }

  lemma FilterPermutes<T(!new)>(p: T -> bool, xs: seq<T>, ys: seq<T>)
    requires multiset(xs) == multiset(ys)
    ensures multiset(Filter(p, xs)) == multiset(Filter(p, ys))
  {
    forall x ensures multiset(Filter(p, xs))[x] == multiset(Filter(p, ys))[x] {
      FilterCount(p, xs, x);
      FilterCount(p, ys, x);
    }
  }

  lemma FilterOne<T(!new)>(p: T -> bool, xs: seq<T>, i: nat)
    requires i < |xs| && p(xs[i])
    requires forall j :: 0 <= j < |xs| && j != i ==> !p(xs[j])
    ensures Filter(p, xs) == [xs[i]]
  {
    assert xs == xs[..i] + ([xs[i]] + xs[i + 1..]);
    FilterConcat(p, xs[..i], [xs[i]] + xs[i + 1..]);
    FilterNone(p, xs[..i]);
    FilterNone(p, xs[i + 1..]);
    assert ([xs[i]] + xs[i + 1..])[1..] == xs[i + 1..];
  }

  lemma {:induction false} FilterSwap<T(!new)>(p: T -> bool, q: T -> bool, xs: seq<T>)
    ensures Filter(p, Filter(q, xs)) == Filter(q, Filter(p, xs))
  {
    if xs != [] {
      FilterSwap(p, q, xs[1..]);
      FilterConcat(p, if q(xs[0]) then [xs[0]] else [], Filter(q, xs[1..]));
      FilterConcat(q, if p(xs[0]) then [xs[0]] else [], Filter(p, xs[1..]));
    }
  }

  /** Filtering by a weaker predicate first changes nothing. */
  lemma {:induction false} FilterStronger<T(!new)>(p: T -> bool, q: T -> bool, xs: seq<T>)
    requires forall x :: x in xs && p(x) ==> q(x)
    ensures Filter(p, Filter(q, xs)) == Filter(p, xs)
  {
    if xs != [] {
      FilterStronger(p, q, xs[1..]);
      FilterConcat(p, if q(xs[0]) then [xs[0]] else [], Filter(q, xs[1..]));
    }
  }

  lemma {:induction false} FilterMap<T(!new)>(p: T -> bool, f: T -> T, xs: seq<T>)
    requires forall x :: x in xs ==> p(f(x)) == p(x)
    ensures Filter(p, Map(f, xs)) == Map(f, Filter(p, xs))
  {
    if xs != [] {
      FilterMap(p, f, xs[1..]);
      assert Map(f, xs)[1..] == Map(f, xs[1..]);
    }
  }

  lemma MapConcat<T, U>(f: T -> U, xs: seq<T>, ys: seq<T>)
    ensures Map(f, xs + ys) == Map(f, xs) + Map(f, ys)
  {
  }

  // ------------------------------------------------------------ stable sorting

  /** `less` under a name of its own, so that the laws of an ordering are used
      only where a proof writes this name. */
  predicate Below<T>(less: (T, T) -> bool, x: T, y: T) {
    less(x, y)
  }

  /** A strict weak ordering: what Go's sorts ask of their comparison. */
  ghost predicate WeakOrder<T(!new)>(less: (T, T) -> bool) {
    && (forall x, y :: Below(less, x, y) ==> !Below(less, y, x))
    && (forall x, y, z :: !Below(less, x, y) && !Below(less, y, z) ==> !Below(less, x, z))
  }

  predicate Sorted<T>(less: (T, T) -> bool, xs: seq<T>) {
    forall i, j {:trigger xs[i], xs[j]} :: 0 <= i < j < |xs| ==> !less(xs[j], xs[i])
  }

  /** Insert x before the first element that is not smaller than it. */
  function Insert<T>(less: (T, T) -> bool, x: T, xs: seq<T>): (r: seq<T>)
    ensures |r| == |xs| + 1
  {
    if xs == [] then [x] else
    if less(xs[0], x) then [xs[0]] + Insert(less, x, xs[1..]) else [x] + xs
  }

  /** sort.SliceStable / slices.SortStableFunc */
  function Sort<T>(less: (T, T) -> bool, xs: seq<T>): (r: seq<T>)
    ensures |r| == |xs|
  {
    if xs == [] then [] else Insert(less, xs[0], Sort(less, xs[1..]))
  }

  lemma {:induction false} InsertPermutes<T(!new)>(less: (T, T) -> bool, x: T, xs: seq<T>)
    ensures multiset(Insert(less, x, xs)) == multiset(xs) + multiset{x}
  {
    if xs != [] {
      InsertPermutes(less, x, xs[1..]);
      assert xs == [xs[0]] + xs[1..];
    }
  }

  lemma {:induction false} SortPermutes<T(!new)>(less: (T, T) -> bool, xs: seq<T>)
    ensures multiset(Sort(less, xs)) == multiset(xs)
  {
    if xs != [] {
      SortPermutes(less, xs[1..]);
      InsertPermutes(less, xs[0], Sort(less, xs[1..]));
      assert xs == [xs[0]] + xs[1..];
    }
  }

  lemma SameMembers<T(!new)>(xs: seq<T>, ys: seq<T>)
    requires multiset(xs) == multiset(ys)
    ensures forall x :: x in xs <==> x in ys
  {
    assert forall x :: x in xs <==> x in multiset(xs);
  }

  /** The elements below x form a prefix. */
  predicate BelowFirst<T>(less: (T, T) -> bool, x: T, xs: seq<T>) {
    forall i, j {:trigger xs[i], xs[j]} :: 0 <= i < j < |xs| && !less(xs[i], x) ==> !less(xs[j], x)
  }

  lemma SortedBelowFirst<T(!new)>(less: (T, T) -> bool, x: T, xs: seq<T>)
    requires WeakOrder(less) && Sorted(less, xs)
    ensures BelowFirst(less, x, xs)
  {
    forall i, j | 0 <= i < j < |xs| && !less(xs[i], x) ensures !less(xs[j], x) {
      assert !Below(less, xs[j], xs[i]) && !Below(less, xs[i], x) ==> !Below(less, xs[j], x);
    }
  }

  lemma {:induction false} InsertSorted<T(!new)>(less: (T, T) -> bool, x: T, xs: seq<T>)
    requires WeakOrder(less) && Sorted(less, xs)
    ensures Sorted(less, Insert(less, x, xs))
  {
    if xs != [] {
      if less(xs[0], x) {
        var tail := Insert(less, x, xs[1..]);
        InsertSorted(less, x, xs[1..]);
        InsertPermutes(less, x, xs[1..]);
        assert Below(less, xs[0], x) && !Below(less, x, xs[0]);
        forall j | 0 <= j < |tail| ensures !less(tail[j], xs[0]) {
          assert tail[j] in multiset(tail);
          assert tail[j] in xs[1..] || tail[j] == x;
        }
      } else {
        SortedBelowFirst(less, x, xs);
      }
    }
  }

  lemma {:induction false} SortSorted<T(!new)>(less: (T, T) -> bool, xs: seq<T>)
    requires WeakOrder(less)
    ensures Sorted(less, Sort(less, xs))
  {
    if xs != [] {
      SortSorted(less, xs[1..]);
      InsertSorted(less, xs[0], Sort(less, xs[1..]));
    }
  }

  /** Sorting what is sorted changes nothing. */
  lemma {:induction false} SortFixed<T(!new)>(less: (T, T) -> bool, xs: seq<T>)
    requires Sorted(less, xs)
    ensures Sort(less, xs) == xs
  {
    if xs != [] {
      SortFixed(less, xs[1..]);
    }
  }

  lemma {:induction false} FilterInsert<T(!new)>(less: (T, T) -> bool, p: T -> bool, x: T, xs: seq<T>)
    requires BelowFirst(less, x, xs)
    ensures Filter(p, Insert(less, x, xs))
         == if p(x) then Insert(less, x, Filter(p, xs)) else Filter(p, xs)
  {
    if xs != [] {
      if less(xs[0], x) {
        FilterInsert(less, p, x, xs[1..]);
        var kept := Filter(p, xs[1..]);
        assert Insert(less, x, xs)[1..] == Insert(less, x, xs[1..]);
        assert ([xs[0]] + kept)[1..] == kept;
      } else {
        FilterConcat(p, [x], xs);
        var kept := Filter(p, xs);
        if kept != [] {
          FilterMembers(p, xs);
          assert kept[0] in kept;
          var j :| 0 <= j < |xs| && xs[j] == kept[0];
          assert j == 0 || !less(xs[j], x);
        }
      }
    }
  }

  lemma SortBelowFirst<T(!new)>(less: (T, T) -> bool, x: T, xs: seq<T>)
    requires WeakOrder(less)
    ensures BelowFirst(less, x, Sort(less, xs))
  {
    SortSorted(less, xs);
    SortedBelowFirst(less, x, Sort(less, xs));
  }

  /** Stability, in its strongest form: sorting commutes with every filter. For a
      filter that picks elements tied with one another, the sorted list keeps
      them in their original order. */
  lemma {:induction false} SortFilter<T(!new)>(less: (T, T) -> bool, p: T -> bool, xs: seq<T>)
    requires WeakOrder(less)
    ensures Filter(p, Sort(less, xs)) == Sort(less, Filter(p, xs))
  {
    if xs != [] {
      SortFilter(less, p, xs[1..]);
      SortBelowFirst(less, xs[0], xs[1..]);
      FilterInsert(less, p, xs[0], Sort(less, xs[1..]));
    }
  }

  lemma {:induction false} InsertMap<T(!new)>(less: (T, T) -> bool, f: T -> T, x: T, xs: seq<T>)
    requires forall y :: y in xs ==> less(f(y), f(x)) == less(y, x)
    ensures Insert(less, f(x), Map(f, xs)) == Map(f, Insert(less, x, xs))
  {
    if xs != [] {
      assert Map(f, xs)[1..] == Map(f, xs[1..]);
      assert xs[0] in xs;
      if less(xs[0], x) {
        InsertMap(less, f, x, xs[1..]);
      }
    }
  }

  /** Sorting commutes with a map that keeps the order of its arguments. */
  lemma {:induction false} SortMap<T(!new)>(less: (T, T) -> bool, f: T -> T, xs: seq<T>)
    requires forall x, y :: x in xs && y in xs ==> less(f(x), f(y)) == less(x, y)
    ensures Sort(less, Map(f, xs)) == Map(f, Sort(less, xs))
  {
    if xs != [] {
      assert Map(f, xs)[1..] == Map(f, xs[1..]);
      SortMap(less, f, xs[1..]);
      SortPermutes(less, xs[1..]);
      SameMembers(Sort(less, xs[1..]), xs[1..]);
      assert forall y :: y in xs[1..] ==> y in xs;
      InsertMap(less, f, xs[0], Sort(less, xs[1..]));
    }
  }

  /** Two comparisons that agree on the elements sort them alike. */
  lemma {:induction false} SortAgrees<T(!new)>(less: (T, T) -> bool, same: (T, T) -> bool, xs: seq<T>)
    requires forall x, y :: x in xs && y in xs ==> less(x, y) == same(x, y)
    ensures Sort(less, xs) == Sort(same, xs)
  {
    if xs != [] {
      SortAgrees(less, same, xs[1..]);
      var tail := Sort(less, xs[1..]);
      SortPermutes(less, xs[1..]);
      SameMembers(tail, xs[1..]);
      InsertAgrees(less, same, xs[0], tail);
    }
  }

  lemma {:induction false} InsertAgrees<T(!new)>(less: (T, T) -> bool, same: (T, T) -> bool, x: T, xs: seq<T>)
    requires forall y :: y in xs ==> less(y, x) == same(y, x)
    ensures Insert(less, x, xs) == Insert(same, x, xs)
  {
    if xs != [] && less(xs[0], x) {
      InsertAgrees(less, same, x, xs[1..]);
    }
  }

  lemma LeastFirst<T(!new)>(less: (T, T) -> bool, xs: seq<T>, ys: seq<T>)
    requires xs != [] && ys != [] && Sorted(less, xs) && Sorted(less, ys)
    requires xs[0] in ys && ys[0] in xs
    requires xs[0] != ys[0] ==> less(xs[0], ys[0]) || less(ys[0], xs[0])
    ensures xs[0] == ys[0]
  {
    var i :| 0 <= i < |ys| && ys[i] == xs[0];
    var j :| 0 <= j < |xs| && xs[j] == ys[0];
  }

  lemma SortedRest<T>(less: (T, T) -> bool, xs: seq<T>)
    requires xs != [] && Sorted(less, xs)
    ensures multiset(xs[1..]) == multiset(xs) - multiset{xs[0]} && Sorted(less, xs[1..])
  {
    assert xs == [xs[0]] + xs[1..];
  }

  /** No two members tie. */
  ghost predicate Untied<T(!new)>(less: (T, T) -> bool, xs: seq<T>) {
    forall x, y :: x in xs && y in xs && x != y ==> less(x, y) || less(y, x)
  }

  lemma UntiedRest<T(!new)>(less: (T, T) -> bool, xs: seq<T>)
    requires xs != [] && Untied(less, xs)
    ensures Untied(less, xs[1..])
  {
    assert forall x :: x in xs[1..] ==> x in xs;
  }

  lemma SameLength<T>(xs: seq<T>, ys: seq<T>)
    requires multiset(xs) == multiset(ys)
    ensures |xs| == |ys|
  {
    assert |xs| == |multiset(xs)| == |multiset(ys)| == |ys|;
  }

  lemma UniqueHead<T(!new)>(less: (T, T) -> bool, xs: seq<T>, ys: seq<T>)
    requires Sorted(less, xs) && Sorted(less, ys) && multiset(xs) == multiset(ys)
    requires Untied(less, xs) && xs != [] && ys != []
    ensures xs[0] == ys[0]
  {
    hide Sorted;
    SameMembers(xs, ys);
    assert xs[0] in xs && ys[0] in ys;
    LeastFirst(less, xs, ys);
  }

  lemma HeadTail<T>(xs: seq<T>)
    requires xs != []
    ensures xs == [xs[0]] + xs[1..]
  {
  }

  /** Without ties there is only one sorted arrangement. */
  lemma {:induction false} SortedUnique<T(!new)>(less: (T, T) -> bool, xs: seq<T>, ys: seq<T>)
    requires Sorted(less, xs) && Sorted(less, ys) && multiset(xs) == multiset(ys)
    requires Untied(less, xs)
    ensures xs == ys
  {
    hide Sorted, Untied;
    SameLength(xs, ys);
    if xs != [] {
      UniqueHead(less, xs, ys);
      UntiedRest(less, xs);
      SortedRest(less, xs);
      SortedRest(less, ys);
      SortedUnique(less, xs[1..], ys[1..]);
      HeadTail(xs);
      HeadTail(ys);
    }
  }

  // --------------------------------------------- every stable sort is this one

  /** The members that x ties with. */
  function TiedWith<T>(less: (T, T) -> bool, x: T): T -> bool {
    (y: T) => !less(x, y) && !less(y, x)
  }

  /** A stable arrangement of xs: elements that tie come in the order they had. */
  ghost predicate StableArrangement<T(!new)>(less: (T, T) -> bool, xs: seq<T>, ys: seq<T>) {
    forall x :: Filter(TiedWith(less, x), ys) == Filter(TiedWith(less, x), xs)
  }

  lemma SomeoneTies<T(!new)>(less: (T, T) -> bool, xs: seq<T>)
    requires WeakOrder(less) && xs != []
    ensures exists x :: Filter(TiedWith(less, x), xs) != []
  {
    assert !Below(less, xs[0], xs[0]);
    assert Filter(TiedWith(less, xs[0]), xs)[0] == xs[0];
  }

  lemma FirstTied<T(!new)>(less: (T, T) -> bool, xs: seq<T>, ys: seq<T>)
    requires WeakOrder(less) && Sorted(less, xs) && Sorted(less, ys) && StableArrangement(less, xs, ys)
    requires xs != [] && ys != []
    ensures xs[0] == ys[0]
  {
    var x, y := xs[0], ys[0];
    assert !Below(less, x, x) && !Below(less, y, y);
    assert Filter(TiedWith(less, x), xs)[0] == x && Filter(TiedWith(less, y), ys)[0] == y;
    FilterMembers(TiedWith(less, x), ys);
    FilterMembers(TiedWith(less, y), xs);
    assert x in Filter(TiedWith(less, x), ys) && y in Filter(TiedWith(less, y), xs);
    var i :| 0 <= i < |ys| && ys[i] == x;
    var j :| 0 <= j < |xs| && xs[j] == y;
    assert TiedWith(less, x)(y);
  }

  lemma {:induction false} StableUnique<T(!new)>(less: (T, T) -> bool, xs: seq<T>, ys: seq<T>)
    requires WeakOrder(less) && Sorted(less, xs) && Sorted(less, ys) && StableArrangement(less, xs, ys)
    ensures xs == ys
  {
    if xs == [] {
      if ys != [] {
        SomeoneTies(less, ys);
      }
    } else if ys == [] {
      SomeoneTies(less, xs);
    } else {
      FirstTied(less, xs, ys);
      forall x ensures Filter(TiedWith(less, x), ys[1..]) == Filter(TiedWith(less, x), xs[1..]) {
        var p := TiedWith(less, x);
        assert Filter(p, xs) == Filter(p, ys);
        if p(xs[0]) {
          assert Filter(p, xs[1..]) == Filter(p, xs)[1..] && Filter(p, ys[1..]) == Filter(p, ys)[1..];
        }
      }
      StableUnique(less, xs[1..], ys[1..]);
      assert xs == [xs[0]] + xs[1..] && ys == [ys[0]] + ys[1..];
    }
  }

  /** Whatever algorithm a library uses, if its result is sorted and stable it is
      this function's result, for every strict weak order. */
  lemma StableSortIsSort<T(!new)>(less: (T, T) -> bool, xs: seq<T>, ys: seq<T>)
    requires WeakOrder(less)
    ensures Sorted(less, ys) && StableArrangement(less, xs, ys) <==> ys == Sort(less, xs)
  {
    var zs := Sort(less, xs);
    SortSorted(less, xs);
    forall x ensures Filter(TiedWith(less, x), zs) == Filter(TiedWith(less, x), xs) {
      SortFilter(less, TiedWith(less, x), xs);
      TiesSorted(less, x, xs);
      SortFixed(less, Filter(TiedWith(less, x), xs));
    }
    if Sorted(less, ys) && StableArrangement(less, xs, ys) {
      assert StableArrangement(less, zs, ys);
      StableUnique(less, zs, ys);
    }
  }

  lemma TiesSorted<T(!new)>(less: (T, T) -> bool, x: T, xs: seq<T>)
    requires WeakOrder(less)
    ensures Sorted(less, Filter(TiedWith(less, x), xs))
  {
    var ties := Filter(TiedWith(less, x), xs);
    FilterMembers(TiedWith(less, x), xs);
    forall i, j | 0 <= i < j < |ties| ensures !less(ties[j], ties[i]) {
      assert ties[i] in ties && ties[j] in ties;
      assert !Below(less, ties[j], x) && !Below(less, x, ties[i]);
      assert !Below(less, ties[j], ties[i]);
    }
  }
}
