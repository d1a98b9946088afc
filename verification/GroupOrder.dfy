/**
 The order of the groups: class rank, then priority, then display name, then
 name, the last two lower-cased. Priorities are compared by subtracting them,
 which wraps around in 64 bits.
 */
module GroupOrder {
  import opened Text
  import opened Sequences
  import opened Boards
  import opened Enumeration

  const TWO_63 := 0x8000_0000_0000_0000

  /** Two's complement wrap-around of Go's int. */
  function Wrap64(n: int): Int64 {
    (n + TWO_63) % (2 * TWO_63) - TWO_63
  }

  function PriorityClassRank(lower: string -> string, value: string): (rank: int)
    ensures 0 <= rank <= 2
  {
    var word := lower(TrimSpace(value));
    if word == "first" then 0 else if word == "last" then 2 else 1
  }

  /** The comparison function handed to the sort. */
  function Compare(lower: string -> string, a: LinkGroup, b: LinkGroup): int {
    var rankA, rankB := PriorityClassRank(lower, a.priorityClass), PriorityClassRank(lower, b.priorityClass);
    if rankA != rankB then rankA - rankB else
    if a.priority != b.priority then Wrap64(a.priority - b.priority) else
    var dA, dB := lower(a.displayName), lower(b.displayName);
    if dA != dB then (if LexLess(dA, dB) then -1 else 1) else
    var nA, nB := lower(a.name), lower(b.name);
    if nA != nB then (if LexLess(nA, nB) then -1 else 1) else 0
  }

  function Precedes(lower: string -> string): (LinkGroup, LinkGroup) -> bool {
    (a: LinkGroup, b: LinkGroup) => Compare(lower, a, b) < 0
  }

  /** The order the four keys are meant to give. */
  predicate Before(lower: string -> string, a: LinkGroup, b: LinkGroup) {
    var rankA, rankB := PriorityClassRank(lower, a.priorityClass), PriorityClassRank(lower, b.priorityClass);
    if rankA != rankB then rankA < rankB else
    if a.priority != b.priority then a.priority < b.priority else
    var dA, dB := lower(a.displayName), lower(b.displayName);
    if dA != dB then LexLess(dA, dB) else LexLess(lower(a.name), lower(b.name))
  }

  function Intended(lower: string -> string): (LinkGroup, LinkGroup) -> bool {
    (a: LinkGroup, b: LinkGroup) => Before(lower, a, b)
  }

  predicate Tied(lower: string -> string, a: LinkGroup, b: LinkGroup) {
    && PriorityClassRank(lower, a.priorityClass) == PriorityClassRank(lower, b.priorityClass)
    && a.priority == b.priority
    && lower(a.displayName) == lower(b.displayName)
    && lower(a.name) == lower(b.name)
  }

  /** The subtraction that compares a with b does not wrap around. */
  predicate Fits(lower: string -> string, a: LinkGroup, b: LinkGroup) {
    || PriorityClassRank(lower, a.priorityClass) != PriorityClassRank(lower, b.priorityClass)
    || -TWO_63 <= a.priority - b.priority < TWO_63
  }

  /** The comparison has the sign of the intended order exactly when its
      subtraction fits in 64 bits. */
  lemma CompareAgrees(lower: string -> string, a: LinkGroup, b: LinkGroup)
    ensures ((Compare(lower, a, b) < 0 <==> Before(lower, a, b)) && (Compare(lower, a, b) == 0 <==> Tied(lower, a, b)))
       <==> Fits(lower, a, b)
  {
    LexTotal(lower(a.displayName), lower(b.displayName));
    LexTotal(lower(a.name), lower(b.name));
  }

  /** Otherwise it need not even be an order: these three priorities go round in
      a circle. */
  lemma WrappedPrioritiesCycle(lower: string -> string)
    ensures var group := (name: string, p: Int64) => LinkGroup(name, p, "", name, "local", map[], false);
      var low, mid, high := group("a", -0x6000_0000_0000_0000), group("b", 0), group("c", 0x6000_0000_0000_0000);
      && Compare(lower, low, mid) < 0 && Compare(lower, mid, high) < 0 && Compare(lower, high, low) < 0
      && !Fits(lower, high, low)
  {
  }

  lemma LexNotLessTransitive(a: string, b: string, c: string)
    requires !LexLess(a, b) && !LexLess(b, c)
    ensures !LexLess(a, c)
  {
    LexTotal(a, b);
    if LexLess(a, c) && LexLess(b, a) {
      LexTransitive(b, a, c);
    }
  }

  lemma BeforeNotTransitive(lower: string -> string, a: LinkGroup, b: LinkGroup, c: LinkGroup)
    requires !Before(lower, a, b) && !Before(lower, b, c)
    ensures !Before(lower, a, c)
  {
    hide LexLess, PriorityClassRank;
    var x, y, z := lower(a.displayName), lower(b.displayName), lower(c.displayName);
    var u, v, w := lower(a.name), lower(b.name), lower(c.name);
    LexTotal(x, y);
    LexTotal(y, z);
    LexTotal(x, z);
    if !LexLess(x, y) && !LexLess(y, z) {
      LexNotLessTransitive(x, y, z);
    }
    if !LexLess(u, v) && !LexLess(v, w) {
      LexNotLessTransitive(u, v, w);
    }
  }

  lemma BeforeAsymmetric(lower: string -> string, a: LinkGroup, b: LinkGroup)
    requires Before(lower, a, b)
    ensures !Before(lower, b, a)
  {
    LexTotal(lower(a.displayName), lower(b.displayName));
    LexTotal(lower(a.name), lower(b.name));
  }

  /** The intended order is one a sort may be asked for: total up to ties. */
  lemma IntendedIsOrder(lower: string -> string)
    ensures WeakOrder(Intended(lower))
    ensures forall a, b :: Intended(lower)(a, b) || Intended(lower)(b, a) || Tied(lower, a, b)
  {
    hide Before;
    var less := Intended(lower);
    forall a, b | Sequences.Below(less, a, b) ensures !Sequences.Below(less, b, a) {
      BeforeAsymmetric(lower, a, b);
    }
    forall a, b, c | !Sequences.Below(less, a, b) && !Sequences.Below(less, b, c) ensures !Sequences.Below(less, a, c) {
      BeforeNotTransitive(lower, a, b, c);
    }
    forall a, b ensures less(a, b) || less(b, a) || Tied(lower, a, b) {
      BeforeTotal(lower, a, b);
    }
  }

  lemma BeforeTotal(lower: string -> string, a: LinkGroup, b: LinkGroup)
    ensures Before(lower, a, b) || Before(lower, b, a) || Tied(lower, a, b)
  {
    LexTotal(lower(a.displayName), lower(b.displayName));
    LexTotal(lower(a.name), lower(b.name));
  }

  // ------------------------------------------------- the order, key by key

  function ClassWord(lower: string -> string, g: LinkGroup): string {
    lower(TrimSpace(g.priorityClass))
  }

  /** Both first, both last, or neither. */
  predicate SameClass(lower: string -> string, a: LinkGroup, b: LinkGroup) {
    && (ClassWord(lower, a) == "first" <==> ClassWord(lower, b) == "first")
    && (ClassWord(lower, a) == "last" <==> ClassWord(lower, b) == "last")
  }

  /** a may be listed before b. */
  ghost predicate InOrder(lower: string -> string, a: LinkGroup, b: LinkGroup) {
    && (ClassWord(lower, b) == "first" ==> ClassWord(lower, a) == "first")
    && (ClassWord(lower, a) == "last" ==> ClassWord(lower, b) == "last")
    && (SameClass(lower, a, b) ==> a.priority <= b.priority)
    && (SameClass(lower, a, b) && a.priority == b.priority ==> NamesInOrder(lower, a, b))
  }

  /** By display name, and by name where display names are equal, both in lower case. */
  ghost predicate NamesInOrder(lower: string -> string, a: LinkGroup, b: LinkGroup) {
    || Less(lower(a.displayName), lower(b.displayName))
    || (lower(a.displayName) == lower(b.displayName) && (Less(lower(a.name), lower(b.name)) || lower(a.name) == lower(b.name)))
  }

  lemma BeforeIff(lower: string -> string, a: LinkGroup, b: LinkGroup)
    ensures !Before(lower, b, a) <==> InOrder(lower, a, b)
  {
    hide LexLess, Less, TrimSpace;
    LexTotal(lower(a.displayName), lower(b.displayName));
    LexTotal(lower(a.name), lower(b.name));
    LexLessIff(lower(a.displayName), lower(b.displayName));
    LexLessIff(lower(a.name), lower(b.name));
  }

  /** Two groups can be listed either way exactly when they tie. */
  lemma EitherWayIffTied(lower: string -> string, a: LinkGroup, b: LinkGroup)
    ensures InOrder(lower, a, b) && InOrder(lower, b, a) <==> Tied(lower, a, b)
  {
    hide Before, InOrder, Tied;
    BeforeIff(lower, a, b);
    BeforeIff(lower, b, a);
    BeforeTotal(lower, a, b);
    if Tied(lower, a, b) {
      TiedUnordered(lower, a, b);
    }
  }

  // --------------------------------------------------------- sorting the map

  function Entries(details: map<string, LinkGroup>, order: seq<string>): (r: seq<LinkGroup>)
    requires forall k :: k in order ==> k in details
    ensures |r| == |order| && forall i :: 0 <= i < |r| ==> r[i] == details[order[i]]
  {
    seq(|order|, i requires 0 <= i < |order| => details[order[i]])
  }

  /** sortLinkGroups when the map is ranged over in this order. */
  function SortedGroups(lower: string -> string, details: map<string, LinkGroup>, order: seq<string>): seq<LinkGroup>
    requires forall k :: k in order ==> k in details
  {
    Sort(Precedes(lower), Entries(details, order))
  }

  lemma EntriesSnoc(details: map<string, LinkGroup>, order: seq<string>, name: string)
    requires (forall k :: k in order ==> k in details) && name in details
    ensures Entries(details, order + [name]) == Entries(details, order) + [details[name]]
  {
  }

  method SortLinkGroups(lower: string -> string, details: map<string, LinkGroup>)
    returns (result: seq<LinkGroup>, ghost order: seq<string>)
    ensures Enumerates(order, details.Keys)
    ensures forall k :: k in order ==> k in details
    ensures result == SortedGroups(lower, details, order)
    ensures AllFit(lower, details) ==>
      forall i, j {:trigger result[i], result[j]} :: 0 <= i < j < |result| ==> InOrder(lower, result[i], result[j])
  {
    hide Enumerates, Sort, AllFit, InOrder;
    assert Entries(details, []) == [];
    hide Entries;
    var unseen := details.Keys;
    ghost var seen: set<string> := {};
    order := [];
    result := [];
    EnumeratesStart<string>();
    while unseen != {}
      invariant seen <= details.Keys && unseen == details.Keys - seen
      invariant Enumerates(order, seen)
      invariant forall k :: k in order ==> k in details
      invariant result == Entries(details, order)
      decreases unseen
    {
      var name :| name in unseen;
      EnumeratesSnoc(order, seen, name);
      EntriesSnoc(details, order, name);
      unseen, seen := unseen - {name}, seen + {name};
      result := result + [details[name]];
      order := order + [name];
    }
    assert seen == details.Keys;
    result := Sort(Precedes(lower), result);
    if AllFit(lower, details) {
      SortedGroupsCorrect(lower, details, order);
    }
  }

  ghost predicate AllFit(lower: string -> string, details: map<string, LinkGroup>) {
    forall j, k :: j in details && k in details ==> Fits(lower, details[j], details[k])
  }

  /** Priorities of magnitude below 2^62 never wrap. */
  lemma SmallPrioritiesFit(lower: string -> string, details: map<string, LinkGroup>)
    requires forall k :: k in details ==> -0x4000_0000_0000_0000 <= details[k].priority < 0x4000_0000_0000_0000
    ensures AllFit(lower, details)
  {
  }

  lemma SortIntended(lower: string -> string, details: map<string, LinkGroup>, order: seq<string>)
    requires AllFit(lower, details) && forall k :: k in order ==> k in details
    ensures SortedGroups(lower, details, order) == Sort(Intended(lower), Entries(details, order))
  {
    var xs := Entries(details, order);
    forall a, b | a in xs && b in xs ensures Precedes(lower)(a, b) == Intended(lower)(a, b) {
      CompareAgrees(lower, a, b);
    }
    SortAgrees(Precedes(lower), Intended(lower), xs);
  }

  /** The output is the map's values, each once. Of two listed groups the earlier one
      may be listed before the later one: "first" comes first and "last" last, and within
      a class lower priorities come first, then names. */
  lemma SortedGroupsCorrect(lower: string -> string, details: map<string, LinkGroup>, order: seq<string>)
    requires AllFit(lower, details) && Enumerates(order, details.Keys)
    ensures var r := SortedGroups(lower, details, order);
      && Sorted(Intended(lower), r) && multiset(r) == multiset(Entries(details, order))
      && (forall i, j {:trigger r[i], r[j]} :: 0 <= i < j < |r| ==> InOrder(lower, r[i], r[j]))
  {
    SortIntended(lower, details, order);
    IntendedIsOrder(lower);
    SortSorted(Intended(lower), Entries(details, order));
    SortPermutes(Intended(lower), Entries(details, order));
    var r := SortedGroups(lower, details, order);
    hide AllFit, SortedGroups, InOrder, Before;
    forall i, j | 0 <= i < j < |r| ensures InOrder(lower, r[i], r[j]) {
      assert !Intended(lower)(r[j], r[i]);
      BeforeIff(lower, r[i], r[j]);
    }
  }

  lemma {:induction false} EntriesPermute(details: map<string, LinkGroup>, o1: seq<string>, o2: seq<string>, keys: set<string>)
    requires Enumerates(o1, keys) && Enumerates(o2, keys) && keys <= details.Keys
    ensures multiset(Entries(details, o1)) == multiset(Entries(details, o2))
  {
    if o1 == [] {
      EnumeratedByNothing(keys);
      EnumeratesNothing(o2);
    } else {
      assert o1[0] in o1;
      var i := EnumeratesFind(o2, keys, o1[0]);
      EnumeratesWithout(o1, keys, 0);
      EnumeratesWithout(o2, keys, i);
      assert Without(o1, 0) == o1[1..];
      EntriesPermute(details, o1[1..], Without(o2, i), keys - {o1[0]});
      EntriesWithout(details, o1, 0);
      EntriesWithout(details, o2, i);
    }
  }

  lemma WithoutOne<T>(xs: seq<T>, i: nat)
    requires i < |xs|
    ensures multiset(xs) == multiset(Without(xs, i)) + multiset{xs[i]}
  {
    assert xs == xs[..i] + [xs[i]] + xs[i + 1..];
  }

  lemma EntriesWithout(details: map<string, LinkGroup>, order: seq<string>, i: nat)
    requires i < |order| && forall k :: k in order ==> k in details
    requires forall k :: k in Without(order, i) ==> k in details
    ensures multiset(Entries(details, order)) == multiset(Entries(details, Without(order, i))) + multiset{details[order[i]]}
  {
    hide Entries;
    var es, rest := Entries(details, order), Without(order, i);
    assert Entries(details, rest) == Without(es, i) by {
      forall j | 0 <= j < |rest| ensures Entries(details, rest)[j] == Without(es, i)[j] {
        assert rest[j] == order[if j < i then j else j + 1];
      }
    }
    WithoutOne(es, i);
  }

  ghost predicate NoTies(lower: string -> string, details: map<string, LinkGroup>) {
    forall j, k :: j in details && k in details && j != k ==> !Tied(lower, details[j], details[k])
  }

  ghost predicate OrderIndependent(lower: string -> string, details: map<string, LinkGroup>) {
    forall o1, o2 :: Enumerates(o1, details.Keys) && Enumerates(o2, details.Keys)
      ==> SortedGroups(lower, details, o1) == SortedGroups(lower, details, o2)
  }

  lemma EntriesUntied(lower: string -> string, details: map<string, LinkGroup>, order: seq<string>)
    requires NoTies(lower, details) && Enumerates(order, details.Keys)
    ensures forall a, b :: a in Entries(details, order) && b in Entries(details, order) && a != b
              ==> Intended(lower)(a, b) || Intended(lower)(b, a)
  {
    forall a, b | a in Entries(details, order) && b in Entries(details, order) && a != b
      ensures Intended(lower)(a, b) || Intended(lower)(b, a)
    {
      BeforeTotal(lower, a, b);
    }
  }

  lemma SameSorted(lower: string -> string, details: map<string, LinkGroup>, o1: seq<string>, o2: seq<string>)
    requires AllFit(lower, details) && NoTies(lower, details)
    requires Enumerates(o1, details.Keys) && Enumerates(o2, details.Keys)
    ensures SortedGroups(lower, details, o1) == SortedGroups(lower, details, o2)
  {
    EntriesUntied(lower, details, o1);
    hide AllFit, NoTies, SortedGroups, Sorted, Entries, Intended;
    var r1, r2 := SortedGroups(lower, details, o1), SortedGroups(lower, details, o2);
    SortedGroupsCorrect(lower, details, o1);
    SortedGroupsCorrect(lower, details, o2);
    EntriesPermute(details, o1, o2, details.Keys);
    SameMembers(Entries(details, o1), r1);
    SortedUnique(Intended(lower), r1, r2);
  }

  function Either(a: LinkGroup, b: LinkGroup): LinkGroup -> bool {
    (g: LinkGroup) => g == a || g == b
  }

  lemma TiedUnordered(lower: string -> string, a: LinkGroup, b: LinkGroup)
    requires Tied(lower, a, b)
    ensures !Before(lower, a, b) && !Before(lower, b, a)
  {
    LexTotal(lower(a.name), lower(b.name));
  }

  lemma PairSorted(lower: string -> string, a: LinkGroup, b: LinkGroup)
    requires !Before(lower, b, a)
    ensures Sort(Intended(lower), [a, b]) == [a, b]
  {
    hide Before;
    SortFixed(Intended(lower), [a, b]);
  }

  lemma TiedFiltered(details: map<string, LinkGroup>, j: string, k: string, rest: seq<string>)
    requires (forall n :: n in details ==> details[n].name == n)
    requires j in details && k in details
    requires forall n :: n in rest ==> n in details && n != j && n != k
    requires forall n :: n in [j, k] + rest ==> n in details
    ensures Filter(Either(details[j], details[k]), Entries(details, [j, k] + rest)) == [details[j], details[k]]
  {
    var p := Either(details[j], details[k]);
    assert Entries(details, [j, k] + rest) == [details[j], details[k]] + Entries(details, rest);
    FilterConcat(p, [details[j], details[k]], Entries(details, rest));
    FilterAll(p, [details[j], details[k]]);
    FilterNone(p, Entries(details, rest));
  }

  /** A stable sort leaves two tied groups in the order they came in. */
  lemma TiedStayInOrder(lower: string -> string, details: map<string, LinkGroup>, j: string, k: string, rest: seq<string>)
    requires AllFit(lower, details) && (forall n :: n in details ==> details[n].name == n)
    requires j in details && k in details && j != k && Tied(lower, details[j], details[k])
    requires forall n :: n in rest ==> n in details && n != j && n != k
    requires forall n :: n in [j, k] + rest ==> n in details
    ensures Filter(Either(details[j], details[k]), SortedGroups(lower, details, [j, k] + rest)) == [details[j], details[k]]
  {
    TiedUnordered(lower, details[j], details[k]);
    hide Tied, Before, Fits, SortedGroups, AllFit, Filter, Sort, Either, Entries, Intended;
    TiedFiltered(details, j, k, rest);
    SortIntended(lower, details, [j, k] + rest);
    IntendedIsOrder(lower);
    SortFilter(Intended(lower), Either(details[j], details[k]), Entries(details, [j, k] + rest));
    PairSorted(lower, details[j], details[k]);
  }

  lemma TwoFirst(j: string, k: string, rest: seq<string>, keys: set<string>)
    requires j in keys && k in keys && j != k && Enumerates(rest, keys - {j, k})
    ensures Enumerates([j, k] + rest, keys)
  {
  }

  lemma TiesShow(lower: string -> string, details: map<string, LinkGroup>, j: string, k: string, o1: seq<string>, o2: seq<string>, rest: seq<string>)
    requires AllFit(lower, details) && (forall n :: n in details ==> details[n].name == n)
    requires j in details && k in details && j != k && Tied(lower, details[j], details[k])
    requires Enumerates(rest, details.Keys - {j, k}) && o1 == [j, k] + rest && o2 == [k, j] + rest
    ensures Enumerates(o1, details.Keys) && Enumerates(o2, details.Keys)
    ensures SortedGroups(lower, details, o1) != SortedGroups(lower, details, o2)
  {
    hide AllFit, SortedGroups, Filter, Either;
    TwoFirst(j, k, rest, details.Keys);
    TwoFirst(k, j, rest, details.Keys);
    TiedStayInOrder(lower, details, j, k, rest);
    TiedStayInOrder(lower, details, k, j, rest);
    EitherSymmetric(details[j], details[k], SortedGroups(lower, details, o2));
  }

  lemma NoTiesIndependent(lower: string -> string, details: map<string, LinkGroup>)
    requires AllFit(lower, details) && NoTies(lower, details)
    ensures OrderIndependent(lower, details)
  {
    hide AllFit, NoTies, SortedGroups;
    forall o1, o2 | Enumerates(o1, details.Keys) && Enumerates(o2, details.Keys)
      ensures SortedGroups(lower, details, o1) == SortedGroups(lower, details, o2)
    {
      SameSorted(lower, details, o1, o2);
    }
  }

  /** "Deterministic ordering", as the documentation has it, holds exactly when
      no two groups tie on all four keys. */
  lemma DeterministicIffNoTies(lower: string -> string, details: map<string, LinkGroup>)
    requires AllFit(lower, details) && forall n :: n in details ==> details[n].name == n
    ensures OrderIndependent(lower, details) <==> NoTies(lower, details)
  {
    hide AllFit, Tied, SortedGroups, AnyOrder, Enumerates;
    if NoTies(lower, details) {
      NoTiesIndependent(lower, details);
    } else {
      var j, k :| j in details && k in details && j != k && Tied(lower, details[j], details[k]);
      var rest := AnyOrder(details.Keys - {j, k});
      TiesShow(lower, details, j, k, [j, k] + rest, [k, j] + rest, rest);
    }
  }

  lemma {:induction false} EitherSymmetric(a: LinkGroup, b: LinkGroup, xs: seq<LinkGroup>)
    ensures Filter(Either(a, b), xs) == Filter(Either(b, a), xs)
  {
    if xs != [] {
      EitherSymmetric(a, b, xs[1..]);
    }
  }
}
