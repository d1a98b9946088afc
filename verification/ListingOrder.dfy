/**
 In which order the dashboard lists its groups, and when Go's map order has a say in
 it: through the order of the peers, which decides whose record a shared group gets;
 through label lookups at foreign clusters, which decide which groups they supply; and
 through the order of the groups, which decides between groups that tie.
 */
module ListingOrder {
  import opened Wrappers
  import Text
  import opened Sequences
  import opened Enumeration
  import opened Boards
  import opened GroupOrder
  import opened Labels
  import opened Collect
  import opened Sources
  import opened Collection
  import opened PeerCache
  import opened Merge
  import opened Fleet
  import opened FleetLookups
  import opened Dashboard
  import opened Aggregator

  /** Peer u carries a group that the node itself does not have. */
  ghost predicate Brings(b: Board, s: Surroundings, key: string, u: string) {
    s.remote.Some? && u in s.remote.value && key !in b.details && Carries(s.remote.value[u], key)
  }

  /** No such group is carried by two peers. */
  ghost predicate NoContest(b: Board, s: Surroundings) {
    forall key, u, v :: Brings(b, s, key, u) && Brings(b, s, key, v) ==> u == v
  }

  /** Only a cluster can supply the group. */
  ghost predicate OnlyFleet(b: Board, s: Surroundings, key: string) {
    key !in b.details && s.actives.Some? && forall u :: !Brings(b, s, key, u)
  }

  /** Whatever labels resolve to at the clusters, each group that neither the node nor a
      peer has is supplied under the same endpoint, or not at all. */
  ghost predicate FleetSettled(fold: char -> char, b: Board, s: Surroundings) {
    forall key :: OnlyFleet(b, s, key) ==> Settled(fold, s.actives.value, key)
  }

  /** t is a possible outcome of merging and of ranging over the merged groups. */
  ghost predicate Lists(fold: char -> char, b: Board, s: Surroundings, t: Trace) {
    MergeTrace(fold, s, t) && Enumerates(t.groups, Merged(fold, b, s, t).details.Keys)
  }

  ghost function ListingOf(fold: char -> char, lower: string -> string, b: Board, s: Surroundings, t: Trace): seq<LinkGroup>
    requires Lists(fold, b, s, t)
  {
    SortedGroups(lower, Merged(fold, b, s, t).details, t.groups)
  }

  /** The listing is the same for all orders of the peers and of the groups, and for all
      answers to label lookups at the clusters. */
  ghost predicate ListingDetermined(fold: char -> char, lower: string -> string, b: Board, s: Surroundings) {
    forall t1, t2 :: Lists(fold, b, s, t1) && Lists(fold, b, s, t2) ==> ListingOf(fold, lower, b, s, t1) == ListingOf(fold, lower, b, s, t2)
  }

  // ------------------------------------------------------- the merged records

  lemma SameCarrier(b: Board, s: Surroundings, o1: seq<string>, o2: seq<string>, key: string)
    requires s.remote.Some? && Enumerates(o1, s.remote.value.Keys) && Enumerates(o2, s.remote.value.Keys)
    requires NoContest(b, s) && key !in b.details
    ensures FirstCarrier(s.remote.value, o1, key) == FirstCarrier(s.remote.value, o2, key)
  {
    hide Carries;
    var c1, c2 := FirstCarrier(s.remote.value, o1, key), FirstCarrier(s.remote.value, o2, key);
    if c1.Some? && c2.Some? {
      assert Brings(b, s, key, c1.value) && Brings(b, s, key, c2.value);
    }
  }

  ghost function Carrier(s: Surroundings, t: Trace, key: string): Option<string>
    requires s.remote.Some? ==> Enumerates(t.peers, s.remote.value.Keys)
  {
    if s.remote.Some? then FirstCarrier(s.remote.value, t.peers, key) else None
  }

  lemma NoCarrierOnlyFleet(b: Board, s: Surroundings, t: Trace, key: string)
    requires s.remote.Some? ==> Enumerates(t.peers, s.remote.value.Keys)
    requires key !in b.details && s.actives.Some?
    ensures Carrier(s, t, key).None? <==> OnlyFleet(b, s, key)
  {
    hide Carries;
    var c := Carrier(s, t, key);
    if c.Some? {
      assert Brings(b, s, key, c.value);
    }
  }

  /** What the clusters make of a group that no peer carries. */
  ghost function FleetRecord(fold: char -> char, actives: seq<Active>, fleet: seq<seq<seq<string>>>, key: string): Option<LinkGroup>
    requires FleetKeys(fold, actives, fleet)
  {
    match SupplierEndpoint(actives, FleetBoards(fold, actives, fleet), key)
    case None => None
    case Some(e) => Some(NewGroup(key, ForeignSource(e)))
  }

  lemma SuppliedByFleet(fold: char -> char, s: Surroundings, t: Trace, key: string)
    requires MergeTrace(fold, s, t) && s.actives.Some? && Carrier(s, t, key).None?
    ensures Supplied(fold, s, t, key) == FleetRecord(fold, s.actives.value, t.fleet, key)
  {
    hide FirstCarrier, FirstSupplier, ForeignLinks, ForeignBoard, ForeignPlan, ForeignEntry, RunKeys;
    var boards := FleetBoards(fold, s.actives.value, t.fleet);
    var first := FirstSupplier(s.actives.value, boards, key);
    if first.Some? {
      var i := first.value;
      ForeignRecord(s.actives.value[i].cluster, t.fleet[i], s.actives.value[i].endpoint, key);
    }
  }

  lemma SameSupplied(fold: char -> char, b: Board, s: Surroundings, t1: Trace, t2: Trace, key: string)
    requires NoContest(b, s) && FleetSettled(fold, b, s) && MergeTrace(fold, s, t1) && MergeTrace(fold, s, t2) && key !in b.details
    ensures Supplied(fold, s, t1, key) == Supplied(fold, s, t2, key)
  {
    hide FirstCarrier, FirstSupplier, FleetKeys, FleetBoards, NoContest, RemoteEntry, ForeignEntry, Enumerates, Settled, Brings;
    if s.remote.Some? {
      SameCarrier(b, s, t1.peers, t2.peers, key);
    }
    if s.actives.Some? && Carrier(s, t1, key).None? {
      NoCarrierOnlyFleet(b, s, t1, key);
      SettledDetermined(fold, s.actives.value, key);
      SuppliedByFleet(fold, s, t1, key);
      SuppliedByFleet(fold, s, t2, key);
    }
  }

  /** The merged records depend on the node's own records, not on where its links are,
      nor, under the two conditions, on any order or lookup. */
  lemma SameDetails(fold: char -> char, b: Board, c: Board, s: Surroundings, t1: Trace, t2: Trace)
    requires b.details == c.details && MergeTrace(fold, s, t1) && MergeTrace(fold, s, t2)
    requires t1 == t2 || (NoContest(b, s) && FleetSettled(fold, b, s))
    ensures Merged(fold, b, s, t1).details == Merged(fold, c, s, t2).details
  {
    hide Merged, Supplied, MergeTrace, NoContest, FleetSettled;
    var d1, d2 := Merged(fold, b, s, t1).details, Merged(fold, c, s, t2).details;
    forall key ensures key in d1 <==> key in d2
               ensures key in d1 && key in d2 ==> d1[key] == d2[key]
    {
      MergedDetails(fold, b, s, t1, key);
      MergedDetails(fold, c, s, t2, key);
      if key !in b.details && t1 != t2 {
        SameSupplied(fold, b, s, t1, t2, key);
      }
    }
  }

  // ---------------------------------------------------- with a contested group

  lemma EnumeratesFirst(first: string, rest: seq<string>, keys: set<string>)
    requires first in keys && Enumerates(rest, keys - {first})
    ensures Enumerates([first] + rest, keys)
  {
    var order := [first] + rest;
    assert forall k :: k in order <==> k == first || k in rest;
  }

  lemma {:induction false} FirstCarrierHead(remote: Remote, u: string, rest: seq<string>, key: string)
    requires u in remote && Known(remote, rest) && Known(remote, [u] + rest) && Carries(remote[u], key)
    ensures FirstCarrier(remote, [u] + rest, key) == Some(u)
  {
    hide Carries;
    if rest == [] {
      assert [u] + rest == [] + [u] && FirstCarrier(remote, [], key) == None;
      FirstCarrierSnoc(remote, [], u, key);
    } else {
      var init, last := rest[..|rest| - 1], rest[|rest| - 1];
      Snoc(rest);
      Assoc([u], init, [last]);
      assert last in rest;
      KnownConcat(remote, init, [last]);
      KnownConcat(remote, [u] + init, [last]);
      FirstCarrierHead(remote, u, init, key);
      FirstCarrierSnoc(remote, [u] + init, last, key);
    }
  }

  /** Some run visits peer u first. */
  ghost function PeerFirst(fold: char -> char, b: Board, s: Surroundings, t: Trace, u: string): (t': Trace)
    requires MergeTrace(fold, s, t) && s.remote.Some? && u in s.remote.value
    ensures Lists(fold, b, s, t') && t'.fleet == t.fleet && t'.peers[..1] == [u]
  {
    var rest := AnyOrder(s.remote.value.Keys - {u});
    EnumeratesFirst(u, rest, s.remote.value.Keys);
    var t1 := t.(peers := [u] + rest);
    t1.(groups := AnyOrder(Merged(fold, b, s, t1).details.Keys))
  }

  lemma PeerFirstRecord(fold: char -> char, b: Board, s: Surroundings, t: Trace, key: string, u: string)
    requires MergeTrace(fold, s, t) && s.remote.Some? && u in s.remote.value
    requires key !in b.details && Carries(s.remote.value[u], key)
    ensures var d := Merged(fold, b, s, PeerFirst(fold, b, s, t, u)).details;
      key in d && d[key].source == SyncSource(u)
  {
    hide Merged, Carries, FleetKeys, FleetBoards, FirstSupplier, FirstCarrier, MergeTrace;
    var t' := PeerFirst(fold, b, s, t, u);
    assert t'.peers == [u] + t'.peers[1..];
    KnownConcat(s.remote.value, [u], t'.peers[1..]);
    FirstCarrierHead(s.remote.value, u, t'.peers[1..], key);
    MergedDetails(fold, b, s, t', key);
  }

  /** A contested group is listed with either peer's record. */
  lemma ContestShows(fold: char -> char, lower: string -> string, b: Board, s: Surroundings, t: Trace, key: string, u: string, v: string)
    requires WellFormed(b) && MergeTrace(fold, s, t) && Brings(b, s, key, u) && Brings(b, s, key, v) && u != v
    ensures !ListingDetermined(fold, lower, b, s)
  {
    hide Merged, Carries, MergeTrace, FleetKeys, PeerFirst, WellFormed, SortedGroups, Filter, Named, FirstCarrier;
    var t1, t2 := PeerFirst(fold, b, s, t, u), PeerFirst(fold, b, s, t, v);
    PeerFirstRecord(fold, b, s, t, key, u);
    PeerFirstRecord(fold, b, s, t, key, v);
    if SyncSource(u) == SyncSource(v) {
      SyncSourceInjective(u, v);
    }
    RecordsDiffer(fold, lower, b, s, t1, t2, key);
  }

  lemma ListedRecord(fold: char -> char, lower: string -> string, b: Board, s: Surroundings, t: Trace, key: string)
    requires WellFormed(b) && Lists(fold, b, s, t)
    ensures var d := Merged(fold, b, s, t).details;
      Filter(Named(key), ListingOf(fold, lower, b, s, t)) == if key in d then [d[key]] else []
  {
    hide Merged, MergeTrace, SortedGroups;
    MergedWellFormed(fold, b, s, t);
    SortedNamed(lower, Merged(fold, b, s, t).details, t.groups, key);
  }

  /** Two runs whose records of one group differ list different groups. */
  lemma RecordsDiffer(fold: char -> char, lower: string -> string, b: Board, s: Surroundings, t1: Trace, t2: Trace, key: string)
    requires WellFormed(b) && Lists(fold, b, s, t1) && Lists(fold, b, s, t2)
    requires var d1, d2 := Merged(fold, b, s, t1).details, Merged(fold, b, s, t2).details;
      (key in d1) != (key in d2) || (key in d1 && key in d2 && d1[key] != d2[key])
    ensures !ListingDetermined(fold, lower, b, s)
  {
    hide Merged, MergeTrace, WellFormed, SortedGroups, Filter, Named;
    ListedRecord(fold, lower, b, s, t1, key);
    ListedRecord(fold, lower, b, s, t2, key);
    var d1, d2 := Merged(fold, b, s, t1).details, Merged(fold, b, s, t2).details;
    if key in d1 && key in d2 {
      assert [d1[key]][0] != [d2[key]][0];
    }
    assert ListingOf(fold, lower, b, s, t1) != ListingOf(fold, lower, b, s, t2);
  }

  // ---------------------------------------------------- with an unsettled group

  /** The same run, but for what labels resolve to at the clusters. */
  ghost function WithFleet(fold: char -> char, b: Board, s: Surroundings, t: Trace, fleet: seq<seq<seq<string>>>): (t': Trace)
    requires MergeTrace(fold, s, t) && s.actives.Some? && FleetKeys(fold, s.actives.value, fleet)
    ensures Lists(fold, b, s, t') && t'.fleet == fleet && t'.peers == t.peers
  {
    hide FleetKeys, Enumerates;
    var t1 := t.(fleet := fleet);
    t1.(groups := AnyOrder(Merged(fold, b, s, t1).details.Keys))
  }

  lemma ForeignSourceInjective(e: string, f: string)
    requires ForeignSource(e) == ForeignSource(f)
    ensures e == f
  {
    assert ForeignSource(e)[8..] == e && ForeignSource(f)[8..] == f;
  }

  lemma FleetRecordsDiffer(fold: char -> char, actives: seq<Active>, f: seq<seq<seq<string>>>, g: seq<seq<seq<string>>>, key: string)
    requires FleetKeys(fold, actives, f) && FleetKeys(fold, actives, g)
    requires SupplierEndpoint(actives, FleetBoards(fold, actives, f), key) != SupplierEndpoint(actives, FleetBoards(fold, actives, g), key)
    ensures FleetRecord(fold, actives, f, key) != FleetRecord(fold, actives, g, key)
  {
    hide FleetKeys, FleetBoards, SupplierEndpoint, ForeignSource;
    var e, e' := SupplierEndpoint(actives, FleetBoards(fold, actives, f), key), SupplierEndpoint(actives, FleetBoards(fold, actives, g), key);
    if e.Some? && e'.Some? && ForeignSource(e.value) == ForeignSource(e'.value) {
      ForeignSourceInjective(e.value, e'.value);
    }
  }

  /** An unsettled group is listed with one endpoint and with another, or not at all. */
  lemma UnsettledShows(fold: char -> char, lower: string -> string, b: Board, s: Surroundings, t: Trace, key: string)
    requires WellFormed(b) && MergeTrace(fold, s, t) && OnlyFleet(b, s, key) && !Settled(fold, s.actives.value, key)
    ensures !ListingDetermined(fold, lower, b, s)
  {
    hide Merged, WellFormed, Settled, FleetKeys, FleetBoards, SupplierEndpoint, Supplied, ListingDetermined, Brings, Enumerates, FirstCarrier, WithFleet;
    hide FleetRecord;
    SettledIff(fold, s.actives.value, key);
    var f, g :| FleetKeys(fold, s.actives.value, f) && FleetKeys(fold, s.actives.value, g)
                && SupplierEndpoint(s.actives.value, FleetBoards(fold, s.actives.value, f), key)
                   != SupplierEndpoint(s.actives.value, FleetBoards(fold, s.actives.value, g), key);
    FleetRecordsDiffer(fold, s.actives.value, f, g, key);
    var t1, t2 := WithFleet(fold, b, s, t, f), WithFleet(fold, b, s, t, g);
    FleetRecordListed(fold, b, s, t1, key);
    FleetRecordListed(fold, b, s, t2, key);
    RecordsDiffer(fold, lower, b, s, t1, t2, key);
  }

  lemma FleetRecordListed(fold: char -> char, b: Board, s: Surroundings, t: Trace, key: string)
    requires MergeTrace(fold, s, t) && OnlyFleet(b, s, key)
    ensures var d, record := Merged(fold, b, s, t).details, FleetRecord(fold, s.actives.value, t.fleet, key);
      (key in d <==> record.Some?) && (key in d ==> d[key] == record.value)
  {
    hide Merged, Supplied, FleetRecord, Brings, FleetKeys, FleetBoards;
    MergedDetails(fold, b, s, t, key);
    NoCarrierOnlyFleet(b, s, t, key);
    SuppliedByFleet(fold, s, t, key);
  }

  // ------------------------------------------------------------- the exact rule

  /** Where priorities do not wrap around, the listing is deterministic exactly when no
      group that the node itself does not have is carried by two peers, every group that
      only clusters can supply is settled, and no two of the merged groups tie on all
      four keys. */
  lemma ListingDeterminedIff(fold: char -> char, lower: string -> string, b: Board, s: Surroundings, t: Trace)
    requires WellFormed(b) && MergeTrace(fold, s, t) && AllFit(lower, Merged(fold, b, s, t).details)
    ensures ListingDetermined(fold, lower, b, s)
       <==> NoContest(b, s) && FleetSettled(fold, b, s) && NoTies(lower, Merged(fold, b, s, t).details)
  {
    hide Merged, MergeTrace, AllFit, NoTies, Brings, OnlyFleet, Settled, WellFormed, ListingDetermined;
    if !NoContest(b, s) {
      var key, u, v :| Brings(b, s, key, u) && Brings(b, s, key, v) && u != v;
      ContestShows(fold, lower, b, s, t, key, u, v);
    } else if !FleetSettled(fold, b, s) {
      UnsettledGroup(fold, lower, b, s, t);
    } else if NoTies(lower, Merged(fold, b, s, t).details) {
      NoTiesDetermined(fold, lower, b, s, t);
    } else {
      TiesUndetermined(fold, lower, b, s, t);
    }
  }

  lemma UnsettledGroup(fold: char -> char, lower: string -> string, b: Board, s: Surroundings, t: Trace)
    requires WellFormed(b) && MergeTrace(fold, s, t) && !FleetSettled(fold, b, s)
    ensures !ListingDetermined(fold, lower, b, s)
  {
    hide MergeTrace, Brings, Settled, WellFormed, ListingDetermined;
    var key :| OnlyFleet(b, s, key) && !Settled(fold, s.actives.value, key);
    UnsettledShows(fold, lower, b, s, t, key);
  }

  lemma NoTiesDetermined(fold: char -> char, lower: string -> string, b: Board, s: Surroundings, t: Trace)
    requires MergeTrace(fold, s, t) && NoContest(b, s) && FleetSettled(fold, b, s)
    requires AllFit(lower, Merged(fold, b, s, t).details) && NoTies(lower, Merged(fold, b, s, t).details)
    ensures ListingDetermined(fold, lower, b, s)
  {
    hide Merged, MergeTrace, AllFit, NoTies, NoContest, FleetSettled, SortedGroups, Enumerates;
    forall t1, t2 | Lists(fold, b, s, t1) && Lists(fold, b, s, t2)
      ensures ListingOf(fold, lower, b, s, t1) == ListingOf(fold, lower, b, s, t2)
    {
      SameDetails(fold, b, b, s, t, t1);
      SameDetails(fold, b, b, s, t, t2);
      SameSorted(lower, Merged(fold, b, s, t).details, t1.groups, t2.groups);
    }
  }

  lemma TiesUndetermined(fold: char -> char, lower: string -> string, b: Board, s: Surroundings, t: Trace)
    requires WellFormed(b) && MergeTrace(fold, s, t)
    requires AllFit(lower, Merged(fold, b, s, t).details) && !NoTies(lower, Merged(fold, b, s, t).details)
    ensures !ListingDetermined(fold, lower, b, s)
  {
    MergedWellFormed(fold, b, s, t);
    var d := Merged(fold, b, s, t).details;
    hide AllFit, NoTies, SortedGroups, Merged, MergeTrace, Enumerates;
    DeterministicIffNoTies(lower, d);
    var g1, g2 :| Enumerates(g1, d.Keys) && Enumerates(g2, d.Keys) && SortedGroups(lower, d, g1) != SortedGroups(lower, d, g2);
    OrdersDiffer(fold, lower, b, s, t, g1, g2);
  }

  lemma OrdersDiffer(fold: char -> char, lower: string -> string, b: Board, s: Surroundings, t: Trace, g1: seq<string>, g2: seq<string>)
    requires MergeTrace(fold, s, t)
    requires Enumerates(g1, Merged(fold, b, s, t).details.Keys) && Enumerates(g2, Merged(fold, b, s, t).details.Keys)
    requires SortedGroups(lower, Merged(fold, b, s, t).details, g1) != SortedGroups(lower, Merged(fold, b, s, t).details, g2)
    ensures !ListingDetermined(fold, lower, b, s)
  {
    GroupsMatterNot(fold, b, s, t, g1);
    GroupsMatterNot(fold, b, s, t, g2);
    hide SortedGroups, Merged, MergeTrace;
    assert ListingOf(fold, lower, b, s, t.(groups := g1)) != ListingOf(fold, lower, b, s, t.(groups := g2));
  }

  lemma GroupsMatterNot(fold: char -> char, b: Board, s: Surroundings, t: Trace, groups: seq<string>)
    requires MergeTrace(fold, s, t)
    ensures MergeTrace(fold, s, t.(groups := groups)) && Merged(fold, b, s, t.(groups := groups)) == Merged(fold, b, s, t)
  {
    PreparedIgnoresGroups(fold, b, s, false, t, groups);
  }

  // ------------------------------------------------------------------ responses

  /** All responses to one user over one local collection list the groups alike. */
  ghost predicate ResponsesAgree(fold: char -> char, lower: string -> string, b: Board, s: Surroundings, userGroups: seq<string>) {
    forall t1, t2, r1, r2 ::
      Responds(fold, lower, b, s, userGroups, false, t1, r1) && Responds(fold, lower, b, s, userGroups, false, t2, r2)
      ==> r1.linkGroups == r2.linkGroups
  }

  lemma RespondsLists(fold: char -> char, lower: string -> string, b: Board, s: Surroundings, userGroups: seq<string>, t: Trace, r: Response)
    requires Responds(fold, lower, b, s, userGroups, false, t, r)
    ensures Lists(fold, b, s, t) && r.linkGroups == ListingOf(fold, lower, b, s, t)
  {
  }

  lemma ListsResponds(fold: char -> char, lower: string -> string, b: Board, s: Surroundings, userGroups: seq<string>, t: Trace)
    requires Lists(fold, b, s, t)
    ensures exists r :: Responds(fold, lower, b, s, userGroups, false, t, r)
  {
    assert Responds(fold, lower, b, s, userGroups, false, t, Render(lower, Merged(fold, b, s, t), t.groups, userGroups, false));
  }

  lemma DeterminedAgree(fold: char -> char, lower: string -> string, b: Board, s: Surroundings, userGroups: seq<string>)
    requires ListingDetermined(fold, lower, b, s)
    ensures ResponsesAgree(fold, lower, b, s, userGroups)
  {
    hide Responds, Lists, ListingOf;
    forall t1, t2, r1, r2 | Responds(fold, lower, b, s, userGroups, false, t1, r1) && Responds(fold, lower, b, s, userGroups, false, t2, r2)
      ensures r1.linkGroups == r2.linkGroups
    {
      RespondsLists(fold, lower, b, s, userGroups, t1, r1);
      RespondsLists(fold, lower, b, s, userGroups, t2, r2);
    }
  }

  lemma AgreeDetermined(fold: char -> char, lower: string -> string, b: Board, s: Surroundings, userGroups: seq<string>)
    requires ResponsesAgree(fold, lower, b, s, userGroups)
    ensures ListingDetermined(fold, lower, b, s)
  {
    hide Responds, Lists, ListingOf;
    forall t1, t2 | Lists(fold, b, s, t1) && Lists(fold, b, s, t2)
      ensures ListingOf(fold, lower, b, s, t1) == ListingOf(fold, lower, b, s, t2)
    {
      ListsResponds(fold, lower, b, s, userGroups, t1);
      ListsResponds(fold, lower, b, s, userGroups, t2);
      var r1 :| Responds(fold, lower, b, s, userGroups, false, t1, r1);
      var r2 :| Responds(fold, lower, b, s, userGroups, false, t2, r2);
      RespondsLists(fold, lower, b, s, userGroups, t1, r1);
      RespondsLists(fold, lower, b, s, userGroups, t2, r2);
    }
  }

  /** The same rule for what is answered over one local collection. */
  lemma ResponsesAgreeIff(fold: char -> char, lower: string -> string, b: Board, s: Surroundings, userGroups: seq<string>, t: Trace)
    requires WellFormed(b) && MergeTrace(fold, s, t) && AllFit(lower, Merged(fold, b, s, t).details)
    ensures ResponsesAgree(fold, lower, b, s, userGroups)
       <==> NoContest(b, s) && FleetSettled(fold, b, s) && NoTies(lower, Merged(fold, b, s, t).details)
  {
    hide Merged, MergeTrace, AllFit, NoTies, NoContest, FleetSettled, WellFormed, ResponsesAgree, ListingDetermined;
    ListingDeterminedIff(fold, lower, b, s, t);
    if ListingDetermined(fold, lower, b, s) {
      DeterminedAgree(fold, lower, b, s, userGroups);
    }
    if ResponsesAgree(fold, lower, b, s, userGroups) {
      AgreeDetermined(fold, lower, b, s, userGroups);
    }
  }

  // ------------------------------------------------------------- whole requests

  /** All answers to a user, from the same lists, peers and clusters, list the groups
      alike. Each request collects anew, and looks labels up anew. */
  ghost predicate RequestsAgree(st: Settings, c: Cluster, s: Surroundings, userGroups: seq<string>) {
    forall t1, t2, r1, r2 ::
      Collects(st, c, s, userGroups, false, t1, Ok(r1)) && Collects(st, c, s, userGroups, false, t2, Ok(r2))
      ==> r1.linkGroups == r2.linkGroups
  }

  /** A request's own collection, and its listing in terms of another's records. */
  lemma RequestLists(st: Settings, c: Cluster, s: Surroundings, userGroups: seq<string>, local: Choices, b: Board, t: Trace, r: Response)
    requires !LocalFails(c) && CollectsBoard(st, c, local, b) && Collects(st, c, s, userGroups, false, t, Ok(r))
    ensures Lists(st.fold, b, s, t) && r.linkGroups == ListingOf(st.fold, st.lower, b, s, t)
  {
    hide LegalChoices, LocalBoard, LocalFails, Merged, MergeTrace, Responds, SortedGroups, Enumerates;
    LegalLengths(st, c, t.local);
    var own := LocalBoard(st, c, t.local);
    LocalDetailsSame(st, c, local, t.local);
    RespondsLists(st.fold, st.lower, own, s, userGroups, t, r);
    SameDetails(st.fold, own, b, s, t, t);
  }

  lemma ListsRequest(st: Settings, c: Cluster, s: Surroundings, userGroups: seq<string>, local: Choices, b: Board, t: Trace)
    requires !LocalFails(c) && CollectsBoard(st, c, local, b) && Lists(st.fold, b, s, t)
    ensures exists r :: Collects(st, c, s, userGroups, false, t.(local := local), Ok(r)) && r.linkGroups == ListingOf(st.fold, st.lower, b, s, t)
  {
    hide LegalChoices, LocalBoard, LocalFails, Responds, SortedGroups, Enumerates, MergeRemote, MergeFleet, FleetKeys, FleetBoards;
    var t' := t.(local := local);
    assert Lists(st.fold, b, s, t') && ListingOf(st.fold, st.lower, b, s, t') == ListingOf(st.fold, st.lower, b, s, t);
    ListsResponds(st.fold, st.lower, b, s, userGroups, t');
    var r :| Responds(st.fold, st.lower, b, s, userGroups, false, t', r);
    RespondsLists(st.fold, st.lower, b, s, userGroups, t', r);
    assert Collects(st, c, s, userGroups, false, t', Ok(r));
  }

  lemma RequestsFromListing(st: Settings, c: Cluster, s: Surroundings, userGroups: seq<string>, local: Choices, b: Board)
    requires !LocalFails(c) && CollectsBoard(st, c, local, b) && ListingDetermined(st.fold, st.lower, b, s)
    ensures RequestsAgree(st, c, s, userGroups)
  {
    hide CollectsBoard, LocalFails, Collects, Lists, ListingOf;
    forall t1, t2, r1, r2 | Collects(st, c, s, userGroups, false, t1, Ok(r1)) && Collects(st, c, s, userGroups, false, t2, Ok(r2))
      ensures r1.linkGroups == r2.linkGroups
    {
      RequestLists(st, c, s, userGroups, local, b, t1, r1);
      RequestLists(st, c, s, userGroups, local, b, t2, r2);
    }
  }

  lemma ListingFromRequests(st: Settings, c: Cluster, s: Surroundings, userGroups: seq<string>, local: Choices, b: Board)
    requires !LocalFails(c) && CollectsBoard(st, c, local, b) && RequestsAgree(st, c, s, userGroups)
    ensures ListingDetermined(st.fold, st.lower, b, s)
  {
    hide CollectsBoard, LocalFails, Collects, Lists, ListingOf;
    forall t1, t2 | Lists(st.fold, b, s, t1) && Lists(st.fold, b, s, t2)
      ensures ListingOf(st.fold, st.lower, b, s, t1) == ListingOf(st.fold, st.lower, b, s, t2)
    {
      ListsRequest(st, c, s, userGroups, local, b, t1);
      ListsRequest(st, c, s, userGroups, local, b, t2);
      var r1 :| Collects(st, c, s, userGroups, false, t1.(local := local), Ok(r1)) && r1.linkGroups == ListingOf(st.fold, st.lower, b, s, t1);
      var r2 :| Collects(st, c, s, userGroups, false, t2.(local := local), Ok(r2)) && r2.linkGroups == ListingOf(st.fold, st.lower, b, s, t2);
    }
  }

  /** The same rule for whole requests, whatever the node's own labels resolve to: b is what
      one of its collections gives, and t any outcome of merging. */
  lemma RequestsAgreeIff(st: Settings, c: Cluster, s: Surroundings, userGroups: seq<string>, local: Choices, b: Board, t: Trace)
    requires !LocalFails(c) && CollectsBoard(st, c, local, b)
    requires MergeTrace(st.fold, s, t) && AllFit(st.lower, Merged(st.fold, b, s, t).details)
    ensures RequestsAgree(st, c, s, userGroups)
       <==> NoContest(b, s) && FleetSettled(st.fold, b, s) && NoTies(st.lower, Merged(st.fold, b, s, t).details)
  {
    hide LegalChoices, LocalBoard, LocalFails, Merged, MergeTrace, AllFit, NoTies, NoContest, FleetSettled, WellFormed, RequestsAgree;
    hide ListingDetermined, OwnSources;
    LocalBoardWellFormed(st, c, local);
    ListingDeterminedIff(st.fold, st.lower, b, s, t);
    if ListingDetermined(st.fold, st.lower, b, s) {
      RequestsFromListing(st, c, s, userGroups, local, b);
    }
    if RequestsAgree(st, c, s, userGroups) {
      ListingFromRequests(st, c, s, userGroups, local, b);
    }
  }

  // ----------------------------------------------- the groups follow the listing

  lemma SameDropped(p: Board, q: Board, lg: LinkGroup, userGroups: seq<string>)
    requires multiset(LinksAt(p, lg.name)) == multiset(LinksAt(q, lg.name)) && p.tiles == q.tiles
    ensures Dropped(p, lg, userGroups, false) == Dropped(q, lg, userGroups, false)
  {
    hide LinksAt;
    var users := VisibleTo(UserSet(userGroups));
    FilterPermutes(users, LinksAt(p, lg.name), LinksAt(q, lg.name));
    SameEmptiness(Filter(users, LinksAt(p, lg.name)), Filter(users, LinksAt(q, lg.name)));
  }

  lemma SameEmptiness<T>(xs: seq<T>, ys: seq<T>)
    requires multiset(xs) == multiset(ys)
    ensures xs == [] <==> ys == []
  {
    assert |multiset(xs)| == |xs| && |multiset(ys)| == |ys|;
  }

  lemma {:induction false} SameKeysShown(lower: string -> string, p: Board, q: Board, lgs: seq<LinkGroup>, userGroups: seq<string>)
    requires forall i :: 0 <= i < |lgs| ==> Dropped(p, lgs[i], userGroups, false) == Dropped(q, lgs[i], userGroups, false)
    ensures Map(KeyAt(), ShownGroups(lower, p, lgs, userGroups, false)) == Map(KeyAt(), ShownGroups(lower, q, lgs, userGroups, false))
  {
    if lgs != [] {
      hide Dropped, Sort, Visible;
      var n := |lgs| - 1;
      SameKeysShown(lower, p, q, lgs[..n], userGroups);
      var shown1 := if Dropped(p, lgs[n], userGroups, false) then [] else [ShownGroup(lower, p, lgs[n], userGroups)];
      var shown2 := if Dropped(q, lgs[n], userGroups, false) then [] else [ShownGroup(lower, q, lgs[n], userGroups)];
      MapConcat(KeyAt(), ShownGroups(lower, p, lgs[..n], userGroups, false), shown1);
      MapConcat(KeyAt(), ShownGroups(lower, q, lgs[..n], userGroups, false), shown2);
      assert Map(KeyAt(), shown1) == Map(KeyAt(), shown2);
    }
  }

  /** The clusters' collections come out alike in both runs. */
  ghost predicate SameFleet(fold: char -> char, s: Surroundings, t1: Trace, t2: Trace)
    requires MergeTrace(fold, s, t1) && MergeTrace(fold, s, t2)
  {
    s.actives.Some? ==> FleetBoards(fold, s.actives.value, t1.fleet) == FleetBoards(fold, s.actives.value, t2.fleet)
  }

  lemma SameShares(fold: char -> char, b: Board, s: Surroundings, t1: Trace, t2: Trace, key: string)
    requires MergeTrace(fold, s, t1) && MergeTrace(fold, s, t2) && SameFleet(fold, s, t1, t2)
    ensures multiset(LinksAt(Merged(fold, b, s, t1), key)) == multiset(LinksAt(Merged(fold, b, s, t2), key))
    ensures Merged(fold, b, s, t1).tiles == Merged(fold, b, s, t2).tiles
  {
    hide Merged, RemoteLinks, FleetLinks, FleetBoards, FleetKeys, LinksAt;
    MergedLinks(fold, b, s, t1, key);
    MergedLinks(fold, b, s, t2, key);
    if s.remote.Some? {
      RemoteLinksPermute(s.remote.value, t1.peers, t2.peers, s.remote.value.Keys, key);
    }
  }

  /** Responses that list the group records alike show the same groups, in the same order. */
  lemma GroupsFollowListing(fold: char -> char, lower: string -> string, b: Board, s: Surroundings, userGroups: seq<string>,
                            t1: Trace, r1: Response, t2: Trace, r2: Response)
    requires Responds(fold, lower, b, s, userGroups, false, t1, r1) && Responds(fold, lower, b, s, userGroups, false, t2, r2)
    requires SameFleet(fold, s, t1, t2) && r1.linkGroups == r2.linkGroups
    ensures Map(KeyAt(), r1.groups) == Map(KeyAt(), r2.groups)
  {
    hide Merged, MergeTrace, LinksAt, Dropped, ShownGroups, SortedGroups, Map;
    var p, q := Merged(fold, b, s, t1), Merged(fold, b, s, t2);
    forall i | 0 <= i < |r1.linkGroups|
      ensures Dropped(p, r1.linkGroups[i], userGroups, false) == Dropped(q, r1.linkGroups[i], userGroups, false)
    {
      SameShares(fold, b, s, t1, t2, r1.linkGroups[i].name);
      SameDropped(p, q, r1.linkGroups[i], userGroups);
    }
    SameKeysShown(lower, p, q, r1.linkGroups, userGroups);
  }

  /** At every cluster, the groups before the apps leave every label one place to land in. */
  ghost predicate FleetDecided(fold: char -> char, s: Surroundings) {
    s.actives.Some? ==> forall i :: 0 <= i < |s.actives.value| ==> Decided(fold, BoardBeforeApps(s.actives.value[i].cluster).details)
  }

  lemma DecidedFleet(fold: char -> char, s: Surroundings, t1: Trace, t2: Trace)
    requires FleetDecided(fold, s) && MergeTrace(fold, s, t1) && MergeTrace(fold, s, t2)
    ensures SameFleet(fold, s, t1, t2)
  {
    hide FleetKeys, FleetBoards, Decided, BoardBeforeApps;
    if s.actives.Some? {
      FleetBoardsUnique(fold, s.actives.value, t1.fleet, t2.fleet);
    }
  }

  /** Decided clusters are settled. */
  lemma DecidedSettled(fold: char -> char, b: Board, s: Surroundings)
    requires FleetDecided(fold, s)
    ensures FleetSettled(fold, b, s)
  {
    hide Decided, BoardBeforeApps, FleetKeys, FleetBoards, Settled, SupplierEndpoint, Brings;
    forall key | OnlyFleet(b, s, key) ensures Settled(fold, s.actives.value, key) {
      forall f, g | FleetKeys(fold, s.actives.value, f) && FleetKeys(fold, s.actives.value, g)
        ensures SupplierEndpoint(s.actives.value, FleetBoards(fold, s.actives.value, f), key)
             == SupplierEndpoint(s.actives.value, FleetBoards(fold, s.actives.value, g), key)
      {
        FleetBoardsUnique(fold, s.actives.value, f, g);
      }
      SettledIff(fold, s.actives.value, key);
    }
  }

  /** Where labels are decided at the node and at every cluster, lookups have no influence
      on the dashboard: runs that visit the peers in one order merge the same maps. */
  lemma LookupsMatterNot(st: Settings, c: Cluster, s: Surroundings, b1: Board, t1: Trace, b2: Board, t2: Trace)
    requires !LocalFails(c) && LabelsDecided(st, c) && FleetDecided(st.fold, s)
    requires CollectsBoard(st, c, t1.local, b1) && CollectsBoard(st, c, t2.local, b2)
    requires MergeTrace(st.fold, s, t1) && MergeTrace(st.fold, s, t2) && t1.peers == t2.peers
    ensures Merged(st.fold, b1, s, t1) == Merged(st.fold, b2, s, t2)
  {
    hide LegalChoices, LocalBoard, LocalFails, LabelsDecided, FleetDecided, FleetKeys, FleetBoards, MergeRemote, MergeFleet, Enumerates;
    LocalBoardUnique(st, c, t1.local, t2.local);
    DecidedFleet(st.fold, s, t1, t2);
  }

  /** Then requests that list the group records alike also show the same groups, in the
      same order. */
  lemma RequestsShowAlike(st: Settings, c: Cluster, s: Surroundings, userGroups: seq<string>, t1: Trace, r1: Response, t2: Trace, r2: Response)
    requires !LocalFails(c) && LabelsDecided(st, c) && FleetDecided(st.fold, s)
    requires Collects(st, c, s, userGroups, false, t1, Ok(r1)) && Collects(st, c, s, userGroups, false, t2, Ok(r2))
    requires r1.linkGroups == r2.linkGroups
    ensures Map(KeyAt(), r1.groups) == Map(KeyAt(), r2.groups)
  {
    hide LegalChoices, LocalBoard, LocalFails, LabelsDecided, Responds, MergeTrace, FleetDecided, SameFleet, Map, Lists, ListingOf;
    LegalLengths(st, c, t1.local);
    LegalLengths(st, c, t2.local);
    LocalBoardUnique(st, c, t1.local, t2.local);
    var b := LocalBoard(st, c, t1.local);
    RespondsTrace(st.fold, st.lower, b, s, userGroups, t1, r1);
    RespondsTrace(st.fold, st.lower, b, s, userGroups, t2, r2);
    DecidedFleet(st.fold, s, t1, t2);
    GroupsFollowListing(st.fold, st.lower, b, s, userGroups, t1, r1, t2, r2);
  }

  lemma RespondsTrace(fold: char -> char, lower: string -> string, b: Board, s: Surroundings, userGroups: seq<string>, t: Trace, r: Response)
    requires Responds(fold, lower, b, s, userGroups, false, t, r)
    ensures MergeTrace(fold, s, t)
  {
  }

  // ------------------------------------------------------------ failing inputs

  function PlainGroup(name: string, priority: Int64): LinkGroup {
    LinkGroup(name, priority, "", name, "local", map[], false)
  }

  function PlainExport(priority: Int64): Response {
    Response([PlainGroup("s", priority)], [Group("s", "s", [], [], "local")])
  }

  lemma PlainExportMerges(b: Board, url: string, priority: Int64)
    ensures var d := MergePeer(b, url, PlainExport(priority)).details;
      d == if "s" in b.details then b.details
           else b.details["s" := LinkGroup("s", priority, "", "s", SyncSource(url), map[], false)]
  {
    var r := PlainExport(priority);
    assert r.groups[..0] == [] && r.linkGroups[..0] == [];
    assert MergeGroups(b, SyncSource(url), r.linkGroups, []) == b;
    assert Index([]) == map[] && "s" in Index(r.linkGroups) && Index(r.linkGroups)["s"] == PlainGroup("s", priority);
  }

  /** A node with a group x, and two peers that both carry the group "s", with priorities
      below and above that of x: no ties and no wrap-around in either order, yet "s"
      comes before x in the one and after it in the other. */
  lemma PeersDecideOrder(lower: string -> string, x: LinkGroup, u: string, v: string, p: Int64, q: Int64)
    requires x.name != "s" && x.priorityClass == "" && u != v && 0 <= p < x.priority < q < 100
    ensures var b, remote := EMPTY_BOARD.(details := map[x.name := x]), map[u := PlainExport(p), v := PlainExport(q)];
      && Enumerates([u, v], remote.Keys) && Enumerates([v, u], remote.Keys)
      && var d1, d2 := MergeRemote(b, remote, [u, v]).details, MergeRemote(b, remote, [v, u]).details;
         && d1.Keys == d2.Keys == {x.name, "s"}
         && AllFit(lower, d1) && NoTies(lower, d1) && AllFit(lower, d2) && NoTies(lower, d2)
         && Before(lower, d1["s"], x) && Before(lower, x, d2["s"])
  {
    hide MergeRemote, PlainExport, AllFit, NoTies, Before, Enumerates, SyncSource;
    var b, remote := EMPTY_BOARD.(details := map[x.name := x]), map[u := PlainExport(p), v := PlainExport(q)];
    PairEnumerated(u, v);
    PairEnumerated(v, u);
    assert remote.Keys == {u, v} == {v, u};
    MergedInOrder(b, remote, u, v, p, q);
    MergedInOrder(b, remote, v, u, q, p);
    TwoGroups(lower, x, LinkGroup("s", p, "", "s", SyncSource(u), map[], false));
    TwoGroups(lower, x, LinkGroup("s", q, "", "s", SyncSource(v), map[], false));
  }

  lemma PairEnumerated(a: string, b: string)
    requires a != b
    ensures Enumerates([a, b], {a, b})
  {
  }

  lemma TwoGroups(lower: string -> string, x: LinkGroup, y: LinkGroup)
    requires x.name != y.name && x.priorityClass == y.priorityClass && x.priority != y.priority
    requires 0 <= x.priority < 100 && 0 <= y.priority < 100
    ensures var d := map[x.name := x, y.name := y];
      && AllFit(lower, d) && NoTies(lower, d)
      && (if x.priority < y.priority then Before(lower, x, y) else Before(lower, y, x))
  {
    hide Text.LexLess, PriorityClassRank;
  }

  lemma MergedInOrder(b: Board, remote: Remote, u: string, v: string, p: Int64, q: Int64)
    requires u in remote && v in remote && remote[u] == PlainExport(p) && remote[v] == PlainExport(q) && "s" !in b.details
    ensures MergeRemote(b, remote, [u, v]).details == b.details["s" := LinkGroup("s", p, "", "s", SyncSource(u), map[], false)]
  {
    hide MergePeer, PlainExport;
    MergeRemoteStart(b, remote);
    MergeRemoteSnoc(b, remote, [], u);
    assert [] + [u] == [u] && [u] + [v] == [u, v];
    MergeRemoteSnoc(b, remote, [u], v);
    PlainExportMerges(b, u, p);
    PlainExportMerges(MergeRemote(b, remote, [u]), v, q);
  }

  /** An ingress annotated with a group, and not for replication. */
  function PlainIngress(group: string): Resource {
    Resource("default", "x", map[ANNOTATION_GROUP := group], "x")
  }

  /** A cluster with two such ingresses, and one app for replication with this label. */
  function TwoGroupCluster(k1: string, k2: string, name: string): Cluster {
    Cluster(Listed([]), Listed([]), Listed([]), Offer(true, Listed([PlainApp("", name)])),
            Offer(true, Listed([PlainIngress(k1), PlainIngress(k2)])), Offer(false, NotFound), Offer(false, NotFound),
            Offer(false, NotFound), Offer(false, NotFound), Offer(false, NotFound), Offer(false, NotFound),
            Listed([]), Listed([]), Offer(false, NotFound))
  }

  lemma PlainIngressPlaced(group: string)
    requires group != ""
    ensures var p := ResourcePlacement("ingress", PlainIngress(group)); p.At? && p.key == group && !p.link.replicate
  {
    assert |ANNOTATION_GROUP| != |ANNOTATION_NAME| && |ANNOTATION_GROUP| != |ANNOTATION_URL|;
    assert |ANNOTATION_GROUP| != |ANNOTATION_REPLICATE|;
    hide Text.TrimSpace;
  }

  lemma {:induction false} EmptyRun(srcs: seq<Source>, keys: seq<seq<string>>)
    requires |keys| == |srcs| && forall i :: 0 <= i < |srcs| ==> SourcePlacements("", srcs[i], keys[i]) == []
    ensures RunPlacements("", srcs, keys) == []
  {
    if srcs != [] {
      EmptyRun(srcs[..|srcs| - 1], keys[..|srcs| - 1]);
    }
  }

  lemma TwoGroupsPlaced(k1: string, k2: string, name: string)
    ensures PlacedBeforeApps(TwoGroupCluster(k1, k2, name))
         == [ResourcePlacement("ingress", PlainIngress(k1)), ResourcePlacement("ingress", PlainIngress(k2))]
  {
    hide ResourcePlacement, RunPlacements, PlainIngress;
    var c := TwoGroupCluster(k1, k2, name);
    var n := |ForeignPlan(c)| - 1;
    var plan, keys: seq<seq<string>> := ForeignPlan(c)[..n], seq(n, i => []);
    HeadTail(keys);
    RunFirst("", plan, [], keys[1..]);
    EmptyRun(plan[1..], keys[1..]);
  }

  /** Two placements in two groups. */
  lemma TwoPlacedDetails(p: Placement, q: Placement)
    requires p.At? && q.At?
    ensures PlaceAll(EMPTY_BOARD, [p, q]).details == map[p.key := NewGroup(p.key, "local"), q.key := NewGroup(q.key, "local")]
  {
    PlaceAllSnoc(EMPTY_BOARD, [], p);
    PlaceAllSnoc(EMPTY_BOARD, [p], q);
    assert [] + [p] == [p] && [p] + [q] == [p, q];
    PlaceDetails(EMPTY_BOARD, p);
    PlaceDetails(PlaceAll(EMPTY_BOARD, [p]), q);
    hide Place;
  }

  /** The label folds to both groups and is neither. */
  predicate Between(fold: char -> char, k1: string, k2: string, name: string) {
    && k1 != k2 && k1 != name && k2 != name && Text.Trimmed(name) && name != "" && Text.Trimmed(k1) && Text.Trimmed(k2)
    && Text.EqualFold(fold, k1, name) && Text.EqualFold(fold, k2, name)
  }

  lemma TwoGroupDetails(k1: string, k2: string, name: string)
    requires k1 != "" && k2 != ""
    ensures BoardBeforeApps(TwoGroupCluster(k1, k2, name)).details == map[k1 := NewGroup(k1, "local"), k2 := NewGroup(k2, "local")]
  {
    TwoGroupsPlaced(k1, k2, name);
    PlainIngressPlaced(k1);
    PlainIngressPlaced(k2);
    hide PlacedBeforeApps, ResourcePlacement, PlainIngress, PlaceAll;
    TwoPlacedDetails(ResourcePlacement("ingress", PlainIngress(k1)), ResourcePlacement("ingress", PlainIngress(k2)));
  }

  lemma TwoGroupsNotFixed(k1: string, k2: string, name: string, key: string)
    requires k1 != "" && k2 != ""
    ensures !SuppliesFixed(TwoGroupCluster(k1, k2, name), key)
  {
    TwoGroupsPlaced(k1, k2, name);
    PlainIngressPlaced(k1);
    PlainIngressPlaced(k2);
    hide PlacedBeforeApps, ResourcePlacement, PlainIngress;
    NotFixed(TwoGroupCluster(k1, k2, name), ResourcePlacement("ingress", PlainIngress(k1)), ResourcePlacement("ingress", PlainIngress(k2)), key);
  }

  /** The app may land under either group. */
  lemma EitherLegal(fold: char -> char, k1: string, k2: string, name: string, k: string)
    requires Between(fold, k1, k2, name) && (k == k1 || k == k2)
    ensures ForeignKeys(fold, TwoGroupCluster(k1, k2, name), LastChoice(TwoGroupCluster(k1, k2, name), [k]))
  {
    TwoGroupDetails(k1, k2, name);
    TwoGroupApps(k1, k2, name);
    hide BoardBeforeApps, ForeignKeys, ForeignPlan, TwoGroupCluster, LastChoice;
    ContestedClusterKeys(fold, TwoGroupCluster(k1, k2, name), name, k);
  }

  /** It supplies that one alone. */
  lemma LandsEither(fold: char -> char, k1: string, k2: string, name: string, k: string, key: string)
    requires Between(fold, k1, k2, name) && (k == k1 || k == k2)
    ensures var c := TwoGroupCluster(k1, k2, name);
      && ForeignKeys(fold, c, LastChoice(c, [k]))
      && (Supplies(ForeignBoard(c, LastChoice(c, [k])), key) <==> key == k)
  {
    var c := TwoGroupCluster(k1, k2, name);
    TwoGroupApps(k1, k2, name);
    EitherLegal(fold, k1, k2, name, k);
    TwoGroupsNotFixed(k1, k2, name, key);
    OneApp(c, name, k);
    AppLands(name, k, key);
    hide SuppliesFixed, ForecastlePlacement, Replicable, ForeignKeys, ForeignPlan, ForeignBoard, Supplies, TwoGroupCluster, LastChoice, AppsOf, AppKeys;
    OneAppSupplies(fold, c, LastChoice(c, [k]), PlainApp("", name), k, key);
  }

  lemma OneAppSupplies(fold: char -> char, c: Cluster, keys: seq<seq<string>>, app: ForecastleApp, k: string, key: string)
    requires ForeignKeys(fold, c, keys) && |keys| == |ForeignPlan(c)|
    requires AppsOf(c) == [app] && AppKeys(c, keys) == [k] && !SuppliesFixed(c, key)
    ensures Supplies(ForeignBoard(c, keys), key) <==> Replicable(ForecastlePlacement("", app, k), key)
  {
    hide SuppliesFixed, ForecastlePlacement, Replicable, ForeignKeys, ForeignPlan, ForeignBoard, Supplies, AppsOf, AppKeys;
    SuppliesIff(fold, c, keys, key);
    assert AppsOf(c)[0] == app && AppKeys(c, keys)[0] == k;
  }

  lemma TwoGroupApps(k1: string, k2: string, name: string)
    ensures TwoGroupCluster(k1, k2, name).forecastle == Offer(true, Listed([PlainApp("", name)]))
  {
  }

  lemma NotFixed(c: Cluster, p: Placement, q: Placement, key: string)
    requires PlacedBeforeApps(c) == [p, q] && p.At? && q.At? && !p.link.replicate && !q.link.replicate
    ensures !SuppliesFixed(c, key)
  {
    hide PlacedBeforeApps;
  }

  lemma OneApp(c: Cluster, name: string, k: string)
    requires c.forecastle == Offer(true, Listed([PlainApp("", name)]))
    ensures AppsOf(c) == [PlainApp("", name)] && AppKeys(c, LastChoice(c, [k])) == [k]
  {
  }

  lemma AppLands(name: string, k: string, key: string)
    requires Text.Trimmed(k) && k != ""
    ensures Replicable(ForecastlePlacement("", PlainApp("", name), k), key) <==> key == k
  {
    LandsUnder("", name, k);
    Text.TrimFixed(k);
    hide ForecastlePlacement;
  }

  /** Some run lists the group k alone, without ties or wrap-around. */
  ghost predicate ListsAlone(fold: char -> char, lower: string -> string, s: Surroundings, t: Trace, record: LinkGroup) {
    && Lists(fold, EMPTY_BOARD, s, t) && ListingOf(fold, lower, EMPTY_BOARD, s, t) == [record]
    && AllFit(lower, Merged(fold, EMPTY_BOARD, s, t).details) && NoTies(lower, Merged(fold, EMPTY_BOARD, s, t).details)
  }

  /** A node without groups and peers, and one cluster: which of its two groups the cluster's
      app lands in decides which group is listed at all, without ties or wrap-around. */
  lemma ClusterDecidesListing(fold: char -> char, lower: string -> string, endpoint: string, k1: string, k2: string, name: string)
    requires Between(fold, k1, k2, name)
    ensures var s := Surroundings(None, Some([Active(endpoint, TwoGroupCluster(k1, k2, name))]));
      && NoContest(EMPTY_BOARD, s)
      && (exists t :: ListsAlone(fold, lower, s, t, NewGroup(k1, ForeignSource(endpoint))))
      && (exists t :: ListsAlone(fold, lower, s, t, NewGroup(k2, ForeignSource(endpoint))))
  {
    var s := Surroundings(None, Some([Active(endpoint, TwoGroupCluster(k1, k2, name))]));
    ClusterLists(fold, lower, endpoint, k1, k2, name, k1);
    ClusterLists(fold, lower, endpoint, k1, k2, name, k2);
  }

  lemma ClusterLists(fold: char -> char, lower: string -> string, endpoint: string, k1: string, k2: string, name: string, k: string)
    requires Between(fold, k1, k2, name) && (k == k1 || k == k2)
    ensures var s := Surroundings(None, Some([Active(endpoint, TwoGroupCluster(k1, k2, name))]));
      exists t :: ListsAlone(fold, lower, s, t, NewGroup(k, ForeignSource(endpoint)))
  {
    var c := TwoGroupCluster(k1, k2, name);
    var keys := LastChoice(c, [k]);
    hide ForeignPlan, TwoGroupCluster, Supplies, ForeignBoard, ForeignKeys, LastChoice, Between, ListsAlone;
    LandsEither(fold, k1, k2, name, k, k);
    forall key ensures Supplies(ForeignBoard(c, keys), key) <==> key == k {
      LandsEither(fold, k1, k2, name, k, key);
    }
    ListsOne(fold, lower, endpoint, c, keys, k);
  }

  lemma ListsOne(fold: char -> char, lower: string -> string, endpoint: string, c: Cluster, keys: seq<seq<string>>, k: string)
    requires ForeignKeys(fold, c, keys) && |keys| == |ForeignPlan(c)|
    requires forall key :: Supplies(ForeignBoard(c, keys), key) <==> key == k
    ensures exists t :: ListsAlone(fold, lower, Surroundings(None, Some([Active(endpoint, c)])), t, NewGroup(k, ForeignSource(endpoint)))
  {
    hide Merged, ForeignPlan, Supplies, ForeignBoard, ForeignKeys, SortedGroups, AllFit, NoTies, Enumerates, OneRecord;
    var s := Surroundings(None, Some([Active(endpoint, c)]));
    var t := Trace(Choices([], []), [], [keys], [k]);
    OneClusterRecord(fold, endpoint, c, keys, k);
    assert MergeTrace(fold, s, t);
    hide FleetKeys, MergeTrace;
    var record := NewGroup(k, ForeignSource(endpoint));
    forall key ensures OneRecord(Merged(fold, EMPTY_BOARD, s, t).details, k, record, key) {
      ClusterRecord(fold, endpoint, c, keys, k, t, key);
    }
    OneRecordMap(Merged(fold, EMPTY_BOARD, s, t).details, k, record);
    OneGroupListed(lower, k, record);
    assert ListsAlone(fold, lower, s, t, record);
  }

  predicate OneRecord(details: Details, k: string, record: LinkGroup, key: string) {
    (key in details <==> key == k) && (key in details ==> details[key] == record)
  }

  lemma OneRecordMap(details: Details, k: string, record: LinkGroup)
    requires forall key :: OneRecord(details, k, record, key)
    ensures details == map[k := record] && details.Keys == {k}
  {
    assert OneRecord(details, k, record, k);
    forall key ensures key in details <==> key == k {
      assert OneRecord(details, k, record, key);
    }
  }

  lemma ClusterRecord(fold: char -> char, endpoint: string, c: Cluster, keys: seq<seq<string>>, k: string, t: Trace, key: string)
    requires ForeignKeys(fold, c, keys) && |keys| == |ForeignPlan(c)| && (Supplies(ForeignBoard(c, keys), key) <==> key == k)
    requires t.fleet == [keys] && MergeTrace(fold, Surroundings(None, Some([Active(endpoint, c)])), t)
    ensures OneRecord(Merged(fold, EMPTY_BOARD, Surroundings(None, Some([Active(endpoint, c)])), t).details, k, NewGroup(k, ForeignSource(endpoint)), key)
  {
    hide Merged, ForeignKeys, ForeignPlan, ForeignBoard, Supplies, FleetKeys, FleetRecord;
    var s := Surroundings(None, Some([Active(endpoint, c)]));
    OneClusterRecord(fold, endpoint, c, keys, key);
    MergedDetails(fold, EMPTY_BOARD, s, t, key);
    SuppliedByFleet(fold, s, t, key);
  }

  lemma OneClusterRecord(fold: char -> char, endpoint: string, c: Cluster, keys: seq<seq<string>>, key: string)
    requires ForeignKeys(fold, c, keys)
    ensures FleetKeys(fold, [Active(endpoint, c)], [keys]) && |keys| == |ForeignPlan(c)|
    ensures FleetRecord(fold, [Active(endpoint, c)], [keys], key)
         == if Supplies(ForeignBoard(c, keys), key) then Some(NewGroup(key, ForeignSource(endpoint))) else None
  {
    assert |keys| == |ForeignPlan(c)|;
    hide ForeignPlan, Supplies, ForeignBoard, RunKeys, ForeignLinks, FirstSupplier;
    var actives, boards := [Active(endpoint, c)], FleetBoards(fold, [Active(endpoint, c)], [keys]);
    SuppliesForeign(endpoint, ForeignBoard(c, keys), key);
    if Supplies(ForeignBoard(c, keys), key) {
      FirstIsSupplier(actives, boards, key, 0);
    }
  }

  lemma OneGroupListed(lower: string -> string, k: string, record: LinkGroup)
    ensures Enumerates([k], {k}) && SortedGroups(lower, map[k := record], [k]) == [record]
    ensures AllFit(lower, map[k := record]) && NoTies(lower, map[k := record])
  {
    assert Entries(map[k := record], [k]) == [record];
    hide Text.LexLess, PriorityClassRank;
  }

  function PlainTwin(name: string): LinkGroup {
    LinkGroup(name, 0, "", name, "local", map[], false)
  }

  lemma ConfiguredTwins(a: string, z: string)
    requires a != "" && z != "" && Text.Trimmed(a) && Text.Trimmed(z)
    ensures InitialDetails([GroupConfig(a, 0, "", ""), GroupConfig(z, 0, "", "")]) == map[a := PlainTwin(a), z := PlainTwin(z)]
  {
    var g, h := GroupConfig(a, 0, "", ""), GroupConfig(z, 0, "", "");
    assert [g, h][..1] == [g] && [g][..0] == [];
    assert InitialDetails([]) == map[];
    Text.TrimFixed(a);
    Text.TrimFixed(z);
    Text.TrimFixed("");
  }

  /** Two configured groups whose names differ in case alone tie, so that any map
      order may decide which comes first: "team" and "Team", say. */
  lemma CaseTwinsTie(lower: string -> string, a: string, z: string)
    requires a != z && lower(a) == lower(z)
    requires a != "" && z != "" && Text.Trimmed(a) && Text.Trimmed(z)
    ensures var d := InitialDetails([GroupConfig(a, 0, "", ""), GroupConfig(z, 0, "", "")]);
      d.Keys == {a, z} && Tied(lower, d[a], d[z]) && AllFit(lower, d) && !OrderIndependent(lower, d)
  {
    ConfiguredTwins(a, z);
    hide InitialDetails, OrderIndependent, PriorityClassRank;
    TwinGroups(lower, PlainTwin(a), PlainTwin(z));
  }

  lemma TwinGroups(lower: string -> string, x: LinkGroup, y: LinkGroup)
    requires x.name != y.name && Tied(lower, x, y) && x.priority == y.priority
    ensures AllFit(lower, map[x.name := x, y.name := y]) && !OrderIndependent(lower, map[x.name := x, y.name := y])
  {
    var d := map[x.name := x, y.name := y];
    assert AllFit(lower, d) by {
      hide Text.LexLess, PriorityClassRank;
    }
    hide AllFit, OrderIndependent, Tied;
    DeterministicIffNoTies(lower, d);
    assert x.name in d && y.name in d && Tied(lower, d[x.name], d[y.name]);
  }
}
