/**
 What a user of one node sees of another node's links.
 */
module Visibility {
  import opened Text
  import opened Sequences
  import opened Boards
  import opened PeerCache
  import opened Merge
  import opened Fleet
  import opened Dashboard
  import opened Aggregator
  import opened Export

  function FromPeer(url: string): Link -> bool {
    (l: Link) => l.source == SyncSource(url)
  }

  function Own(): Link -> bool {
    (l: Link) => ':' !in l.source
  }

  /** A peer's link as it appears after being merged. */
  function Replica(url: string): Link -> Link {
    (l: Link) => l.(replicate := false, source := SyncSource(url))
  }

  // ----------------------------------------------- one peer's share of a key

  lemma ExportKeyed(fold: char -> char, lower: string -> string, a: Board, s: Surroundings, t: Trace, r: Response, i: nat)
    requires WellFormed(a) && EmptyKeyPlain(a) && Exports(fold, lower, a, s, t, r) && i < |r.groups|
    ensures KeyOf(r.groups[i]) == r.groups[i].linkGroup
  {
    hide Exports;
    ExportedFrom(fold, lower, a, s, t, r, i);
  }

  lemma {:induction false} ContributionUnder(source: string, gs: seq<Group>, key: string)
    requires forall i :: 0 <= i < |gs| ==> KeyOf(gs[i]) == gs[i].linkGroup
    ensures Contribution(source, gs, key) == Map(Stamped(source), LinksUnder(gs, key))
  {
    if gs != [] {
      var init, g := gs[..|gs| - 1], gs[|gs| - 1];
      ContributionUnder(source, init, key);
      MapConcat(Stamped(source), LinksUnder(init, key), if g.linkGroup == key then g.links else []);
    }
  }

  /** The links a peer's export adds to a key: its replicable links, each once. */
  lemma PeerShare(fold: char -> char, lower: string -> string, a: Board, s: Surroundings, t: Trace, r: Response, url: string, key: string)
    requires WellFormed(a) && EmptyKeyPlain(a) && Exports(fold, lower, a, s, t, r)
    ensures Contribution(SyncSource(url), r.groups, key)
         == Map(Replica(url), Sort(ByName(lower), Filter(Replicates(), LinksAt(a, key))))
  {
    hide Exports, LinksUnder, Contribution, Sort, Filter, KeyOf;
    forall i | 0 <= i < |r.groups| ensures KeyOf(r.groups[i]) == r.groups[i].linkGroup {
      ExportKeyed(fold, lower, a, s, t, r, i);
    }
    ContributionUnder(SyncSource(url), r.groups, key);
    ExportExact(fold, lower, a, s, t, r, key);
  }

  // --------------------------------------------------- telling sources apart

  lemma {:induction false} ContributionSource(source: string, gs: seq<Group>, key: string)
    ensures forall l :: l in Contribution(source, gs, key) ==> l.source == source
  {
    if gs != [] {
      ContributionSource(source, gs[..|gs| - 1], key);
    }
  }

  lemma {:induction false} RemoteLinksFromPeer(remote: Remote, order: seq<string>, key: string, url: string)
    requires NoDuplicates(order) && forall u :: u in order ==> u in remote
    ensures Filter(FromPeer(url), RemoteLinks(remote, order, key))
         == if url in order then Contribution(SyncSource(url), remote[url].groups, key) else []
    ensures Filter(Own(), RemoteLinks(remote, order, key)) == []
  {
    if order != [] {
      hide Contribution, SyncSource;
      var init, last := order[..|order| - 1], order[|order| - 1];
      assert order == init + [last] && last !in init;
      RemoteLinksFromPeer(remote, init, key, url);
      var share := Contribution(SyncSource(last), remote[last].groups, key);
      FilterConcat(FromPeer(url), RemoteLinks(remote, init, key), share);
      FilterConcat(Own(), RemoteLinks(remote, init, key), share);
      ShareFromPeer(remote[last], last, key, url);
    }
  }

  lemma ShareFromPeer(r: Response, peer: string, key: string, url: string)
    ensures var share := Contribution(SyncSource(peer), r.groups, key);
      && Filter(FromPeer(url), share) == (if peer == url then share else [])
      && Filter(Own(), share) == []
  {
    var share := Contribution(SyncSource(peer), r.groups, key);
    ContributionSource(SyncSource(peer), r.groups, key);
    assert ':' == SyncSource(peer)[4];
    FilterNone(Own(), share);
    if peer == url {
      FilterAll(FromPeer(url), share);
    } else {
      if SyncSource(peer) == SyncSource(url) {
        SyncSourceInjective(peer, url);
      }
      FilterNone(FromPeer(url), share);
    }
  }

  lemma {:induction false} FleetLinksForeign(actives: seq<Active>, boards: seq<Board>, key: string)
    requires |boards| == |actives|
    ensures forall l :: l in FleetLinks(actives, boards, key) ==> |l.source| > 8 && l.source[0] == 'f' && l.source[7] == ':'
  {
    if actives != [] {
      var n := |actives| - 1;
      FleetLinksForeign(actives[..n], boards[..n], key);
    }
  }

  /** Sorting the links of a key by where they come from: the node's own are the
      collected ones, and each peer's are its contribution. */
  lemma AllLinksBySource(fold: char -> char, b: Board, s: Surroundings, t: Trace, key: string, url: string)
    requires OwnSources(b) && MergeTrace(fold, s, t) && s.remote.Some? && url in s.remote.value
    ensures var all := AllLinks(fold, b, s, t, key);
      && Filter(Own(), all) == LinksAt(b, key)
      && Filter(FromPeer(url), all) == Contribution(SyncSource(url), s.remote.value[url].groups, key)
  {
    hide Contribution, RemoteLinks, FleetLinks, FleetKeys;
    var own := LinksAt(b, key);
    var peers := RemoteLinks(s.remote.value, t.peers, key);
    var fleet := if s.actives.Some? then FleetLinks(s.actives.value, FleetBoards(fold, s.actives.value, t.fleet), key) else [];
    assert AllLinks(fold, b, s, t, key) == own + peers + fleet;
    if s.actives.Some? {
      FleetLinksForeign(s.actives.value, FleetBoards(fold, s.actives.value, t.fleet), key);
    }
    RemoteLinksFromPeer(s.remote.value, t.peers, key, url);
    SplitBySource(own, peers, fleet, url);
  }

  lemma SplitBySource(own: seq<Link>, peers: seq<Link>, fleet: seq<Link>, url: string)
    requires forall l :: l in own ==> ':' !in l.source
    requires forall l :: l in fleet ==> |l.source| > 8 && l.source[0] == 'f' && l.source[7] == ':'
    requires Filter(Own(), peers) == []
    ensures Filter(Own(), own + peers + fleet) == own
    ensures Filter(FromPeer(url), own + peers + fleet) == Filter(FromPeer(url), peers)
  {
    assert SyncSource(url)[0] == 's' && SyncSource(url)[4] == ':';
    FilterConcat(Own(), own + peers, fleet);
    FilterConcat(Own(), own, peers);
    FilterAll(Own(), own);
    FilterNone(Own(), fleet);
    FilterConcat(FromPeer(url), own + peers, fleet);
    FilterConcat(FromPeer(url), own, peers);
    FilterNone(FromPeer(url), own);
    FilterNone(FromPeer(url), fleet);
  }

  // ------------------------------------------------------- visibility per user

  lemma FilterReplicas(lower: string -> string, url: string, links: seq<Link>, users: set<string>)
    ensures Filter(VisibleTo(users), Map(Replica(url), Sort(ByName(lower), links)))
         == Map(Replica(url), Sort(ByName(lower), Filter(VisibleTo(users), links)))
  {
    FilterMap(VisibleTo(users), Replica(url), Sort(ByName(lower), links));
    ByNameOrder(lower);
    SortFilter(ByName(lower), VisibleTo(users), links);
  }

  lemma SortReplicas(lower: string -> string, url: string, links: seq<Link>)
    ensures Sort(ByName(lower), Map(Replica(url), Sort(ByName(lower), links))) == Map(Replica(url), Sort(ByName(lower), links))
  {
    ByNameOrder(lower);
    SortSorted(ByName(lower), links);
    SortFixed(ByName(lower), Sort(ByName(lower), links));
    SortMap(ByName(lower), Replica(url), Sort(ByName(lower), links));
  }

  /** Replication preserves per-user visibility, list for list: the links of node
      A (cached under url) that user U sees under a key on node B are A's own
      replicable links filed there, filtered for U and sorted as A would sort
      them, with nothing but the source rewritten. Own links are unaffected. */
  lemma VisibilityPreserved(fold: char -> char, lower: string -> string, a: Board, sa: Surroundings, ta: Trace,
                            b: Board, s: Surroundings, t: Trace, userGroups: seq<string>, resp: Response, url: string, key: string)
    requires WellFormed(a) && EmptyKeyPlain(a)
    requires s.remote.Some? && url in s.remote.value && Exports(fold, lower, a, sa, ta, s.remote.value[url])
    requires WellFormed(b) && OwnSources(b) && Responds(fold, lower, b, s, userGroups, false, t, resp)
    ensures Filter(FromPeer(url), LinksUnder(resp.groups, key))
         == Map(Replica(url), Sort(ByName(lower), Visible(Filter(Replicates(), LinksAt(a, key)), userGroups)))
    ensures Filter(Own(), LinksUnder(resp.groups, key)) == Sort(ByName(lower), Visible(LinksAt(b, key), userGroups))
  {
    var all := AllLinks(fold, b, s, t, key);
    var users := UserSet(userGroups);
    ResponseConserves(fold, lower, b, s, userGroups, t, resp, key);
    AllLinksBySource(fold, b, s, t, key, url);
    PeerShare(fold, lower, a, sa, ta, s.remote.value[url], url, key);
    hide Exports, LinksUnder, AllLinks, Contribution, Replicates, ByName, VisibleTo, UserSet, Filter, Sort, Responds, WellFormed, OwnSources;
    var kept := Filter(Replicates(), LinksAt(a, key));
    ByNameOrder(lower);
    SortFilter(ByName(lower), FromPeer(url), Filter(VisibleTo(users), all));
    FilterSwap(FromPeer(url), VisibleTo(users), all);
    FilterReplicas(lower, url, kept, users);
    SortReplicas(lower, url, Filter(VisibleTo(users), kept));
    SortFilter(ByName(lower), Own(), Filter(VisibleTo(users), all));
    FilterSwap(Own(), VisibleTo(users), all);
  }
}
