/**
 Merging what sync peers exported into the maps of a local collection.
 */
module Merge {
  import opened Wrappers
  import opened Sequences
  import opened Enumeration
  import opened Boards
  import opened PeerCache
  import opened Sync

  // ------------------------------------------------------------- sync peers

  function KeyOf(g: Group): string {
    if g.linkGroup == "" then g.name else g.linkGroup
  }

  function SyncSource(url: string): string {
    "sync:" + url
  }

  lemma SyncSourceInjective(u: string, v: string)
    requires SyncSource(u) == SyncSource(v)
    ensures u == v
  {
    assert SyncSource(u)[5..] == u && SyncSource(v)[5..] == v;
  }

  function Stamped(source: string): Link -> Link {
    (l: Link) => l.(source := source)
  }

  function Index(lgs: seq<LinkGroup>): map<string, LinkGroup> {
    if lgs == [] then map[] else Index(lgs[..|lgs| - 1])[lgs[|lgs| - 1].name := lgs[|lgs| - 1]]
  }

  lemma {:induction false} IndexNamed(lgs: seq<LinkGroup>)
    ensures forall k :: k in Index(lgs) ==> Index(lgs)[k].name == k
  {
    if lgs != [] {
      IndexNamed(lgs[..|lgs| - 1]);
    }
  }

  /** The details a peer's group gets when the key is new. */
  function RemoteEntry(lgs: seq<LinkGroup>, key: string, source: string): LinkGroup {
    var index := Index(lgs);
    if key in index then
      LinkGroup(index[key].name, index[key].priority, index[key].priorityClass, index[key].displayName,
                source, index[key].properties, false)
    else NewGroup(key, source)
  }

  /** The last of a peer's records under a key. */
  predicate LastListed(lgs: seq<LinkGroup>, key: string, i: int) {
    0 <= i < |lgs| && lgs[i].name == key && forall j :: i < j < |lgs| ==> lgs[j].name != key
  }

  lemma {:induction false} IndexExact(lgs: seq<LinkGroup>, key: string)
    ensures forall i :: LastListed(lgs, key, i) ==> key in Index(lgs) && Index(lgs)[key] == lgs[i]
    ensures key in Index(lgs) ==> exists i :: LastListed(lgs, key, i)
  {
    if lgs != [] {
      var n := |lgs| - 1;
      IndexExact(lgs[..n], key);
      if lgs[n].name == key {
        assert LastListed(lgs, key, n);
      } else {
        assert forall i :: i < n ==> (LastListed(lgs[..n], key, i) <==> LastListed(lgs, key, i));
      }
    }
  }

  /** A group that is new to the node has the record that the peer lists for it, but for
      its source and its flag; one that the peer lists no record for has the default one. */
  lemma RemoteEntryExact(lgs: seq<LinkGroup>, key: string, url: string)
    ensures forall i :: LastListed(lgs, key, i) ==>
              RemoteEntry(lgs, key, SyncSource(url)) == lgs[i].(source := "sync:" + url, replicate := false)
    ensures (forall i :: !LastListed(lgs, key, i)) ==>
              RemoteEntry(lgs, key, SyncSource(url)) == LinkGroup(key, 0, "", key, "sync:" + url, map[], false)
  {
    IndexExact(lgs, key);
  }

  function MergeGroup(b: Board, source: string, lgs: seq<LinkGroup>, g: Group): Board {
    var key := KeyOf(g);
    b.(details := if key in b.details then b.details else b.details[key := RemoteEntry(lgs, key, source)],
       links := if g.links == [] then b.links else b.links[key := LinksAt(b, key) + Map(Stamped(source), g.links)])
  }

  function MergeGroups(b: Board, source: string, lgs: seq<LinkGroup>, gs: seq<Group>): Board {
    if gs == [] then b else MergeGroup(MergeGroups(b, source, lgs, gs[..|gs| - 1]), source, lgs, gs[|gs| - 1])
  }

  function MergePeer(b: Board, url: string, r: Response): Board {
    MergeGroups(b, SyncSource(url), r.linkGroups, r.groups)
  }

  predicate Known(remote: Remote, order: seq<string>) {
    forall u :: u in order ==> u in remote
  }

  lemma KnownConcat(remote: Remote, front: seq<string>, back: seq<string>)
    ensures Known(remote, front + back) <==> Known(remote, front) && Known(remote, back)
  {
    assert forall u :: u in front + back <==> u in front || u in back;
  }

  /** mergeRemoteData when the peers are visited in this order. */
  function MergeRemote(b: Board, remote: Remote, order: seq<string>): Board
    requires Known(remote, order)
  {
    if order == [] then b else
      var url := order[|order| - 1];
      MergePeer(MergeRemote(b, remote, order[..|order| - 1]), url, remote[url])
  }

  /** The links a peer's groups hold under a key, as they are merged. */
  function Contribution(source: string, gs: seq<Group>, key: string): seq<Link> {
    if gs == [] then [] else
      var g := gs[|gs| - 1];
      Contribution(source, gs[..|gs| - 1], key) + if KeyOf(g) == key then Map(Stamped(source), g.links) else []
  }

  function RemoteLinks(remote: Remote, order: seq<string>, key: string): seq<Link>
    requires Known(remote, order)
  {
    if order == [] then [] else
      var url := order[|order| - 1];
      RemoteLinks(remote, order[..|order| - 1], key) + Contribution(SyncSource(url), remote[url].groups, key)
  }

  ghost predicate Carries(r: Response, key: string) {
    exists i :: 0 <= i < |r.groups| && KeyOf(r.groups[i]) == key
  }

  lemma CarriesSnoc(lgs: seq<LinkGroup>, gs: seq<Group>, key: string)
    requires gs != []
    ensures Carries(Response(lgs, gs), key)
       <==> Carries(Response(lgs, gs[..|gs| - 1]), key) || KeyOf(gs[|gs| - 1]) == key
  {
    var n := |gs| - 1;
    assert forall i :: 0 <= i < n ==> gs[..n][i] == gs[i];
  }

  lemma MergeGroupsSnoc(b: Board, source: string, lgs: seq<LinkGroup>, gs: seq<Group>)
    requires gs != []
    ensures MergeGroups(b, source, lgs, gs) == MergeGroup(MergeGroups(b, source, lgs, gs[..|gs| - 1]), source, lgs, gs[|gs| - 1])
  {
  }

  lemma ContributionSnoc(source: string, gs: seq<Group>, key: string)
    requires gs != []
    ensures var g := gs[|gs| - 1];
      Contribution(source, gs, key)
        == Contribution(source, gs[..|gs| - 1], key) + if KeyOf(g) == key then Map(Stamped(source), g.links) else []
  {
  }

  lemma MergeGroupLinks(b: Board, source: string, lgs: seq<LinkGroup>, g: Group, key: string)
    ensures var r := MergeGroup(b, source, lgs, g);
      && LinksAt(r, key) == LinksAt(b, key) + (if KeyOf(g) == key then Map(Stamped(source), g.links) else [])
      && r.tiles == b.tiles
  {
    hide RemoteEntry, KeyOf, Stamped;
  }

  /** One peer's links: what each key gains. */
  lemma {:induction false} MergeGroupsLinks(b: Board, source: string, lgs: seq<LinkGroup>, gs: seq<Group>, key: string)
    ensures var r := MergeGroups(b, source, lgs, gs);
      LinksAt(r, key) == LinksAt(b, key) + Contribution(source, gs, key) && r.tiles == b.tiles
  {
    if gs != [] {
      hide MergeGroups, MergeGroup, Contribution, LinksAt, Map, KeyOf;
      var init, g := gs[..|gs| - 1], gs[|gs| - 1];
      MergeGroupsLinks(b, source, lgs, init, key);
      MergeGroupsSnoc(b, source, lgs, gs);
      ContributionSnoc(source, gs, key);
      MergeGroupLinks(MergeGroups(b, source, lgs, init), source, lgs, g, key);
    }
  }

  lemma MergeGroupDetails(b: Board, source: string, lgs: seq<LinkGroup>, g: Group, key: string)
    ensures var r := MergeGroup(b, source, lgs, g);
      && (key in r.details <==> key in b.details || key == KeyOf(g))
      && (key in r.details ==> r.details[key] == if key in b.details then b.details[key] else RemoteEntry(lgs, key, source))
  {
    hide RemoteEntry, KeyOf;
  }

  /** One peer's groups: which keys appear, and with what record. */
  lemma {:induction false} MergeGroupsDetails(b: Board, source: string, lgs: seq<LinkGroup>, gs: seq<Group>, key: string)
    ensures var r := MergeGroups(b, source, lgs, gs);
      && (key in r.details <==> key in b.details || Carries(Response(lgs, gs), key))
      && (key in r.details ==> r.details[key] == if key in b.details then b.details[key] else RemoteEntry(lgs, key, source))
  {
    if gs != [] {
      hide MergeGroups, MergeGroup, RemoteEntry, Carries, KeyOf;
      var init, g := gs[..|gs| - 1], gs[|gs| - 1];
      MergeGroupsDetails(b, source, lgs, init, key);
      MergeGroupsSnoc(b, source, lgs, gs);
      CarriesSnoc(lgs, gs, key);
      MergeGroupDetails(MergeGroups(b, source, lgs, init), source, lgs, g, key);
    }
  }

  lemma MergePeerExact(b: Board, url: string, resp: Response, key: string)
    ensures var r := MergePeer(b, url, resp);
      && LinksAt(r, key) == LinksAt(b, key) + Contribution(SyncSource(url), resp.groups, key)
      && r.tiles == b.tiles
      && (key in r.details <==> key in b.details || Carries(resp, key))
      && (key in r.details ==>
            r.details[key] == if key in b.details then b.details[key] else RemoteEntry(resp.linkGroups, key, SyncSource(url)))
  {
    hide MergeGroups, Contribution, Carries, RemoteEntry, LinksAt;
    MergeGroupsLinks(b, SyncSource(url), resp.linkGroups, resp.groups, key);
    MergeGroupsDetails(b, SyncSource(url), resp.linkGroups, resp.groups, key);
    assert Response(resp.linkGroups, resp.groups) == resp;
  }

  /** The first of these peers that carries a group. */
  ghost function FirstCarrier(remote: Remote, order: seq<string>, key: string): (u: Option<string>)
    requires Known(remote, order)
    ensures u.Some? ==> u.value in order && Carries(remote[u.value], key)
    ensures u.None? ==> forall v :: v in order ==> !Carries(remote[v], key)
  {
    hide Carries;
    if order == [] then None else
      var init, last := order[..|order| - 1], order[|order| - 1];
      assert order == init + [last];
      var first := FirstCarrier(remote, init, key);
      if first.None? && Carries(remote[last], key) then Some(last) else first
  }

  lemma MergeRemoteStart(b: Board, remote: Remote)
    ensures MergeRemote(b, remote, []) == b
  {
  }

  lemma MergeRemoteSnoc(b: Board, remote: Remote, order: seq<string>, url: string)
    requires Known(remote, order) && url in remote
    ensures MergeRemote(b, remote, order + [url]) == MergePeer(MergeRemote(b, remote, order), url, remote[url])
  {
    assert (order + [url])[..|order|] == order;
  }

  lemma RemoteLinksSnoc(remote: Remote, order: seq<string>, url: string, key: string)
    requires Known(remote, order) && url in remote
    ensures RemoteLinks(remote, order + [url], key)
         == RemoteLinks(remote, order, key) + Contribution(SyncSource(url), remote[url].groups, key)
  {
    hide Contribution;
    assert (order + [url])[..|order|] == order;
  }

  lemma FirstCarrierSnoc(remote: Remote, order: seq<string>, url: string, key: string)
    requires Known(remote, order) && url in remote
    ensures var first := FirstCarrier(remote, order, key);
      FirstCarrier(remote, order + [url], key) == if first.None? && Carries(remote[url], key) then Some(url) else first
  {
    hide Carries;
    assert (order + [url])[..|order|] == order;
  }

  lemma RemoteLinksStep(b: Board, before: Board, remote: Remote, order: seq<string>, url: string, key: string)
    requires Known(remote, order) && url in remote && Known(remote, order + [url])
    requires LinksAt(before, key) == LinksAt(b, key) + RemoteLinks(remote, order, key) && before.tiles == b.tiles
    ensures var r := MergePeer(before, url, remote[url]);
      LinksAt(r, key) == LinksAt(b, key) + RemoteLinks(remote, order + [url], key) && r.tiles == b.tiles
  {
    hide MergePeer, RemoteLinks, Contribution, Carries, RemoteEntry, LinksAt, Known;
    RemoteLinksSnoc(remote, order, url, key);
    MergePeerExact(before, url, remote[url], key);
    Assoc(LinksAt(b, key), RemoteLinks(remote, order, key), Contribution(SyncSource(url), remote[url].groups, key));
  }

  /** What a key ends up with: the local links first, then each peer's. */
  lemma {:induction false} MergeRemoteLinks(b: Board, remote: Remote, order: seq<string>, key: string)
    requires Known(remote, order)
    ensures var r := MergeRemote(b, remote, order);
      LinksAt(r, key) == LinksAt(b, key) + RemoteLinks(remote, order, key) && r.tiles == b.tiles
  {
    if order == [] {
      assert RemoteLinks(remote, order, key) == [];
    } else {
      var init, url := order[..|order| - 1], order[|order| - 1];
      Snoc(order);
      KnownConcat(remote, init, [url]);
      assert url in [url];
      hide MergeRemote, MergePeer, RemoteLinks, LinksAt, Known;
      MergeRemoteLinks(b, remote, init, key);
      MergeRemoteSnoc(b, remote, init, url);
      RemoteLinksStep(b, MergeRemote(b, remote, init), remote, init, url, key);
    }
  }

  /** Which keys there are, and whose record they have: local details win, and a
      new entry comes from the first peer that carries the group. */
  lemma {:induction false} MergeRemoteDetails(b: Board, remote: Remote, order: seq<string>, key: string)
    requires Known(remote, order)
    ensures var r, first := MergeRemote(b, remote, order), FirstCarrier(remote, order, key);
      && (key in b.details ==> key in r.details && r.details[key] == b.details[key])
      && (key !in b.details ==> (key in r.details <==> first.Some?))
      && (key !in b.details && first.Some? ==>
            r.details[key] == RemoteEntry(remote[first.value].linkGroups, key, SyncSource(first.value)))
  {
    if order != [] {
      var init, url := order[..|order| - 1], order[|order| - 1];
      assert order == init + [url] && url in order;
      KnownConcat(remote, init, [url]);
      hide MergeRemote, MergePeer, FirstCarrier, Contribution, Carries, RemoteEntry, LinksAt, Known;
      MergeRemoteDetails(b, remote, init, key);
      MergeRemoteSnoc(b, remote, init, url);
      FirstCarrierSnoc(remote, init, url, key);
      MergePeerExact(MergeRemote(b, remote, init), url, remote[url], key);
    }
  }

  lemma {:induction false} MergeGroupsWellFormed(b: Board, source: string, lgs: seq<LinkGroup>, gs: seq<Group>)
    requires WellFormed(b)
    ensures WellFormed(MergeGroups(b, source, lgs, gs))
  {
    if gs != [] {
      IndexNamed(lgs);
      MergeGroupsWellFormed(b, source, lgs, gs[..|gs| - 1]);
    }
  }

  lemma {:induction false} MergeRemoteWellFormed(b: Board, remote: Remote, order: seq<string>)
    requires WellFormed(b) && Known(remote, order)
    ensures WellFormed(MergeRemote(b, remote, order))
  {
    if order != [] {
      var url := order[|order| - 1];
      MergeRemoteWellFormed(b, remote, order[..|order| - 1]);
      MergeGroupsWellFormed(MergeRemote(b, remote, order[..|order| - 1]), SyncSource(url), remote[url].linkGroups, remote[url].groups);
    }
  }

  // -------------------------------------------------------------- confluence

  lemma RemoteLinksConcatStep(remote: Remote, o1: seq<string>, o2: seq<string>, url: string, key: string)
    requires Known(remote, o1) && Known(remote, o2) && Known(remote, o1 + o2) && url in remote
    requires Known(remote, o2 + [url]) && Known(remote, (o1 + o2) + [url])
    requires RemoteLinks(remote, o1 + o2, key) == RemoteLinks(remote, o1, key) + RemoteLinks(remote, o2, key)
    ensures RemoteLinks(remote, (o1 + o2) + [url], key) == RemoteLinks(remote, o1, key) + RemoteLinks(remote, o2 + [url], key)
  {
    hide RemoteLinks, Contribution, Known;
    RemoteLinksSnoc(remote, o1 + o2, url, key);
    RemoteLinksSnoc(remote, o2, url, key);
    Assoc(RemoteLinks(remote, o1, key), RemoteLinks(remote, o2, key), Contribution(SyncSource(url), remote[url].groups, key));
  }

  lemma {:induction false} RemoteLinksConcat(remote: Remote, o1: seq<string>, o2: seq<string>, key: string)
    requires Known(remote, o1) && Known(remote, o2)
    ensures Known(remote, o1 + o2)
    ensures RemoteLinks(remote, o1 + o2, key) == RemoteLinks(remote, o1, key) + RemoteLinks(remote, o2, key)
  {
    KnownConcat(remote, o1, o2);
    if o2 == [] {
      assert o1 + o2 == o1 && RemoteLinks(remote, o2, key) == [];
    } else {
      var init, url := o2[..|o2| - 1], o2[|o2| - 1];
      Snoc(o2);
      Assoc(o1, init, [url]);
      KnownConcat(remote, init, [url]);
      KnownConcat(remote, o1, init);
      assert url in [url];
      hide RemoteLinks, Known;
      RemoteLinksConcat(remote, o1, init, key);
      RemoteLinksConcatStep(remote, o1, init, url, key);
    }
  }

  lemma RemoteLinksWithout(remote: Remote, order: seq<string>, i: nat, key: string)
    requires i < |order| && Known(remote, order)
    requires Known(remote, Without(order, i))
    ensures multiset(RemoteLinks(remote, order, key))
         == multiset(RemoteLinks(remote, Without(order, i), key))
          + multiset(Contribution(SyncSource(order[i]), remote[order[i]].groups, key))
  {
    hide Contribution;
    var front, back := order[..i], order[i + 1..];
    assert order == (front + [order[i]]) + back;
    RemoteLinksConcat(remote, front + [order[i]], back, key);
    RemoteLinksConcat(remote, front, [order[i]], key);
    RemoteLinksConcat(remote, front, back, key);
    assert [order[i]][..0] == [];
  }

  lemma {:induction false} RemoteLinksPermute(remote: Remote, o1: seq<string>, o2: seq<string>, keys: set<string>, key: string)
    requires Enumerates(o1, keys) && Enumerates(o2, keys) && keys <= remote.Keys
    ensures multiset(RemoteLinks(remote, o1, key)) == multiset(RemoteLinks(remote, o2, key))
  {
    if o1 == [] {
      EnumeratedByNothing(keys);
      EnumeratesNothing(o2);
    } else {
      hide RemoteLinks, Contribution;
      assert o1[0] in o1;
      var i := EnumeratesFind(o2, keys, o1[0]);
      EnumeratesWithout(o1, keys, 0);
      EnumeratesWithout(o2, keys, i);
      assert |Without(o1, 0)| < |o1|;
      RemoteLinksPermute(remote, Without(o1, 0), Without(o2, i), keys - {o1[0]}, key);
      RemoteLinksWithout(remote, o1, 0, key);
      RemoteLinksWithout(remote, o2, i, key);
    }
  }

  /** Whatever order the peers come in: the same keys, the same links under each
      key, the same local details. */
  lemma MergeConfluence(b: Board, remote: Remote, o1: seq<string>, o2: seq<string>, key: string)
    requires Enumerates(o1, remote.Keys) && Enumerates(o2, remote.Keys)
    ensures var r1, r2 := MergeRemote(b, remote, o1), MergeRemote(b, remote, o2);
      && multiset(LinksAt(r1, key)) == multiset(LinksAt(r2, key))
      && (key in r1.details <==> key in r2.details)
      && (key in b.details ==> key in r1.details && key in r2.details && r1.details[key] == r2.details[key] == b.details[key])
  {
    hide MergeRemote, RemoteLinks, Carries, FirstCarrier, RemoteEntry, LinksAt;
    MergeRemoteLinks(b, remote, o1, key);
    MergeRemoteLinks(b, remote, o2, key);
    MergeRemoteDetails(b, remote, o1, key);
    MergeRemoteDetails(b, remote, o2, key);
    RemoteLinksPermute(remote, o1, o2, remote.Keys, key);
  }

  // ----------------------------------------------- merging from shared memory

  /** The inner loop: each link is copied, stamped and appended. */
  method MergeLinks(source: string, key: string, links: array<Link>, maps: BoardMaps)
    modifies maps`links
    ensures maps.Value() == old(maps.Value()).(links :=
      if links[..] == [] then old(maps.links)
      else old(maps.links)[key := LinksAt(old(maps.Value()), key) + Map(Stamped(source), links[..])])
  {
    ghost var start := maps.Value();
    ghost var all := links[..];
    assert Map(Stamped(source), []) == [];
    hide Map;
    for j := 0 to links.Length
      invariant links[..] == all
      invariant j == 0 ==> maps.Value() == start
      invariant j > 0 ==> maps.Value() == start.(links := start.links[key := LinksAt(start, key) + Map(Stamped(source), all[..j])])
    {
      assert all[..j + 1] == all[..j] + [all[j]];
      AppendStep(start, maps.Value(), key, all[..j], Stamped(source), all[j]);
      StampLink(source, key, links, j, maps);
    }
    assert all[..links.Length] == all;
  }

  /** The body of the loop. */
  method StampLink(source: string, key: string, links: array<Link>, j: nat, maps: BoardMaps)
    requires j < links.Length
    modifies maps`links
    ensures maps.links == old(maps.links)[key := LinksAt(old(maps.Value()), key) + [Stamped(source)(links[j])]]
  {
    var link := links[j];
    link := link.(source := source);
    maps.AppendLink(key, link);
  }

  method MergeCachedGroups(url: string, r: CachedResponse, maps: BoardMaps)
    modifies maps
    ensures maps.Value() == MergePeer(old(maps.Value()), url, old(SeenResponse(r)))
    ensures SeenResponse(r) == old(SeenResponse(r))
  {
    var source := SyncSource(url);
    var remoteLinkGroups: map<string, LinkGroup> := map[];
    for i := 0 to |r.linkGroups|
      invariant remoteLinkGroups == Index(r.linkGroups[..i])
    {
      assert r.linkGroups[..i + 1][..i] == r.linkGroups[..i];
      remoteLinkGroups := remoteLinkGroups[r.linkGroups[i].name := r.linkGroups[i]];
    }
    assert r.linkGroups[..|r.linkGroups|] == r.linkGroups;
    ghost var start := maps.Value();
    ghost var gs := SeenResponse(r).groups;
    for i := 0 to |r.groups|
      invariant maps.Value() == MergeGroups(start, source, r.linkGroups, gs[..i])
      invariant SeenResponse(r).groups == gs
    {
      assert gs[..i + 1][..i] == gs[..i] && gs[i] == SeenGroup(r.groups[i]);
      var group := r.groups[i];
      var groupName := group.linkGroup;
      if groupName == "" {
        groupName := group.name;
      }
      if groupName !in maps.details {
        if groupName in remoteLinkGroups {
          var lg := remoteLinkGroups[groupName];
          maps.details := maps.details[groupName :=
            LinkGroup(lg.name, lg.priority, lg.priorityClass, lg.displayName, source, lg.properties, false)];
        } else {
          maps.details := maps.details[groupName := LinkGroup(groupName, 0, "", groupName, source, map[], false)];
        }
      }
      MergeLinks(source, groupName, group.links, maps);
    }
    assert gs[..|r.groups|] == gs;
  }

  method MergeCachedPeer(cache: Cache, peerURL: string, maps: BoardMaps)
    requires peerURL in cache
    modifies maps
    ensures maps.Value() == MergePeer(old(maps.Value()), peerURL, old(SeenCache(cache)[peerURL]))
    ensures SeenCache(cache) == old(SeenCache(cache))
  {
    hide MergePeer;
    MergeCachedGroups(peerURL, cache[peerURL], maps);
    SlicesFrame(cache);
  }

  /** mergeRemoteData: only the maps change; the cached slices do not. */
  method MergeRemoteData(syncClient: SyncClient, maps: BoardMaps) returns (ghost order: seq<string>)
    modifies maps
    ensures Enumerates(order, syncClient.cache.Keys)
    ensures forall u :: u in order ==> u in SeenCache(syncClient.cache)
    ensures maps.Value() == MergeRemote(old(maps.Value()), old(SeenCache(syncClient.cache)), order)
    ensures SeenCache(syncClient.cache) == old(SeenCache(syncClient.cache))
  {
    hide Enumerates, MergePeer, SeenCache, MergeRemote;
    ghost var remote := SeenCache(syncClient.cache);
    var remoteData := syncClient.GetRemoteData();
    SlicesFrame(remoteData);
    MergeRemoteStart(maps.Value(), remote);
    ghost var start := maps.Value();
    var unseen := remoteData.Keys;
    ghost var seen: set<string> := {};
    order := [];
    EnumeratesStart<string>();
    while unseen != {}
      invariant seen <= remoteData.Keys && unseen == remoteData.Keys - seen
      invariant Enumerates(order, seen) && forall u :: u in order ==> u in remote
      invariant maps.Value() == MergeRemote(start, remote, order)
      invariant SeenCache(remoteData) == remote && syncClient.cache == remoteData
      decreases unseen
    {
      var peerURL :| peerURL in unseen;
      EnumeratesSnoc(order, seen, peerURL);
      unseen, seen := unseen - {peerURL}, seen + {peerURL};
      MergeCachedPeer(remoteData, peerURL, maps);
      MergeRemoteSnoc(start, remote, order, peerURL);
      order := order + [peerURL];
    }
    assert seen == remoteData.Keys;
  }
}
