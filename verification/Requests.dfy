/**
 Whole requests, told from what they read: when a request fails, which links and tiles
 its answer holds, which groups it shows, and in what order.
 */
module Requests {
  import opened Wrappers
  import opened Sequences
  import opened Enumeration
  import opened Boards
  import opened GroupOrder
  import opened Collect
  import opened Sources
  import opened Collection
  import opened Kinds
  import opened PeerCache
  import opened Merge
  import opened Fleet
  import opened FleetLookups
  import opened Dashboard
  import opened Aggregator

  /** A request fails exactly when a list it cannot do without does. */
  lemma RequestFailsIff(st: Settings, c: Cluster, s: Surroundings, userGroups: seq<string>, localOnly: bool, t: Trace, r: Result<Response>)
    requires Collects(st, c, s, userGroups, localOnly, t, r)
    ensures r.Err? <==> NeededListFails(c)
  {
    hide LocalFails, NeededListFails, LegalChoices, Responds, LocalBoard;
    LocalFailsIff(c);
  }

  // --------------------------------------------------- where a link comes from

  /** m is a link of a peer's group g, filed under the key, and l what it is merged as. */
  predicate Sent(url: string, key: string, g: Group, m: Link, l: Link) {
    m in g.links && key == (if g.linkGroup == "" then g.name else g.linkGroup) && l == m.(source := "sync:" + url)
  }

  ghost predicate PeerSends(groups: seq<Group>, url: string, key: string, l: Link) {
    exists i, m :: 0 <= i < |groups| && Sent(url, key, groups[i], m, l)
  }

  ghost predicate ClusterSends(active: Active, keys: seq<seq<string>>, key: string, l: Link) {
    && |keys| == |ForeignPlan(active.cluster)|
    && exists own :: StemsAbroad(active.cluster, AppKeys(active.cluster, keys), key, own) && own.replicate
                     && l == own.(source := "foreign:" + active.endpoint + ":" + own.source)
  }

  ghost predicate PeersSend(remote: Remote, key: string, l: Link) {
    exists u :: u in remote && PeerSends(remote[u].groups, u, key, l)
  }

  ghost predicate ClustersSend(actives: seq<Active>, keys: seq<seq<seq<string>>>, key: string, l: Link) {
    |keys| == |actives| && exists i :: 0 <= i < |keys| && ClusterSends(actives[i], keys[i], key, l)
  }

  /** The node has the link under the key: collected from its own lists, or sent by a peer,
      or found at a reachable cluster and marked for replication there. */
  ghost predicate Has(st: Settings, c: Cluster, s: Surroundings, t: Trace, key: string, l: Link) {
    || Stems(st, c, t.local, key, l)
    || (s.remote.Some? && PeersSend(s.remote.value, key, l))
    || (s.actives.Some? && ClustersSend(s.actives.value, t.fleet, key, l))
  }

  lemma StampedIff(g: Group, url: string, key: string, l: Link)
    ensures l in (if KeyOf(g) == key then Map(Stamped(SyncSource(url)), g.links) else []) <==> exists m :: Sent(url, key, g, m, l)
  {
    var f := Stamped(SyncSource(url));
    if KeyOf(g) == key {
      if l in Map(f, g.links) {
        var j :| 0 <= j < |g.links| && Map(f, g.links)[j] == l;
        assert Sent(url, key, g, g.links[j], l);
      }
      forall m | Sent(url, key, g, m, l) ensures l in Map(f, g.links) {
        var j :| 0 <= j < |g.links| && g.links[j] == m;
        assert Map(f, g.links)[j] == l;
      }
    }
  }

  lemma {:induction false} ContributionIff(groups: seq<Group>, url: string, key: string, l: Link)
    ensures l in Contribution(SyncSource(url), groups, key) <==> PeerSends(groups, url, key, l)
  {
    if groups != [] {
      var n := |groups| - 1;
      hide Sent, Contribution, SyncSource, KeyOf, Map;
      ContributionIff(groups[..n], url, key, l);
      ContributionSnoc(SyncSource(url), groups, key);
      StampedIff(groups[n], url, key, l);
      assert forall i :: 0 <= i < n ==> groups[..n][i] == groups[i];
    }
  }

  lemma {:induction false} RemoteLinksIff(remote: Remote, order: seq<string>, key: string, l: Link)
    requires Known(remote, order)
    ensures l in RemoteLinks(remote, order, key) <==> exists u :: u in order && PeerSends(remote[u].groups, u, key, l)
  {
    if order != [] {
      var n := |order| - 1;
      hide PeerSends, Contribution;
      Snoc(order);
      RemoteLinksIff(remote, order[..n], key, l);
      ContributionIff(remote[order[n]].groups, order[n], key, l);
      assert forall u :: u in order <==> u in order[..n] || u == order[n];
    }
  }

  lemma {:induction false} FleetLinksIff(actives: seq<Active>, boards: seq<Board>, key: string, l: Link)
    requires |boards| == |actives|
    ensures l in FleetLinks(actives, boards, key) <==> exists i :: InShare(actives, boards, key, l, i)
  {
    if actives != [] {
      var n := |actives| - 1;
      FleetLinksIff(actives[..n], boards[..n], key, l);
      Snoc(actives);
      Snoc(boards);
      FleetLinksSnoc(actives[..n], boards[..n], actives[n], boards[n], key);
      InShareSnoc(actives, boards, key, l);
      hide ForeignLinks, FleetLinks, InShare;
    }
  }

  ghost predicate InShare(actives: seq<Active>, boards: seq<Board>, key: string, l: Link, i: int)
    requires |boards| == |actives|
  {
    0 <= i < |actives| && l in ForeignLinks(actives[i].endpoint, boards[i], key)
  }

  lemma InShareSnoc(actives: seq<Active>, boards: seq<Board>, key: string, l: Link)
    requires |boards| == |actives| && actives != []
    ensures var n := |actives| - 1;
      && (InShare(actives, boards, key, l, n) <==> l in ForeignLinks(actives[n].endpoint, boards[n], key))
      && forall i :: i != n ==> (InShare(actives, boards, key, l, i) <==> InShare(actives[..n], boards[..n], key, l, i))
  {
    hide ForeignLinks;
  }

  lemma FleetHas(fold: char -> char, actives: seq<Active>, keys: seq<seq<seq<string>>>, key: string, l: Link)
    requires FleetKeys(fold, actives, keys)
    ensures l in FleetLinks(actives, FleetBoards(fold, actives, keys), key) <==> ClustersSend(actives, keys, key, l)
  {
    var boards := FleetBoards(fold, actives, keys);
    hide ForeignLinks, ForeignBoard, ForeignPlan, RunKeys, FleetLinks, ClusterSends;
    FleetLinksIff(actives, boards, key, l);
    forall i | 0 <= i < |actives| ensures InShare(actives, boards, key, l, i) <==> ClusterSends(actives[i], keys[i], key, l) {
      OneClusterHas(fold, actives[i], keys[i], key, l);
    }
  }

  lemma OneClusterHas(fold: char -> char, active: Active, keys: seq<seq<string>>, key: string, l: Link)
    requires ForeignKeys(fold, active.cluster, keys)
    ensures |keys| == |ForeignPlan(active.cluster)|
    ensures l in ForeignLinks(active.endpoint, ForeignBoard(active.cluster, keys), key) <==> ClusterSends(active, keys, key, l)
  {
    hide ForeignLinks, ForeignBoard, ForeignPlan, AppKeys, StemsAbroad, ForeignKeys;
    ContributedIff(fold, active.cluster, keys, active.endpoint, key, l);
  }

  lemma RemoteHas(remote: Remote, order: seq<string>, key: string, l: Link)
    requires Enumerates(order, remote.Keys)
    ensures Known(remote, order) && (l in RemoteLinks(remote, order, key) <==> PeersSend(remote, key, l))
  {
    hide PeerSends, RemoteLinks;
    RemoteLinksIff(remote, order, key, l);
  }

  lemma HasIff(st: Settings, c: Cluster, s: Surroundings, t: Trace, key: string, l: Link)
    requires !LocalFails(c) && LegalChoices(st, c, t.local) && MergeTrace(st.fold, s, t)
    ensures |t.local.staticKeys| == |st.staticLinks| && |t.local.sourceKeys| == |LocalPlan(c)|
    ensures l in AllLinks(st.fold, LocalBoard(st, c, t.local), s, t, key) <==> Has(st, c, s, t, key, l)
  {
    CollectedIff(st, c, t.local, key, l);
    hide LocalFails, LegalChoices, LocalBoard, Stems, LinksAt, RemoteLinks, FleetLinks, FleetBoards, FleetKeys, PeersSend, ClustersSend, LocalPlan, Enumerates;
    if s.remote.Some? {
      RemoteHas(s.remote.value, t.peers, key, l);
    }
    if s.actives.Some? {
      FleetHas(st.fold, s.actives.value, t.fleet, key, l);
    }
  }

  // ------------------------------------------------------ what an answer holds

  lemma InSorted(lower: string -> string, links: seq<Link>, l: Link)
    ensures l in Sort(ByName(lower), links) <==> l in links
  {
    SortPermutes(ByName(lower), links);
    SameMembers(Sort(ByName(lower), links), links);
  }

  /** The links of an answer to a user: under each key exactly those that the node has
      there and that the user may see. */
  lemma SeenIff(st: Settings, c: Cluster, s: Surroundings, userGroups: seq<string>, t: Trace, r: Response, key: string, l: Link)
    requires Collects(st, c, s, userGroups, false, t, Ok(r))
    ensures l in LinksUnder(r.groups, key) <==> Has(st, c, s, t, key, l) && MaySee(l, userGroups)
  {
    hide LocalFails, LegalChoices, LocalBoard, Has, MaySee, Responds, AllLinks, MergeTrace, LinksUnder, Visible, Sort;
    LegalLengths(st, c, t.local);
    var b := LocalBoard(st, c, t.local);
    LocalBoardWellFormed(st, c, t.local);
    MergesForUsers(st.fold, st.lower, b, s, userGroups, t, r);
    ResponseConserves(st.fold, st.lower, b, s, userGroups, t, r, key);
    HasIff(st, c, s, t, key, l);
    InSorted(st.lower, Visible(AllLinks(st.fold, b, s, t, key), userGroups), l);
    VisibleIff(AllLinks(st.fold, b, s, t, key), userGroups, l);
  }

  lemma MergesForUsers(fold: char -> char, lower: string -> string, b: Board, s: Surroundings, userGroups: seq<string>, t: Trace, r: Response)
    requires Responds(fold, lower, b, s, userGroups, false, t, r)
    ensures MergeTrace(fold, s, t)
  {
  }

  /** The links of an answer to a peer: exactly the node's own that are marked for
      replication, for whoever may see them. */
  lemma ExportedIff(st: Settings, c: Cluster, s: Surroundings, userGroups: seq<string>, t: Trace, r: Response, key: string, l: Link)
    requires Collects(st, c, s, userGroups, true, t, Ok(r))
    ensures l in LinksUnder(r.groups, key) <==> Stems(st, c, t.local, key, l) && l.replicate && MaySee(l, userGroups)
  {
    hide LocalFails, LegalChoices, LocalBoard, Stems, MaySee, LinksUnder, Visible, Sort, Render;
    LegalLengths(st, c, t.local);
    var b := LocalBoard(st, c, t.local);
    LocalBoardWellFormed(st, c, t.local);
    var p := ReplicatedBoard(b);
    ReplicatedWellFormedToo(b);
    RenderConserves(st.lower, p, t.groups, userGroups, true, key);
    InSorted(st.lower, Visible(LinksAt(p, key), userGroups), l);
    VisibleIff(LinksAt(p, key), userGroups, l);
    FilterMembers(Replicates(), LinksAt(b, key));
    CollectedIff(st, c, t.local, key, l);
  }

  lemma ReplicatedWellFormedToo(b: Board)
    requires WellFormed(b)
    ensures WellFormed(ReplicatedBoard(b)) && ReplicatedBoard(b).details == b.details
    ensures forall key :: LinksAt(ReplicatedBoard(b), key) == Filter(Replicates(), LinksAt(b, key))
    ensures forall key :: TilesAt(ReplicatedBoard(b), key) == Filter(TileReplicates(), TilesAt(b, key))
  {
  }

  /** The board that is rendered, tile by tile. */
  lemma PreparedTiles(st: Settings, c: Cluster, s: Surroundings, localOnly: bool, t: Trace, key: string)
    requires !LocalFails(c) && LegalChoices(st, c, t.local) && (!localOnly ==> MergeTrace(st.fold, s, t))
    ensures |t.local.staticKeys| == |st.staticLinks| && |t.local.sourceKeys| == |LocalPlan(c)|
    ensures var p, tiles := Prepared(st.fold, LocalBoard(st, c, t.local), s, localOnly, t), TilesFiled(c, key);
      WellFormed(p) && TilesAt(p, key) == if localOnly then Filter(TileReplicates(), tiles) else tiles
  {
    LegalLengths(st, c, t.local);
    LocalBoardWellFormed(st, c, t.local);
    LocalBoardExact(st, c, t.local, key);
    var b := LocalBoard(st, c, t.local);
    hide LegalChoices, LocalBoard, Merged, MergeTrace, PickedTiles, Picked, LocalPlan;
    PickedTilesExact(c.infoTiles.items, key);
    if localOnly {
      ReplicatedWellFormedToo(b);
    } else {
      MergedWellFormed(st.fold, b, s, t);
      MergedLinks(st.fold, b, s, t, key);
    }
  }

  /** The tiles of a cluster that are filed under a key. */
  function TilesFiled(c: Cluster, key: string): seq<Tile> {
    Map(TileShown(), Filter(Filed(key), ItemsOf(c.infoTiles)))
  }

  /** Conservation of tiles, for users and for peers: under each key the answer holds the
      tiles filed there, each once, sorted by name; for peers, those marked for replication. */
  lemma TilesConserved(st: Settings, c: Cluster, s: Surroundings, userGroups: seq<string>, localOnly: bool, t: Trace, r: Response, key: string)
    requires Collects(st, c, s, userGroups, localOnly, t, Ok(r))
    ensures var tiles := TilesUnder(r.groups, key);
      && multiset(tiles) == multiset(if localOnly then Filter(TileReplicates(), TilesFiled(c, key)) else TilesFiled(c, key))
      && TilesInOrder(st.lower, tiles)
  {
    hide LocalFails, LegalChoices, LocalBoard, MergeTrace, TilesUnder, TilesFiled, Render, Prepared, TilesInOrder;
    PreparedTiles(st, c, s, localOnly, t, key);
    var p := Prepared(st.fold, LocalBoard(st, c, t.local), s, localOnly, t);
    RenderConservesTiles(st.lower, p, t.groups, userGroups, localOnly, key);
  }

  // ------------------------------------------------------- which groups it shows

  /** The group is in the answer. */
  ghost predicate Appears(r: Response, key: string) {
    exists g :: g in r.groups && g.linkGroup == key
  }

  /** A user is shown a group exactly when the node has a link there that the user may
      see, or a tile. */
  lemma UserShownIff(st: Settings, c: Cluster, s: Surroundings, userGroups: seq<string>, t: Trace, r: Response, key: string)
    requires Collects(st, c, s, userGroups, false, t, Ok(r))
    ensures Appears(r, key) <==> (exists l :: Has(st, c, s, t, key, l) && MaySee(l, userGroups)) || TilesFiled(c, key) != []
  {
    hide LocalFails, LegalChoices, LocalBoard, MergeTrace, TilesFiled, Render, Merged, Presents, MaySee, Has, AllLinks;
    PreparedTiles(st, c, s, false, t, key);
    var b := LocalBoard(st, c, t.local);
    var p := Merged(st.fold, b, s, t);
    RenderShown(st.lower, p, t.groups, userGroups, false, key);
    MergedLinks(st.fold, b, s, t, key);
    forall l ensures l in LinksAt(p, key) <==> Has(st, c, s, t, key, l) {
      HasIff(st, c, s, t, key, l);
    }
    FiledKnown(p, key);
  }

  lemma FiledKnown(b: Board, key: string)
    requires WellFormed(b)
    ensures LinksAt(b, key) != [] || TilesAt(b, key) != [] ==> key in b.details
    ensures key in b.details ==> b.details[key].name == key
  {
  }

  /** A peer is sent a group exactly when the node has a link or a tile of its own there
      that is marked for replication (and that the caller may see), or when the last
      BookmarkGroup of its name is marked for replication itself. */
  lemma PeerShownIff(st: Settings, c: Cluster, s: Surroundings, userGroups: seq<string>, t: Trace, r: Response, key: string)
    requires Collects(st, c, s, userGroups, true, t, Ok(r))
    ensures Appears(r, key)
       <==> || (exists l :: Stems(st, c, t.local, key, l) && l.replicate && MaySee(l, userGroups))
            || Filter(TileReplicates(), TilesFiled(c, key)) != []
            || GroupMarked(c, key)
  {
    hide LocalFails, LegalChoices, LocalBoard, TilesFiled, Render, Presents, MaySee, Stems, GroupMarked;
    PreparedTiles(st, c, s, true, t, key);
    var b := LocalBoard(st, c, t.local);
    var p := ReplicatedBoard(b);
    LocalBoardWellFormed(st, c, t.local);
    ReplicatedWellFormedToo(b);
    RenderShown(st.lower, p, t.groups, userGroups, true, key);
    FilterMembers(Replicates(), LinksAt(b, key));
    forall l ensures l in LinksAt(p, key) <==> Stems(st, c, t.local, key, l) && l.replicate {
      CollectedIff(st, c, t.local, key, l);
    }
    FiledKnown(p, key);
    MarkedIff(st, c, t.local, key);
  }

  predicate GroupMarked(c: Cluster, key: string) {
    var last := Last(ItemsOf(c.bookmarkGroups), key, Any());
    last.Some? && last.value.replicate
  }

  lemma MarkedIff(st: Settings, c: Cluster, ch: Choices, key: string)
    requires !LocalFails(c) && LegalChoices(st, c, ch)
    ensures |ch.staticKeys| == |st.staticLinks| && |ch.sourceKeys| == |LocalPlan(c)|
    ensures var d := LocalBoard(st, c, ch).details; key in d && d[key].replicate <==> GroupMarked(c, key)
  {
    RecordExact(st, c, ch, key);
    InitialDetailsExact(st.linkGroups, key);
    hide LegalChoices, LocalBoard, LinksAt, TilesAt, Last, LocalPlan, InitialDetails;
  }

  /** The records of an answer come in order, each group's links and tiles do, and the
      groups come in the order of their records. */
  lemma AnswerInOrder(st: Settings, c: Cluster, s: Surroundings, userGroups: seq<string>, localOnly: bool, t: Trace, r: Response)
    requires Collects(st, c, s, userGroups, localOnly, t, Ok(r))
    requires |t.local.staticKeys| == |st.staticLinks| && |t.local.sourceKeys| == |LocalPlan(c)|
    requires AllFit(st.lower, Prepared(st.fold, LocalBoard(st, c, t.local), s, localOnly, t).details)
    ensures forall i, j {:trigger r.linkGroups[i], r.linkGroups[j]} :: 0 <= i < j < |r.linkGroups| ==> InOrder(st.lower, r.linkGroups[i], r.linkGroups[j])
    ensures forall g :: g in r.groups ==> LinksInOrder(st.lower, g.links) && TilesInOrder(st.lower, g.tiles)
    ensures var p := Prepared(st.fold, LocalBoard(st, c, t.local), s, localOnly, t);
      Map(KeyAt(), r.groups) == Map(NameAt(), Filter(Showing(p, userGroups, localOnly), r.linkGroups))
  {
    hide LocalFails, LegalChoices, LocalBoard, MergeTrace, Prepared, AllFit, InOrder, LinksInOrder, TilesInOrder, SortedGroups, Shows, LocalPlan, TilesFiled;
    PreparedTiles(st, c, s, localOnly, t, "");
    var p := Prepared(st.fold, LocalBoard(st, c, t.local), s, localOnly, t);
    SortedGroupsCorrect(st.lower, p.details, t.groups);
    ShownInOrder(st.lower, p, r.linkGroups, userGroups, localOnly);
    forall g | g in r.groups ensures LinksInOrder(st.lower, g.links) && TilesInOrder(st.lower, g.tiles) {
      RenderShown(st.lower, p, t.groups, userGroups, localOnly, g.linkGroup);
    }
  }
}
