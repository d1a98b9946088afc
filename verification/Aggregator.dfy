/**
 collectDashboard as a whole, and what its two callers get out of it.
 */
module Aggregator {
  import opened Wrappers
  import opened Sequences
  import opened Enumeration
  import opened Boards
  import opened Collection
  import opened Merge
  import opened PeerCache
  import opened Sync
  import opened Fleet
  import opened Dashboard

  /** What surrounds a local collection: the peer cache, if there is a sync
      client, and the reachable clusters, if there is a fleet manager. */
  datatype Surroundings = Surroundings(remote: Option<Remote>, actives: Option<seq<Active>>)

  /** The arbitrary outcomes of one run: the orders maps were ranged over in. */
  datatype Trace = Trace(local: Choices, peers: seq<string>, fleet: seq<seq<seq<string>>>, groups: seq<string>)

  ghost predicate MergeTrace(fold: char -> char, s: Surroundings, t: Trace) {
    && (s.remote.Some? ==> Enumerates(t.peers, s.remote.value.Keys))
    && (s.actives.Some? ==> FleetKeys(fold, s.actives.value, t.fleet))
  }

  ghost function Merged(fold: char -> char, b: Board, s: Surroundings, t: Trace): Board
    requires MergeTrace(fold, s, t)
  {
    var m := if s.remote.Some? then MergeRemote(b, s.remote.value, t.peers) else b;
    if s.actives.Some? then MergeFleet(m, s.actives.value, FleetBoards(fold, s.actives.value, t.fleet)) else m
  }

  /** The board that is rendered: merged for users, filtered for peers. */
  ghost function Prepared(fold: char -> char, b: Board, s: Surroundings, localOnly: bool, t: Trace): Board
    requires !localOnly ==> MergeTrace(fold, s, t)
  {
    if localOnly then ReplicatedBoard(b) else Merged(fold, b, s, t)
  }

  /** `r` is a possible response over the local board b. */
  ghost predicate Responds(fold: char -> char, lower: string -> string, b: Board, s: Surroundings,
                           userGroups: seq<string>, localOnly: bool, t: Trace, r: Response) {
    && (!localOnly ==> MergeTrace(fold, s, t))
    && var p := Prepared(fold, b, s, localOnly, t);
       && Enumerates(t.groups, p.details.Keys)
       && r == Render(lower, p, t.groups, userGroups, localOnly)
  }

  /** `r` is a possible result of collectDashboard. */
  ghost predicate Collects(st: Settings, c: Cluster, s: Surroundings, userGroups: seq<string>, localOnly: bool, t: Trace, r: Result<Response>) {
    if LocalFails(c) then r.Err? else
    && r.Ok? && LegalChoices(st, c, t.local)
    && Responds(st.fold, st.lower, LocalBoard(st, c, t.local), s, userGroups, localOnly, t, r.value)
  }

  lemma MergedWellFormed(fold: char -> char, b: Board, s: Surroundings, t: Trace)
    requires WellFormed(b) && MergeTrace(fold, s, t)
    ensures WellFormed(Merged(fold, b, s, t))
  {
    hide MergeRemote, MergeFleet, WellFormed, ForeignBoard, RunKeys, ForeignPlan;
    var m := b;
    if s.remote.Some? {
      MergeRemoteWellFormed(b, s.remote.value, t.peers);
      m := MergeRemote(b, s.remote.value, t.peers);
    }
    if s.actives.Some? {
      var boards := FleetBoards(fold, s.actives.value, t.fleet);
      forall i | 0 <= i < |boards| ensures WellFormed(boards[i]) {
        ForeignBoardWellFormed(s.actives.value[i].cluster, t.fleet[i]);
      }
      MergeFleetWellFormed(m, s.actives.value, boards);
    }
  }

  lemma ForeignBoardWellFormed(c: Cluster, keys: seq<seq<string>>)
    requires |keys| == |ForeignPlan(c)|
    ensures WellFormed(ForeignBoard(c, keys))
  {
    hide ForeignPlan, RunPlacements;
    PlaceAllWellFormed(EMPTY_BOARD, RunPlacements("", ForeignPlan(c), keys));
  }

  lemma ReplicatedWellFormed(b: Board)
    requires WellFormed(b)
    ensures WellFormed(ReplicatedBoard(b)) && ReplicatedBoard(b).details == b.details
  {
  }

  /** The links under a key before filtering: the board's own, then the peers',
      then the clusters'. */
  ghost function AllLinks(fold: char -> char, b: Board, s: Surroundings, t: Trace, key: string): seq<Link>
    requires MergeTrace(fold, s, t)
  {
    LinksAt(b, key)
    + (if s.remote.Some? then RemoteLinks(s.remote.value, t.peers, key) else [])
    + (if s.actives.Some? then FleetLinks(s.actives.value, FleetBoards(fold, s.actives.value, t.fleet), key) else [])
  }

  /** The board after the peers, before the clusters. */
  ghost function WithPeers(b: Board, s: Surroundings, t: Trace): Board
    requires s.remote.Some? ==> Enumerates(t.peers, s.remote.value.Keys)
  {
    if s.remote.Some? then MergeRemote(b, s.remote.value, t.peers) else b
  }

  lemma MergedLinks(fold: char -> char, b: Board, s: Surroundings, t: Trace, key: string)
    requires MergeTrace(fold, s, t)
    ensures LinksAt(Merged(fold, b, s, t), key) == AllLinks(fold, b, s, t, key) && Merged(fold, b, s, t).tiles == b.tiles
  {
    hide MergeRemote, MergeFleet, FleetLinks, RemoteLinks, FleetBoards, LinksAt;
    if s.remote.Some? {
      MergeRemoteLinks(b, s.remote.value, t.peers, key);
    }
    if s.actives.Some? {
      MergeFleetLinks(WithPeers(b, s, t), s.actives.value, FleetBoards(fold, s.actives.value, t.fleet), key);
    }
  }

  /** The record of a group that the node itself does not have: from the first peer
      that carries it, or else from the first cluster that supplies it. */
  ghost function Supplied(fold: char -> char, s: Surroundings, t: Trace, key: string): Option<LinkGroup>
    requires MergeTrace(fold, s, t)
  {
    var peer := if s.remote.Some? then FirstCarrier(s.remote.value, t.peers, key) else None;
    var cluster := if s.actives.Some? then FirstSupplier(s.actives.value, FleetBoards(fold, s.actives.value, t.fleet), key) else None;
    if peer.Some? then Some(RemoteEntry(s.remote.value[peer.value].linkGroups, key, SyncSource(peer.value))) else
    if cluster.Some? then
      Some(ForeignEntry(s.actives.value[cluster.value].endpoint, FleetBoards(fold, s.actives.value, t.fleet)[cluster.value], key))
    else None
  }

  /** Which groups there are, and whose record they have. */
  lemma MergedDetails(fold: char -> char, b: Board, s: Surroundings, t: Trace, key: string)
    requires MergeTrace(fold, s, t)
    ensures var details, supplied := Merged(fold, b, s, t).details, Supplied(fold, s, t, key);
      && (key in b.details ==> key in details && details[key] == b.details[key])
      && (key !in b.details ==> (key in details <==> supplied.Some?) && (supplied.Some? ==> details[key] == supplied.value))
  {
    hide MergeRemote, MergeFleet, FirstCarrier, FirstSupplier, RemoteEntry, ForeignEntry, FleetBoards;
    if s.remote.Some? {
      MergeRemoteDetails(b, s.remote.value, t.peers, key);
    }
    if s.actives.Some? {
      MergeFleetDetails(WithPeers(b, s, t), s.actives.value, FleetBoards(fold, s.actives.value, t.fleet), key);
    }
  }

  /** Conservation over the whole run: for every key, the response lists exactly
      those of its links that the user may see, sorted by name. */
  lemma ResponseConserves(fold: char -> char, lower: string -> string, b: Board, s: Surroundings,
                          userGroups: seq<string>, t: Trace, r: Response, key: string)
    requires WellFormed(b) && Responds(fold, lower, b, s, userGroups, false, t, r)
    ensures LinksUnder(r.groups, key) == Sort(ByName(lower), Visible(AllLinks(fold, b, s, t, key), userGroups))
  {
    hide Merged, AllLinks, Render, LinksUnder, MergeTrace;
    MergedWellFormed(fold, b, s, t);
    MergedLinks(fold, b, s, t, key);
    RenderConserves(lower, Merged(fold, b, s, t), t.groups, userGroups, false, key);
  }

  /** Non-interference of exports: with localOnly the peer cache and the fleet have no
      influence on what collectDashboard may return. */
  lemma ExportIgnoresSurroundings(st: Settings, c: Cluster, s1: Surroundings, s2: Surroundings, userGroups: seq<string>, t: Trace, r: Result<Response>)
    requires Collects(st, c, s1, userGroups, true, t, r)
    ensures Collects(st, c, s2, userGroups, true, t, r)
  {
  }

  /** collectDashboard. The result of an export is one that any peer cache and any
      fleet would have allowed. */
  method CollectDashboard(st: Settings, c: Cluster, sync: Option<SyncClient>, fleet: Option<seq<Active>>,
                          userGroups: seq<string>, localOnly: bool)
    returns (r: Result<Response>, ghost t: Trace)
    ensures Collects(st, c, Surroundings(Seen(sync), fleet), userGroups, localOnly, t, r)
    ensures localOnly ==> forall s :: Collects(st, c, s, userGroups, true, t, r)
    ensures Seen(sync) == old(Seen(sync))
  {
    hide Prepared, MergeTrace, Render, LocalBoard, LegalChoices, LocalFails, SeenCache;
    var maps := new BoardMaps();
    var ok;
    ghost var local;
    ok, local := CollectLocal(st, c, maps);
    SeenFrame(sync);
    t := Trace(local, [], [], []);
    r := Err;
    if ok {
      ghost var b := maps.Value();
      t := Prepare(st.fold, local, sync, fleet, localOnly, maps);
      var response;
      ghost var groups;
      response, groups := RenderGroups(st.lower, maps, userGroups, localOnly);
      PreparedIgnoresGroups(st.fold, b, Surroundings(Seen(sync), fleet), localOnly, t, groups);
      t := t.(groups := groups);
      r := Ok(response);
    }
    assert Collects(st, c, Surroundings(Seen(sync), fleet), userGroups, localOnly, t, r);
    if localOnly {
      ExportIgnoresAll(st, c, Surroundings(Seen(sync), fleet), userGroups, t, r);
    }
  }

  lemma ExportIgnoresAll(st: Settings, c: Cluster, s: Surroundings, userGroups: seq<string>, t: Trace, r: Result<Response>)
    requires Collects(st, c, s, userGroups, true, t, r)
    ensures forall other :: Collects(st, c, other, userGroups, true, t, r)
  {
    hide Collects;
    forall other ensures Collects(st, c, other, userGroups, true, t, r) {
      ExportIgnoresSurroundings(st, c, s, other, userGroups, t, r);
    }
  }

  ghost function Seen(sync: Option<SyncClient>): Option<Remote>
    reads if sync.Some? then {sync.value} else {}
    reads if sync.Some? then CacheSlices(sync.value.cache) else {}
  {
    if sync.Some? then Some(SeenCache(sync.value.cache)) else None
  }

  twostate lemma SeenFrame(sync: Option<SyncClient>)
    requires sync.Some? ==> unchanged(sync.value) && forall a :: a in CacheSlices(sync.value.cache) ==> unchanged(a)
    ensures Seen(sync) == old(Seen(sync))
  {
    hide SeenCache;
    if sync.Some? {
      SlicesFrame(sync.value.cache);
    }
  }

  lemma PreparedIgnoresGroups(fold: char -> char, b: Board, s: Surroundings, localOnly: bool, t: Trace, groups: seq<string>)
    requires !localOnly ==> MergeTrace(fold, s, t)
    ensures !localOnly ==> MergeTrace(fold, s, t.(groups := groups))
    ensures Prepared(fold, b, s, localOnly, t.(groups := groups)) == Prepared(fold, b, s, localOnly, t)
  {
  }

  /** The merges for users, the replication filter for peers. */
  method Prepare(fold: char -> char, ghost local: Choices, sync: Option<SyncClient>, fleet: Option<seq<Active>>, localOnly: bool, maps: BoardMaps)
    returns (ghost t: Trace)
    modifies maps
    ensures t.local == local
    ensures !localOnly ==> MergeTrace(fold, Surroundings(Seen(sync), fleet), t)
    ensures maps.Value() == Prepared(fold, old(maps.Value()), Surroundings(Seen(sync), fleet), localOnly, t)
    ensures Seen(sync) == old(Seen(sync))
  {
    hide MergeRemote, MergeFleet, SeenCache, Enumerates;
    ghost var peers: seq<string> := [];
    ghost var clusters: seq<seq<seq<string>>> := [];
    if !localOnly && sync.Some? {
      peers := MergeRemoteData(sync.value, maps);
    }
    if !localOnly && fleet.Some? {
      clusters := MergeForeignClusterData(fold, fleet.value, maps);
    }
    if localOnly {
      KeepReplicatedLinks(maps);
      KeepReplicatedTiles(maps);
    }
    SeenFrame(sync);
    t := Trace(local, peers, clusters, []);
  }

  /** The filter of the sync path. */
  method KeepReplicatedLinks(maps: BoardMaps)
    modifies maps`links
    ensures maps.links == ReplicatedBoard(old(maps.Value())).links
  {
    ghost var start := maps.links;
    var unseen := maps.links.Keys;
    while unseen != {}
      invariant unseen <= maps.links.Keys == start.Keys
      invariant forall k :: k in start ==>
        maps.links[k] == if k in unseen then start[k] else Filter(Replicates(), start[k])
      decreases unseen
    {
      var name :| name in unseen;
      var kept := FilterLinksForReplication(maps.links[name]);
      maps.links := maps.links[name := kept];
      unseen := unseen - {name};
    }
  }

  method KeepReplicatedTiles(maps: BoardMaps)
    modifies maps`tiles
    ensures maps.tiles == ReplicatedBoard(old(maps.Value())).tiles
  {
    ghost var start := maps.tiles;
    var unseen := maps.tiles.Keys;
    while unseen != {}
      invariant unseen <= maps.tiles.Keys == start.Keys
      invariant forall k :: k in start ==>
        maps.tiles[k] == if k in unseen then start[k] else Filter(TileReplicates(), start[k])
      decreases unseen
    {
      var name :| name in unseen;
      var kept := FilterTilesForReplication(maps.tiles[name]);
      maps.tiles := maps.tiles[name := kept];
      unseen := unseen - {name};
    }
  }
}
