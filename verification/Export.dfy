/**
 What a node exports to its peers, what JSON makes of it, and what a user of a
 peer gets to see of it.
 */
module Export {
  import opened Sequences
  import opened Enumeration
  import opened Boards
  import opened GroupOrder
  import opened Dashboard
  import opened Aggregator

  // ------------------------------------------------------------- JSON transport

  /** The Replicate flags are tagged json:"-"; all else survives. */
  function EraseLink(): Link -> Link {
    (l: Link) => l.(replicate := false)
  }

  function EraseTile(): Tile -> Tile {
    (t: Tile) => t.(replicate := false)
  }

  function EraseLinkGroup(): LinkGroup -> LinkGroup {
    (lg: LinkGroup) => lg.(replicate := false)
  }

  function EraseGroup(): Group -> Group {
    (g: Group) => g.(links := Map(EraseLink(), g.links), tiles := Map(EraseTile(), g.tiles))
  }

  function Erase(r: Response): Response {
    Response(Map(EraseLinkGroup(), r.linkGroups), Map(EraseGroup(), r.groups))
  }

  /** Transport loses the flags and nothing else, in no group record, link or tile. */
  lemma EraseExact(r: Response)
    ensures var e := Erase(r);
      && |e.linkGroups| == |r.linkGroups| && |e.groups| == |r.groups|
      && (forall i :: 0 <= i < |r.linkGroups| ==> e.linkGroups[i] == r.linkGroups[i].(replicate := false))
      && (forall i :: 0 <= i < |r.groups| ==> CarriedGroup(r.groups[i], e.groups[i]))
  {
  }

  predicate CarriedGroup(g: Group, e: Group) {
    && e.name == g.name && e.linkGroup == g.linkGroup && e.source == g.source
    && |e.links| == |g.links| && (forall j :: 0 <= j < |g.links| ==> e.links[j] == g.links[j].(replicate := false))
    && |e.tiles| == |g.tiles| && (forall j :: 0 <= j < |g.tiles| ==> e.tiles[j] == g.tiles[j].(replicate := false))
  }

  // -------------------------------------------------------------------- exports

  /** `r` is a possible answer of the sync handler of a node whose local
      collection gave `b`, as the peer decodes it. */
  ghost predicate Exports(fold: char -> char, lower: string -> string, b: Board, s: Surroundings, t: Trace, r: Response) {
    exists sent :: Responds(fold, lower, b, s, [WILDCARD], true, t, sent) && r == Erase(sent)
  }

  /** The links of a group that leave the node, in the order they are sent. */
  function ExportedLinks(lower: string -> string, b: Board, key: string): seq<Link> {
    Map(EraseLink(), Sort(ByName(lower), Filter(Replicates(), LinksAt(b, key))))
  }

  lemma {:induction false} EraseUnder(groups: seq<Group>, key: string)
    ensures LinksUnder(Map(EraseGroup(), groups), key) == Map(EraseLink(), LinksUnder(groups, key))
  {
    if groups != [] {
      var init, g := groups[..|groups| - 1], groups[|groups| - 1];
      EraseUnder(init, key);
      assert Map(EraseGroup(), groups)[..|init|] == Map(EraseGroup(), init);
      MapConcat(EraseLink(), LinksUnder(init, key), if g.linkGroup == key then g.links else []);
    }
  }

  /** An export lists, for every key, exactly the replicable links filed there:
      the wildcard user neither loses nor adds any. */
  lemma ExportExact(fold: char -> char, lower: string -> string, b: Board, s: Surroundings, t: Trace, r: Response, key: string)
    requires WellFormed(b) && Exports(fold, lower, b, s, t, r)
    ensures LinksUnder(r.groups, key) == ExportedLinks(lower, b, key)
  {
    var sent :| Responds(fold, lower, b, s, [WILDCARD], true, t, sent) && r == Erase(sent);
    ReplicatedWellFormed(b);
    RenderConserves(lower, ReplicatedBoard(b), t.groups, [WILDCARD], true, key);
    WildcardSeesAll(LinksAt(ReplicatedBoard(b), key));
    EraseUnder(sent.groups, key);
    assert LinksAt(ReplicatedBoard(b), key) == Filter(Replicates(), LinksAt(b, key));
  }

  lemma {:induction false} ShownGroupsFrom(lower: string -> string, b: Board, lgs: seq<LinkGroup>, userGroups: seq<string>, localOnly: bool)
    ensures forall g :: g in ShownGroups(lower, b, lgs, userGroups, localOnly) ==>
      exists lg :: lg in lgs && g == ShownGroup(lower, b, lg, userGroups) && !Dropped(b, lg, userGroups, localOnly)
  {
    if lgs != [] {
      hide ShownGroup, Dropped;
      var init, last := lgs[..|lgs| - 1], lgs[|lgs| - 1];
      ShownGroupsFrom(lower, b, init, userGroups, localOnly);
      assert lgs == init + [last];
    }
  }

  /** A group of the node's own, holding only replicable links and tiles. */
  ghost predicate OwnReplicable(b: Board, g: Group) {
    && g.linkGroup in b.details && g.name == b.details[g.linkGroup].displayName
    && (forall j :: 0 <= j < |g.links| ==> g.links[j] in LinksAt(b, g.linkGroup) && g.links[j].replicate)
    && (forall j :: 0 <= j < |g.tiles| ==> g.tiles[j] in TilesAt(b, g.linkGroup) && g.tiles[j].replicate)
  }

  lemma RenderedOwn(lower: string -> string, b: Board, order: seq<string>, g: Group)
    requires WellFormed(b) && Enumerates(order, b.details.Keys)
    requires g in Render(lower, ReplicatedBoard(b), order, [WILDCARD], true).groups
    ensures OwnReplicable(b, g)
  {
    hide Sort, Filter, ReplicatedBoard, ShownGroups;
    var p := ReplicatedBoard(b);
    ReplicatedWellFormed(b);
    var lgs := SortedGroups(lower, p.details, order);
    ShownGroupsFrom(lower, p, lgs, [WILDCARD], true);
    var lg :| lg in lgs && g == ShownGroup(lower, p, lg, [WILDCARD]);
    SortPermutes(Precedes(lower), Entries(p.details, order));
    SameMembers(lgs, Entries(p.details, order));
    ShownFrom(lower, b, lg, g);
  }

  /** Every exported group stems from one of the node's groups, and every link
      and tile in it from a replicable one filed there. */
  lemma ExportedFrom(fold: char -> char, lower: string -> string, b: Board, s: Surroundings, t: Trace, r: Response, i: nat)
    requires WellFormed(b) && Exports(fold, lower, b, s, t, r) && i < |r.groups|
    ensures exists g :: OwnReplicable(b, g) && r.groups[i] == EraseGroup()(g)
  {
    hide Render;
    var sent :| Responds(fold, lower, b, s, [WILDCARD], true, t, sent) && r == Erase(sent);
    var g := sent.groups[i];
    assert r.groups[i] == EraseGroup()(g);
    ReplicatedWellFormed(b);
    RenderedOwn(lower, b, t.groups, g);
  }

  lemma ShownFrom(lower: string -> string, b: Board, lg: LinkGroup, g: Group)
    requires g == ShownGroup(lower, ReplicatedBoard(b), lg, [WILDCARD])
    ensures forall j :: 0 <= j < |g.links| ==> g.links[j] in LinksAt(b, lg.name) && g.links[j].replicate
    ensures forall j :: 0 <= j < |g.tiles| ==> g.tiles[j] in TilesAt(b, lg.name) && g.tiles[j].replicate
  {
    var links, tiles := LinksAt(ReplicatedBoard(b), lg.name), TilesAt(ReplicatedBoard(b), lg.name);
    WildcardSeesAll(links);
    SortPermutes(ByName(lower), links);
    SameMembers(g.links, links);
    SortPermutes(TileByName(lower), tiles);
    SameMembers(g.tiles, tiles);
    FilterMembers(Replicates(), LinksAt(b, lg.name));
    FilterMembers(TileReplicates(), TilesAt(b, lg.name));
    assert forall j :: 0 <= j < |g.links| ==> g.links[j] in g.links;
    assert forall j :: 0 <= j < |g.tiles| ==> g.tiles[j] in g.tiles;
  }
}
