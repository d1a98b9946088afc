/**
 The records of the dashboard and the three maps that every collector and both
 merges update: links per group, tiles per group, and the group details.
 */
module Boards {
  import opened Text
  import opened Sequences

  // ------------------------------------------------------------------ records

  /** Go's int on a 64-bit platform. */
  type Int64 = n: int | -0x8000_0000_0000_0000 <= n < 0x8000_0000_0000_0000

  datatype LinkGroup = LinkGroup(
    name: string, priority: Int64, priorityClass: string, displayName: string,
    source: string, properties: map<string, string>, replicate: bool)

  datatype Link = Link(
    name: string, linkGroup: string, url: string, target: string, icon: string,
    source: string, metadata: string, groups: seq<string>, replicate: bool)

  datatype Tile = Tile(
    name: string, icon: string, url: string, target: string, source: string,
    content: string, replicate: bool)

  datatype Group = Group(
    name: string, linkGroup: string, links: seq<Link>, tiles: seq<Tile>, source: string)

  datatype Response = Response(linkGroups: seq<LinkGroup>, groups: seq<Group>)

  /** The maps `groups`, `tiles` and `groupDetails`. */
  datatype Board = Board(
    links: map<string, seq<Link>>, tiles: map<string, seq<Tile>>, details: map<string, LinkGroup>)

  const EMPTY_BOARD := Board(map[], map[], map[])

  /** Reading a missing key of a Go map of slices gives the empty slice. */
  function LinksAt(b: Board, key: string): seq<Link> {
    if key in b.links then b.links[key] else []
  }

  function TilesAt(b: Board, key: string): seq<Tile> {
    if key in b.tiles then b.tiles[key] else []
  }

  /** Every group is filed under its own name, and nothing is filed under a
      group that has no details. */
  ghost predicate WellFormed(b: Board) {
    && (forall k :: k in b.details ==> b.details[k].name == k)
    && b.links.Keys <= b.details.Keys
    && b.tiles.Keys <= b.details.Keys
  }

  /** The collectors name their source with a plain word; only the two merges
      write a colon ("sync:…", "foreign:…"). */
  ghost predicate OwnSources(b: Board) {
    forall k, l :: k in b.links && l in b.links[k] ==> ':' !in l.source
  }

  /** A group under the empty key, if any, has an empty display name. JSON omits
      an empty linkGroup, and a peer then files the group under its name. */
  predicate EmptyKeyPlain(b: Board) {
    "" in b.details ==> b.details[""].displayName == ""
  }

  // ---------------------------------------------------------- placing a link

  function NewGroup(name: string, source: string): LinkGroup {
    LinkGroup(name, 0, "", name, source, map[], false)
  }

  function Ensure(b: Board, key: string): Board {
    if key in b.details then b else b.(details := b.details[key := NewGroup(key, "local")])
  }

  /** What one turn of a collector's loop does: nothing, or ensure the group
      and append the link. */
  datatype Placement = Skip | At(key: string, link: Link)

  function Place(b: Board, p: Placement): Board {
    match p
    case Skip => b
    case At(key, link) =>
      var e := Ensure(b, key);
      e.(links := e.links[key := LinksAt(e, key) + [link]])
  }

  function PlaceAll(b: Board, ps: seq<Placement>): Board {
    if ps == [] then b else Place(PlaceAll(b, ps[..|ps| - 1]), ps[|ps| - 1])
  }

  function Picked(ps: seq<Placement>, key: string): seq<Link> {
    if ps == [] then [] else
      var last := ps[|ps| - 1];
      Picked(ps[..|ps| - 1], key) + if last.At? && last.key == key then [last.link] else []
  }

  /** A collector's whole loop: it appends exactly its own links, in order, under
      their keys, and leaves tiles and existing group details alone. */
  lemma {:induction false} PlaceAllExact(b: Board, ps: seq<Placement>, key: string)
    ensures var r := PlaceAll(b, ps);
      && LinksAt(r, key) == LinksAt(b, key) + Picked(ps, key)
      && r.tiles == b.tiles
      && (key in b.details ==> key in r.details && r.details[key] == b.details[key])
      && (key in r.details && key !in b.details ==> r.details[key] == NewGroup(key, "local") && Picked(ps, key) != [])
      && (Picked(ps, key) != [] ==> key in r.details)
  {
    if ps != [] {
      PlaceAllExact(b, ps[..|ps| - 1], key);
    }
  }

  lemma PlaceAllSnoc(b: Board, ps: seq<Placement>, p: Placement)
    ensures PlaceAll(b, ps + [p]) == Place(PlaceAll(b, ps), p)
  {
    assert (ps + [p])[..|ps|] == ps;
  }

  lemma {:induction false} PlaceAllConcat(b: Board, ps: seq<Placement>, qs: seq<Placement>)
    ensures PlaceAll(b, ps + qs) == PlaceAll(PlaceAll(b, ps), qs)
  {
    if qs == [] {
      assert ps + qs == ps;
    } else {
      assert (ps + qs)[..|ps + qs| - 1] == ps + qs[..|qs| - 1];
      PlaceAllConcat(b, ps, qs[..|qs| - 1]);
    }
  }

  lemma {:induction false} PickedConcat(ps: seq<Placement>, qs: seq<Placement>, key: string)
    ensures Picked(ps + qs, key) == Picked(ps, key) + Picked(qs, key)
  {
    if qs == [] {
      assert ps + qs == ps;
    } else {
      assert (ps + qs)[..|ps + qs| - 1] == ps + qs[..|qs| - 1];
      PickedConcat(ps, qs[..|qs| - 1], key);
    }
  }

  /** The details after a loop depend on the details before it, not on the links. */
  lemma {:induction false} PlaceAllDetails(b: Board, c: Board, ps: seq<Placement>)
    requires b.details == c.details
    ensures PlaceAll(b, ps).details == PlaceAll(c, ps).details
  {
    if ps != [] {
      PlaceAllDetails(b, c, ps[..|ps| - 1]);
    }
  }

  /** Group details, once there, stay as they are for the rest of the loop. */
  lemma PlaceAllKeeps(b: Board, ps: seq<Placement>, i: nat, j: nat, key: string)
    requires i <= j <= |ps| && key in PlaceAll(b, ps[..i]).details
    ensures key in PlaceAll(b, ps[..j]).details
    ensures PlaceAll(b, ps[..j]).details[key] == PlaceAll(b, ps[..i]).details[key]
  {
    assert ps[..j] == ps[..i] + ps[i..j];
    PlaceAllConcat(b, ps[..i], ps[i..j]);
    PlaceAllExact(PlaceAll(b, ps[..i]), ps[i..j], key);
  }

  lemma {:induction false} PlaceAllWellFormed(b: Board, ps: seq<Placement>)
    requires WellFormed(b)
    ensures WellFormed(PlaceAll(b, ps))
  {
    if ps != [] {
      PlaceAllWellFormed(b, ps[..|ps| - 1]);
    }
  }

  lemma {:induction false} PlaceAllOwnSources(b: Board, ps: seq<Placement>)
    requires OwnSources(b)
    requires forall i :: 0 <= i < |ps| && ps[i].At? ==> ':' !in ps[i].link.source
    ensures OwnSources(PlaceAll(b, ps))
  {
    if ps != [] {
      PlaceAllOwnSources(b, ps[..|ps| - 1]);
    }
  }

  /** One more link appended under a key. */
  lemma AppendStep(start: Board, now: Board, key: string, done: seq<Link>, f: Link -> Link, l: Link)
    requires LinksAt(now, key) == LinksAt(start, key) + Map(f, done)
    ensures LinksAt(now, key) + [f(l)] == LinksAt(start, key) + Map(f, done + [l])
  {
    hide LinksAt;
    MapConcat(f, done, [l]);
    assert Map(f, [l]) == [f(l)];
  }

  // ------------------------------------------------------------------ filters

  function Replicates(): Link -> bool {
    (l: Link) => l.replicate
  }

  function TileReplicates(): Tile -> bool {
    (t: Tile) => t.replicate
  }

  const WILDCARD := "\0all-link-groups"

  /** The set that filterLinksForGroups builds from a user's groups. */
  function UserSet(userGroups: seq<string>): set<string> {
    set i | 0 <= i < |userGroups| && TrimSpace(userGroups[i]) != "" :: TrimSpace(userGroups[i])
  }

  predicate Allowed(link: Link, userSet: set<string>) {
    || link.groups == []
    || WILDCARD in userSet
    || exists g :: g in link.groups && g in userSet
  }

  function VisibleTo(userSet: set<string>): Link -> bool {
    (l: Link) => Allowed(l, userSet)
  }

  /** filterLinksForGroups as a function of its arguments. */
  function Visible(links: seq<Link>, userGroups: seq<string>): seq<Link> {
    Filter(VisibleTo(UserSet(userGroups)), links)
  }

  /** Who may see a link: everyone, if it names no groups; otherwise whoever has the
      wildcard, or at least one of the groups it names. */
  predicate MaySee(link: Link, userGroups: seq<string>) {
    || link.groups == []
    || exists i :: 0 <= i < |userGroups| && Admits(link, TrimSpace(userGroups[i]))
  }

  predicate Admits(link: Link, group: string) {
    group == "\0all-link-groups" || (group != "" && group in link.groups)
  }

  lemma AllowedIff(link: Link, userGroups: seq<string>)
    ensures Allowed(link, UserSet(userGroups)) <==> MaySee(link, userGroups)
  {
    hide TrimSpace;
    var users := UserSet(userGroups);
    assert forall i :: 0 <= i < |userGroups| && TrimSpace(userGroups[i]) != "" ==> TrimSpace(userGroups[i]) in users;
    if Allowed(link, users) && link.groups != [] {
      var g :| g in users && Admits(link, g);
      var i :| 0 <= i < |userGroups| && TrimSpace(userGroups[i]) == g;
    }
  }

  /** What a user sees is exactly the links that the user may see. */
  lemma VisibleIff(links: seq<Link>, userGroups: seq<string>, link: Link)
    ensures link in Visible(links, userGroups) <==> link in links && MaySee(link, userGroups)
  {
    AllowedIff(link, userGroups);
    FilterMembers(VisibleTo(UserSet(userGroups)), links);
  }

  /** Two lists of groups together see exactly what one of them sees. */
  lemma VisibleUnion(links: seq<Link>, us: seq<string>, vs: seq<string>, link: Link)
    ensures link in Visible(links, us + vs) <==> link in Visible(links, us) || link in Visible(links, vs)
  {
    hide TrimSpace, Visible, Admits;
    VisibleIff(links, us + vs, link);
    VisibleIff(links, us, link);
    VisibleIff(links, vs, link);
    assert forall i :: 0 <= i < |us| ==> (us + vs)[i] == us[i];
    assert forall i :: 0 <= i < |vs| ==> (us + vs)[|us| + i] == vs[i];
  }

  /** The sync handler's user list lets every link through. */
  lemma WildcardSeesAll(links: seq<Link>)
    ensures Visible(links, [WILDCARD]) == links
  {
    TrimFixed(WILDCARD);
    assert TrimSpace([WILDCARD][0]) in UserSet([WILDCARD]);
    FilterAll(VisibleTo(UserSet([WILDCARD])), links);
  }

  /** More groups never hide a link: what the smaller set sees is what it sees
      of the larger set's view. */
  lemma VisibleMonotone(links: seq<Link>, few: seq<string>, many: seq<string>)
    requires UserSet(few) <= UserSet(many)
    ensures Visible(Visible(links, many), few) == Visible(links, few)
  {
    FilterStronger(VisibleTo(UserSet(few)), VisibleTo(UserSet(many)), links);
  }

  // --------------------------------------------------------------- the loops

  method FilterLinksForReplication(links: seq<Link>) returns (out: seq<Link>)
    ensures out == Filter(Replicates(), links)
  {
    out := [];
    for i := 0 to |links|
      invariant out == Filter(Replicates(), links[..i])
    {
      FilterSnoc(Replicates(), links, i);
      if links[i].replicate {
        out := out + [links[i]];
      }
    }
    assert links[..|links|] == links;
  }

  method FilterTilesForReplication(tiles: seq<Tile>) returns (out: seq<Tile>)
    ensures out == Filter(TileReplicates(), tiles)
  {
    out := [];
    for i := 0 to |tiles|
      invariant out == Filter(TileReplicates(), tiles[..i])
    {
      FilterSnoc(TileReplicates(), tiles, i);
      if tiles[i].replicate {
        out := out + [tiles[i]];
      }
    }
    assert tiles[..|tiles|] == tiles;
  }

  method LinkAllowedForGroups(link: Link, userSet: set<string>) returns (ok: bool)
    ensures ok <==> link.groups == [] || "\0all-link-groups" in userSet || exists g :: g in link.groups && g in userSet
  {
    if |link.groups| == 0 || WILDCARD in userSet {
      return true;
    }
    for i := 0 to |link.groups|
      invariant forall j :: 0 <= j < i ==> link.groups[j] !in userSet
    {
      if link.groups[i] in userSet {
        return true;
      }
    }
    return false;
  }

  method FilterLinksForGroups(links: seq<Link>, userGroups: seq<string>) returns (result: seq<Link>)
    ensures result == Visible(links, userGroups)
    ensures forall l :: l in result <==> l in links && MaySee(l, userGroups)
  {
    var groupSet := {};
    for i := 0 to |userGroups|
      invariant groupSet == UserSet(userGroups[..i])
    {
      var group := TrimSpace(userGroups[i]);
      assert forall j :: 0 <= j < i ==> userGroups[..i + 1][j] == userGroups[..i][j];
      assert userGroups[..i + 1][i] == userGroups[i];
      if group != "" {
        groupSet := groupSet + {group};
      }
    }
    assert userGroups[..|userGroups|] == userGroups;
    var p := VisibleTo(groupSet);
    result := [];
    for i := 0 to |links|
      invariant result == Filter(p, links[..i])
    {
      FilterSnoc(p, links, i);
      var allowed := LinkAllowedForGroups(links[i], groupSet);
      if allowed {
        result := result + [links[i]];
      }
    }
    assert links[..|links|] == links;
    forall l ensures l in result <==> l in links && MaySee(l, userGroups) {
      VisibleIff(links, userGroups, l);
    }
  }

  // -------------------------------------------------------- the mutable maps

  /** The maps as the collectors share them by reference. */
  class BoardMaps {
    var links: map<string, seq<Link>>
    var tiles: map<string, seq<Tile>>
    var details: map<string, LinkGroup>

    function Value(): Board
      reads this
    {
      Board(links, tiles, details)
    }

    constructor ()
      ensures Value() == EMPTY_BOARD
    {
      links, tiles, details := map[], map[], map[];
    }

    method EnsureLinkGroup(name: string)
      modifies this`details
      ensures Value() == Ensure(old(Value()), name)
    {
      if name in details {
        return;
      }
      details := details[name := LinkGroup(name, 0, "", name, "local", map[], false)];
    }

    method AppendLink(key: string, link: Link)
      modifies this`links
      ensures Value() == old(Value()).(links := old(links)[key := LinksAt(old(Value()), key) + [link]])
    {
      links := links[key := (if key in links then links[key] else []) + [link]];
    }

    method AppendTile(key: string, tile: Tile)
      modifies this`tiles
      ensures Value() == old(Value()).(tiles := old(tiles)[key := TilesAt(old(Value()), key) + [tile]])
    {
      tiles := tiles[key := (if key in tiles then tiles[key] else []) + [tile]];
    }
  }
}
