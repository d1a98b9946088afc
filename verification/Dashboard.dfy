/**
 collectDashboard: collect, merge, filter for replication and for the user, order
 the groups, sort the links. The sync endpoint calls it with localOnly = true.
 */
module Dashboard {
  import opened Wrappers
  import opened Text
  import opened Sequences
  import opened Enumeration
  import opened Boards
  import opened GroupOrder

  // --------------------------------------------------------------- rendering

  function ByName(lower: string -> string): (Link, Link) -> bool {
    (a: Link, b: Link) => LexLess(lower(a.name), lower(b.name))
  }

  function TileByName(lower: string -> string): (Tile, Tile) -> bool {
    (a: Tile, b: Tile) => LexLess(lower(a.name), lower(b.name))
  }

  lemma ByNameOrder(lower: string -> string)
    ensures WeakOrder(ByName(lower))
  {
    var less := ByName(lower);
    forall a, b | Sequences.Below(less, a, b) ensures !Sequences.Below(less, b, a) {
      LexTotal(lower(a.name), lower(b.name));
    }
    forall a, b, c | !Sequences.Below(less, a, b) && !Sequences.Below(less, b, c) ensures !Sequences.Below(less, a, c) {
      LexNotLessTransitive(lower(a.name), lower(b.name), lower(c.name));
    }
  }

  /** Keep only what is marked for replication. */
  function ReplicatedBoard(b: Board): Board {
    b.(links := map k | k in b.links :: Filter(Replicates(), b.links[k]),
       tiles := map k | k in b.tiles :: Filter(TileReplicates(), b.tiles[k]))
  }

  /** A group is dropped when it has nothing to show, unless it is exported and
      marked for replication itself. */
  predicate Dropped(b: Board, lg: LinkGroup, userGroups: seq<string>, localOnly: bool) {
    Visible(LinksAt(b, lg.name), userGroups) == [] && TilesAt(b, lg.name) == [] && (!localOnly || !lg.replicate)
  }

  function ShownGroup(lower: string -> string, b: Board, lg: LinkGroup, userGroups: seq<string>): Group {
    Group(lg.displayName, lg.name, Sort(ByName(lower), Visible(LinksAt(b, lg.name), userGroups)),
          Sort(TileByName(lower), TilesAt(b, lg.name)), lg.source)
  }

  function ShownGroups(lower: string -> string, b: Board, lgs: seq<LinkGroup>, userGroups: seq<string>, localOnly: bool): seq<Group> {
    if lgs == [] then [] else
      var lg := lgs[|lgs| - 1];
      ShownGroups(lower, b, lgs[..|lgs| - 1], userGroups, localOnly)
      + if Dropped(b, lg, userGroups, localOnly) then [] else [ShownGroup(lower, b, lg, userGroups)]
  }

  /** The response for a board whose details are ranged over in this order. */
  function Render(lower: string -> string, b: Board, order: seq<string>, userGroups: seq<string>, localOnly: bool): Response
    requires forall k :: k in order ==> k in b.details
  {
    var lgs := SortedGroups(lower, b.details, order);
    Response(lgs, ShownGroups(lower, b, lgs, userGroups, localOnly))
  }

  method RenderGroups(lower: string -> string, maps: BoardMaps, userGroups: seq<string>, localOnly: bool)
    returns (r: Response, ghost order: seq<string>)
    ensures Enumerates(order, maps.details.Keys) && forall k :: k in order ==> k in maps.details
    ensures r == Render(lower, maps.Value(), order, userGroups, localOnly)
  {
    hide AllFit, InOrder, SortedGroups, Enumerates;
    var orderedGroups;
    orderedGroups, order := SortLinkGroups(lower, maps.details);
    var groups: seq<Group> := [];
    for i := 0 to |orderedGroups|
      invariant groups == ShownGroups(lower, maps.Value(), orderedGroups[..i], userGroups, localOnly)
    {
      hide Dropped, ShownGroup;
      assert orderedGroups[..i + 1][..i] == orderedGroups[..i];
      var group := RenderGroup(lower, maps, orderedGroups[i], userGroups, localOnly);
      if group.Some? {
        groups := groups + [group.value];
      }
    }
    assert orderedGroups[..|orderedGroups|] == orderedGroups;
    r := Response(orderedGroups, groups);
  }

  /** The body of the loop; None is `continue`. */
  method RenderGroup(lower: string -> string, maps: BoardMaps, group: LinkGroup, userGroups: seq<string>, localOnly: bool)
    returns (r: Option<Group>)
    ensures r == if Dropped(maps.Value(), group, userGroups, localOnly) then None
                 else Some(ShownGroup(lower, maps.Value(), group, userGroups))
  {
    hide Sort, Visible;
    var links := FilterLinksForGroups(LinksAt(maps.Value(), group.name), userGroups);
    var groupTiles := TilesAt(maps.Value(), group.name);
    if |links| == 0 && |groupTiles| == 0 && (!localOnly || !group.replicate) {
      return None;
    }
    links := Sort(ByName(lower), links);
    groupTiles := Sort(TileByName(lower), groupTiles);
    r := Some(Group(group.displayName, group.name, links, groupTiles, group.source));
  }

  // ---------------------------------------------- what a user finds in a response

  /** The group has something to show to the user, or is exported for its own sake. */
  predicate Shows(b: Board, lg: LinkGroup, userGroups: seq<string>, localOnly: bool) {
    || (exists l :: l in LinksAt(b, lg.name) && MaySee(l, userGroups))
    || TilesAt(b, lg.name) != []
    || (localOnly && lg.replicate)
  }

  lemma DroppedIff(b: Board, lg: LinkGroup, userGroups: seq<string>, localOnly: bool)
    ensures Dropped(b, lg, userGroups, localOnly) <==> !Shows(b, lg, userGroups, localOnly)
  {
    hide Visible, MaySee;
    var links := LinksAt(b, lg.name);
    forall l | l in links ensures l in Visible(links, userGroups) <==> MaySee(l, userGroups) {
      VisibleIff(links, userGroups, l);
    }
    if Visible(links, userGroups) != [] {
      var l := Visible(links, userGroups)[0];
      VisibleIff(links, userGroups, l);
    }
  }

  /** No link comes before one whose lower-cased name is smaller. */
  ghost predicate LinksInOrder(lower: string -> string, links: seq<Link>) {
    forall i, j {:trigger links[i], links[j]} :: 0 <= i < j < |links| ==> !Less(lower(links[j].name), lower(links[i].name))
  }

  ghost predicate TilesInOrder(lower: string -> string, tiles: seq<Tile>) {
    forall i, j {:trigger tiles[i], tiles[j]} :: 0 <= i < j < |tiles| ==> !Less(lower(tiles[j].name), lower(tiles[i].name))
  }

  lemma SortedLinks(lower: string -> string, links: seq<Link>)
    ensures LinksInOrder(lower, Sort(ByName(lower), links)) && multiset(Sort(ByName(lower), links)) == multiset(links)
  {
    ByNameOrder(lower);
    SortSorted(ByName(lower), links);
    SortPermutes(ByName(lower), links);
    hide Sort, Less, LexLess;
    var r := Sort(ByName(lower), links);
    forall i, j | 0 <= i < j < |r| ensures !Less(lower(r[j].name), lower(r[i].name)) {
      assert !ByName(lower)(r[j], r[i]);
      LexLessIff(lower(r[j].name), lower(r[i].name));
    }
  }

  lemma TileByNameOrder(lower: string -> string)
    ensures WeakOrder(TileByName(lower))
  {
    var less := TileByName(lower);
    forall a, b | Sequences.Below(less, a, b) ensures !Sequences.Below(less, b, a) {
      LexTotal(lower(a.name), lower(b.name));
    }
    forall a, b, c | !Sequences.Below(less, a, b) && !Sequences.Below(less, b, c) ensures !Sequences.Below(less, a, c) {
      LexNotLessTransitive(lower(a.name), lower(b.name), lower(c.name));
    }
  }

  lemma SortedTiles(lower: string -> string, tiles: seq<Tile>)
    ensures TilesInOrder(lower, Sort(TileByName(lower), tiles)) && multiset(Sort(TileByName(lower), tiles)) == multiset(tiles)
  {
    TileByNameOrder(lower);
    SortSorted(TileByName(lower), tiles);
    SortPermutes(TileByName(lower), tiles);
    hide Sort, Less, LexLess;
    var r := Sort(TileByName(lower), tiles);
    forall i, j | 0 <= i < j < |r| ensures !Less(lower(r[j].name), lower(r[i].name)) {
      assert !TileByName(lower)(r[j], r[i]);
      LexLessIff(lower(r[j].name), lower(r[i].name));
    }
  }

  /** g shows a group under its display name, with all its tiles and with exactly those of
      its links that the user may see, both sorted by name. */
  ghost predicate Presents(lower: string -> string, b: Board, lg: LinkGroup, userGroups: seq<string>, g: Group) {
    && g.linkGroup == lg.name && g.name == lg.displayName && g.source == lg.source
    && multiset(g.links) == multiset(Visible(LinksAt(b, lg.name), userGroups)) && LinksInOrder(lower, g.links)
    && multiset(g.tiles) == multiset(TilesAt(b, lg.name)) && TilesInOrder(lower, g.tiles)
  }

  lemma ShownPresents(lower: string -> string, b: Board, lg: LinkGroup, userGroups: seq<string>)
    ensures Presents(lower, b, lg, userGroups, ShownGroup(lower, b, lg, userGroups))
  {
    hide LinksInOrder, TilesInOrder, Sort, Visible;
    SortedLinks(lower, Visible(LinksAt(b, lg.name), userGroups));
    SortedTiles(lower, TilesAt(b, lg.name));
  }

  /** A group appears exactly when it is known and has something to show; it appears once. */
  lemma RenderShown(lower: string -> string, b: Board, order: seq<string>, userGroups: seq<string>, localOnly: bool, key: string)
    requires WellFormed(b) && Enumerates(order, b.details.Keys)
    ensures var groups := Render(lower, b, order, userGroups, localOnly).groups;
      && ((exists g :: g in groups && g.linkGroup == key) <==> key in b.details && Shows(b, b.details[key], userGroups, localOnly))
      && (forall g :: g in groups && g.linkGroup == key ==> key in b.details && Presents(lower, b, b.details[key], userGroups, g))
      && |Filter(Under(key), groups)| <= 1
  {
    hide Shows, Dropped, Presents, ShownGroup, Render, Filter;
    var groups := Render(lower, b, order, userGroups, localOnly).groups;
    RenderExact(lower, b, order, userGroups, localOnly, key);
    FilterMembers(Under(key), groups);
    forall g ensures g in groups && g.linkGroup == key <==> g in Filter(Under(key), groups) {
      assert Under(key)(g) <==> g.linkGroup == key;
    }
    if key in b.details {
      DroppedIff(b, b.details[key], userGroups, localOnly);
      ShownPresents(lower, b, b.details[key], userGroups);
      assert ShownGroup(lower, b, b.details[key], userGroups) in [ShownGroup(lower, b, b.details[key], userGroups)];
    }
  }

  function KeyAt(): Group -> string {
    (g: Group) => g.linkGroup
  }

  function NameAt(): LinkGroup -> string {
    (lg: LinkGroup) => lg.name
  }

  function Showing(b: Board, userGroups: seq<string>, localOnly: bool): LinkGroup -> bool {
    (lg: LinkGroup) => Shows(b, lg, userGroups, localOnly)
  }

  /** The groups come in the order of their records. */
  lemma {:induction false} ShownInOrder(lower: string -> string, b: Board, lgs: seq<LinkGroup>, userGroups: seq<string>, localOnly: bool)
    ensures Map(KeyAt(), ShownGroups(lower, b, lgs, userGroups, localOnly)) == Map(NameAt(), Filter(Showing(b, userGroups, localOnly), lgs))
  {
    if lgs != [] {
      var n := |lgs| - 1;
      hide Shows, Dropped, Map;
      ShownInOrder(lower, b, lgs[..n], userGroups, localOnly);
      FilterSnoc(Showing(b, userGroups, localOnly), lgs, n);
      assert lgs[..n + 1] == lgs;
      DroppedIff(b, lgs[n], userGroups, localOnly);
      var g := ShownGroup(lower, b, lgs[n], userGroups);
      var more := if Dropped(b, lgs[n], userGroups, localOnly) then [] else [g];
      MapConcat(KeyAt(), ShownGroups(lower, b, lgs[..n], userGroups, localOnly), more);
      MapConcat(NameAt(), Filter(Showing(b, userGroups, localOnly), lgs[..n]), if more == [] then [] else [lgs[n]]);
      assert Map(KeyAt(), [g]) == [g.linkGroup] && Map(NameAt(), [lgs[n]]) == [lgs[n].name];
      assert Map(KeyAt(), []) == [] && Map(NameAt(), []) == [];
    }
  }

  // -------------------------------------------------------------- conservation

  function Under(key: string): Group -> bool {
    (g: Group) => g.linkGroup == key
  }

  function Named(key: string): LinkGroup -> bool {
    (lg: LinkGroup) => lg.name == key
  }

  lemma {:induction false} ShownUnder(lower: string -> string, b: Board, lgs: seq<LinkGroup>, userGroups: seq<string>, localOnly: bool, key: string)
    ensures Filter(Under(key), ShownGroups(lower, b, lgs, userGroups, localOnly))
         == ShownGroups(lower, b, Filter(Named(key), lgs), userGroups, localOnly)
  {
    if lgs != [] {
      hide ShownGroup, Dropped;
      var init, last := lgs[..|lgs| - 1], lgs[|lgs| - 1];
      assert lgs == init + [last];
      ShownUnder(lower, b, init, userGroups, localOnly, key);
      FilterConcat(Named(key), init, [last]);
      FilterConcat(Under(key), ShownGroups(lower, b, init, userGroups, localOnly),
                   if Dropped(b, last, userGroups, localOnly) then [] else [ShownGroup(lower, b, last, userGroups)]);
      ShownOne(lower, b, last, userGroups, localOnly, key);
      var kept := Filter(Named(key), init);
      if last.name == key {
        assert (kept + [last])[..|kept + [last]| - 1] == kept;
      } else {
        assert kept + [] == kept;
      }
    }
  }

  lemma ShownOne(lower: string -> string, b: Board, lg: LinkGroup, userGroups: seq<string>, localOnly: bool, key: string)
    ensures Filter(Under(key), [ShownGroup(lower, b, lg, userGroups)])
         == if lg.name == key then [ShownGroup(lower, b, lg, userGroups)] else []
    ensures Filter(Named(key), [lg]) == if lg.name == key then [lg] else []
  {
  }

  /** In whatever order the groups are sorted, each name occurs once. */
  lemma SortedNamed(lower: string -> string, details: map<string, LinkGroup>, order: seq<string>, key: string)
    requires Enumerates(order, details.Keys) && forall k :: k in details ==> details[k].name == k
    ensures Filter(Named(key), SortedGroups(lower, details, order)) == if key in details then [details[key]] else []
  {
    var xs, ys := Entries(details, order), SortedGroups(lower, details, order);
    SortPermutes(Precedes(lower), xs);
    FilterPermutes(Named(key), ys, xs);
    if key in details {
      var i := EnumeratesFind(order, details.Keys, key);
      FilterOne(Named(key), xs, i);
      SingletonByMultiset(Filter(Named(key), ys), details[key]);
    } else {
      FilterNone(Named(key), xs);
      EmptyByMultiset(Filter(Named(key), ys));
    }
  }

  lemma SingletonByMultiset<T>(xs: seq<T>, x: T)
    requires multiset(xs) == multiset([x])
    ensures xs == [x]
  {
    assert |xs| == |multiset(xs)| == 1;
    assert xs[0] in multiset(xs);
  }

  lemma EmptyByMultiset<T>(xs: seq<T>)
    requires multiset(xs) == multiset([])
    ensures xs == []
  {
    assert |xs| == |multiset(xs)| == 0;
  }

  /** Conservation into the response: under each key there is at most one group,
      it holds exactly the links and tiles filed there that pass the filter, and
      it is absent exactly when the group is unknown or dropped. */
  lemma RenderExact(lower: string -> string, b: Board, order: seq<string>, userGroups: seq<string>, localOnly: bool, key: string)
    requires WellFormed(b) && Enumerates(order, b.details.Keys)
    ensures Filter(Under(key), Render(lower, b, order, userGroups, localOnly).groups)
         == if key in b.details && !Dropped(b, b.details[key], userGroups, localOnly)
            then [ShownGroup(lower, b, b.details[key], userGroups)] else []
  {
    hide ShownGroup, Dropped, SortedGroups;
    var lgs := SortedGroups(lower, b.details, order);
    ShownUnder(lower, b, lgs, userGroups, localOnly, key);
    SortedNamed(lower, b.details, order, key);
    if key in b.details {
      assert [b.details[key]][..0] == [];
    }
  }

  function LinksUnder(groups: seq<Group>, key: string): seq<Link> {
    if groups == [] then [] else
      var g := groups[|groups| - 1];
      LinksUnder(groups[..|groups| - 1], key) + if g.linkGroup == key then g.links else []
  }

  lemma {:induction false} LinksUnderFiltered(groups: seq<Group>, key: string)
    ensures LinksUnder(groups, key) == LinksUnder(Filter(Under(key), groups), key)
  {
    if groups != [] {
      var init, g := groups[..|groups| - 1], groups[|groups| - 1];
      LinksUnderFiltered(init, key);
      assert groups == init + [g];
      FilterConcat(Under(key), init, [g]);
      var kept := Filter(Under(key), init);
      if g.linkGroup == key {
        assert (kept + [g])[..|kept + [g]| - 1] == kept;
      } else {
        assert kept + [] == kept;
      }
    }
  }

  function TilesUnder(groups: seq<Group>, key: string): seq<Tile> {
    if groups == [] then [] else
      var g := groups[|groups| - 1];
      TilesUnder(groups[..|groups| - 1], key) + if g.linkGroup == key then g.tiles else []
  }

  lemma {:induction false} TilesUnderFiltered(groups: seq<Group>, key: string)
    ensures TilesUnder(groups, key) == TilesUnder(Filter(Under(key), groups), key)
  {
    if groups != [] {
      var init, g := groups[..|groups| - 1], groups[|groups| - 1];
      TilesUnderFiltered(init, key);
      assert groups == init + [g];
      FilterConcat(Under(key), init, [g]);
      var kept := Filter(Under(key), init);
      if g.linkGroup == key {
        assert (kept + [g])[..|kept + [g]| - 1] == kept;
      } else {
        assert kept + [] == kept;
      }
    }
  }

  /** For every key at all, the response holds the tiles filed under it, each as often as
      it was filed there, sorted by name. No tile is hidden from anyone. */
  lemma RenderConservesTiles(lower: string -> string, b: Board, order: seq<string>, userGroups: seq<string>, localOnly: bool, key: string)
    requires WellFormed(b) && Enumerates(order, b.details.Keys)
    ensures var tiles := TilesUnder(Render(lower, b, order, userGroups, localOnly).groups, key);
      tiles == Sort(TileByName(lower), TilesAt(b, key)) && multiset(tiles) == multiset(TilesAt(b, key)) && TilesInOrder(lower, tiles)
  {
    hide Render, Sort, TilesInOrder, TilesUnder, Filter, ShownGroup, Dropped, WellFormed;
    var groups := Render(lower, b, order, userGroups, localOnly).groups;
    RenderExact(lower, b, order, userGroups, localOnly, key);
    TilesUnderFiltered(groups, key);
    SortedTiles(lower, TilesAt(b, key));
    ShownTiles(lower, b, userGroups, localOnly, key);
  }

  /** The group shown under a key, if any. */
  function ShownAt(lower: string -> string, b: Board, userGroups: seq<string>, localOnly: bool, key: string): seq<Group> {
    if key in b.details && !Dropped(b, b.details[key], userGroups, localOnly) then [ShownGroup(lower, b, b.details[key], userGroups)] else []
  }

  lemma ShownTiles(lower: string -> string, b: Board, userGroups: seq<string>, localOnly: bool, key: string)
    requires WellFormed(b)
    ensures TilesUnder(ShownAt(lower, b, userGroups, localOnly, key), key) == Sort(TileByName(lower), TilesAt(b, key))
  {
    hide Visible;
    var shown := ShownAt(lower, b, userGroups, localOnly, key);
    assert shown != [] ==> shown[..0] == [];
  }

  lemma ShownLinks(lower: string -> string, b: Board, userGroups: seq<string>, localOnly: bool, key: string)
    requires WellFormed(b)
    ensures LinksUnder(ShownAt(lower, b, userGroups, localOnly, key), key) == Sort(ByName(lower), Visible(LinksAt(b, key), userGroups))
  {
    assert Visible([], userGroups) == [];
    hide Visible;
    var shown := ShownAt(lower, b, userGroups, localOnly, key);
    assert shown != [] ==> shown[..0] == [];
  }

  /** For every key at all, the response lists the visible links filed under it,
      sorted by name and each as often as it was collected. */
  lemma RenderConserves(lower: string -> string, b: Board, order: seq<string>, userGroups: seq<string>, localOnly: bool, key: string)
    requires WellFormed(b) && Enumerates(order, b.details.Keys)
    ensures LinksUnder(Render(lower, b, order, userGroups, localOnly).groups, key)
         == Sort(ByName(lower), Visible(LinksAt(b, key), userGroups))
    ensures multiset(LinksUnder(Render(lower, b, order, userGroups, localOnly).groups, key))
         == multiset(Visible(LinksAt(b, key), userGroups))
    ensures LinksInOrder(lower, LinksUnder(Render(lower, b, order, userGroups, localOnly).groups, key))
  {
    hide Visible, Render, Sort, LinksInOrder, LinksUnder, Filter, ShownGroup, Dropped, WellFormed;
    var groups := Render(lower, b, order, userGroups, localOnly).groups;
    RenderExact(lower, b, order, userGroups, localOnly, key);
    LinksUnderFiltered(groups, key);
    SortedLinks(lower, Visible(LinksAt(b, key), userGroups));
    ShownLinks(lower, b, userGroups, localOnly, key);
  }
}
