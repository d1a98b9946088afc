/**
 Merging foreign clusters: each reachable cluster is collected into maps of its
 own, and what it marked for replication is copied over with a rewritten source.
 */
module Fleet {
  import opened Wrappers
  import opened Sequences
  import opened Boards
  import opened Collection

  /** One entry of ActiveClusters, with what the cluster answers this time. */
  datatype Active = Active(endpoint: string, cluster: Cluster)

  function ForeignSource(endpoint: string): string {
    "foreign:" + endpoint
  }

  function Relabelled(endpoint: string): Link -> Link {
    (l: Link) => l.(source := ForeignSource(endpoint) + ":" + l.source)
  }

  /** What a foreign cluster's own collection ends with; `keys` are the groups
      its ForecastleApps resolved to. */
  function ForeignBoard(c: Cluster, keys: seq<seq<string>>): Board
    requires |keys| == |ForeignPlan(c)|
  {
    PlaceAll(EMPTY_BOARD, RunPlacements("", ForeignPlan(c), keys))
  }

  function ForeignLinks(endpoint: string, temp: Board, key: string): seq<Link> {
    Map(Relabelled(endpoint), Filter(Replicates(), LinksAt(temp, key)))
  }

  function ForeignEntry(endpoint: string, temp: Board, key: string): LinkGroup {
    if key in temp.details then temp.details[key].(source := ForeignSource(endpoint))
    else NewGroup(key, ForeignSource(endpoint))
  }

  /** Copy one group, if it has anything to replicate. */
  function MergeKey(b: Board, endpoint: string, temp: Board, key: string): Board {
    if ForeignLinks(endpoint, temp, key) == [] then b else
      b.(details := if key in b.details then b.details else b.details[key := ForeignEntry(endpoint, temp, key)],
         links := b.links[key := LinksAt(b, key) + ForeignLinks(endpoint, temp, key)])
  }

  /** Copy these groups. Each key is visited once and touches nothing but its
      own entries, so the order of the visits leaves no trace. */
  function MergeKeys(b: Board, endpoint: string, temp: Board, keys: set<string>): Board {
    MergeFound(b, endpoint, temp, set k | k in keys && ForeignLinks(endpoint, temp, k) != [])
  }

  function MergeFound(b: Board, endpoint: string, temp: Board, found: set<string>): Board {
    b.(details := FoundDetails(b, endpoint, temp, found), links := FoundLinks(b, endpoint, temp, found))
  }

  function FoundDetails(b: Board, endpoint: string, temp: Board, found: set<string>): map<string, LinkGroup> {
    map k | k in b.details.Keys + found :: if k in b.details then b.details[k] else ForeignEntry(endpoint, temp, k)
  }

  function FoundLinks(b: Board, endpoint: string, temp: Board, found: set<string>): map<string, seq<Link>> {
    map k | k in b.links.Keys + found ::
      if k in found then LinksAt(b, k) + ForeignLinks(endpoint, temp, k) else b.links[k]
  }

  function MergeCluster(b: Board, endpoint: string, temp: Board): Board {
    MergeKeys(b, endpoint, temp, temp.links.Keys)
  }

  function MergeFleet(b: Board, actives: seq<Active>, boards: seq<Board>): Board
    requires |boards| == |actives|
  {
    if actives == [] then b else
      var n := |actives| - 1;
      MergeCluster(MergeFleet(b, actives[..n], boards[..n]), actives[n].endpoint, boards[n])
  }

  function FleetLinks(actives: seq<Active>, boards: seq<Board>, key: string): seq<Link>
    requires |boards| == |actives|
  {
    if actives == [] then [] else
      var n := |actives| - 1;
      FleetLinks(actives[..n], boards[..n], key) + ForeignLinks(actives[n].endpoint, boards[n], key)
  }

  lemma MergeClusterExact(b: Board, endpoint: string, temp: Board, key: string)
    ensures var r := MergeCluster(b, endpoint, temp);
      && LinksAt(r, key) == LinksAt(b, key) + ForeignLinks(endpoint, temp, key)
      && r.tiles == b.tiles
      && (key in b.details ==> key in r.details && r.details[key] == b.details[key])
      && (key in r.details <==> key in b.details || ForeignLinks(endpoint, temp, key) != [])
      && (key in r.details && key !in b.details ==> r.details[key] == ForeignEntry(endpoint, temp, key))
  {
    if key !in temp.links {
      assert ForeignLinks(endpoint, temp, key) == [];
    }
  }

  lemma MergeFleetStart(b: Board)
    ensures MergeFleet(b, [], []) == b
  {
  }

  lemma MergeFleetSnoc(b: Board, actives: seq<Active>, boards: seq<Board>, active: Active, temp: Board)
    requires |boards| == |actives|
    ensures MergeFleet(b, actives + [active], boards + [temp]) == MergeCluster(MergeFleet(b, actives, boards), active.endpoint, temp)
  {
    assert (actives + [active])[..|actives|] == actives && (boards + [temp])[..|boards|] == boards;
  }

  lemma FleetLinksSnoc(actives: seq<Active>, boards: seq<Board>, active: Active, temp: Board, key: string)
    requires |boards| == |actives|
    ensures FleetLinks(actives + [active], boards + [temp], key)
         == FleetLinks(actives, boards, key) + ForeignLinks(active.endpoint, temp, key)
  {
    hide ForeignLinks;
    assert (actives + [active])[..|actives|] == actives && (boards + [temp])[..|boards|] == boards;
  }

  lemma FleetLinksStep(b: Board, before: Board, actives: seq<Active>, boards: seq<Board>, active: Active, temp: Board, key: string)
    requires |boards| == |actives|
    requires LinksAt(before, key) == LinksAt(b, key) + FleetLinks(actives, boards, key) && before.tiles == b.tiles
    ensures var r := MergeCluster(before, active.endpoint, temp);
      LinksAt(r, key) == LinksAt(b, key) + FleetLinks(actives + [active], boards + [temp], key) && r.tiles == b.tiles
  {
    hide MergeCluster, FleetLinks, ForeignLinks, LinksAt, ForeignEntry;
    FleetLinksSnoc(actives, boards, active, temp, key);
    MergeClusterExact(before, active.endpoint, temp, key);
    Assoc(LinksAt(b, key), FleetLinks(actives, boards, key), ForeignLinks(active.endpoint, temp, key));
  }

  /** What a key ends up with: the links before, then each cluster's, in order. */
  lemma {:induction false} MergeFleetLinks(b: Board, actives: seq<Active>, boards: seq<Board>, key: string)
    requires |boards| == |actives|
    ensures var r := MergeFleet(b, actives, boards);
      LinksAt(r, key) == LinksAt(b, key) + FleetLinks(actives, boards, key) && r.tiles == b.tiles
  {
    if actives == [] {
      assert FleetLinks(actives, boards, key) == [];
    } else {
      var n := |actives| - 1;
      Snoc(actives);
      Snoc(boards);
      hide MergeFleet, MergeCluster, FleetLinks, LinksAt;
      MergeFleetLinks(b, actives[..n], boards[..n], key);
      MergeFleetSnoc(b, actives[..n], boards[..n], actives[n], boards[n]);
      FleetLinksStep(b, MergeFleet(b, actives[..n], boards[..n]), actives[..n], boards[..n], actives[n], boards[n], key);
    }
  }

  /** The first cluster with anything to replicate under a key. */
  function FirstSupplier(actives: seq<Active>, boards: seq<Board>, key: string): (i: Option<nat>)
    requires |boards| == |actives|
    ensures i.Some? ==> i.value < |actives| && ForeignLinks(actives[i.value].endpoint, boards[i.value], key) != []
    ensures i.Some? ==> forall j :: 0 <= j < i.value ==> ForeignLinks(actives[j].endpoint, boards[j], key) == []
    ensures i.None? ==> forall j :: 0 <= j < |actives| ==> ForeignLinks(actives[j].endpoint, boards[j], key) == []
  {
    hide ForeignLinks;
    if actives == [] then None else
      var n := |actives| - 1;
      var first := FirstSupplier(actives[..n], boards[..n], key);
      assert forall j :: 0 <= j < n ==> actives[..n][j] == actives[j] && boards[..n][j] == boards[j];
      if first.None? && ForeignLinks(actives[n].endpoint, boards[n], key) != [] then Some(n) else first
  }

  /** Which keys there are, and whose record they have: earlier details win, and a new
      entry comes from the first cluster with anything to replicate under the key. */
  lemma {:induction false} MergeFleetDetails(b: Board, actives: seq<Active>, boards: seq<Board>, key: string)
    requires |boards| == |actives|
    ensures var r, first := MergeFleet(b, actives, boards), FirstSupplier(actives, boards, key);
      && (key in b.details ==> key in r.details && r.details[key] == b.details[key])
      && (key !in b.details ==> (key in r.details <==> first.Some?))
      && (key !in b.details && first.Some? ==>
            r.details[key] == ForeignEntry(actives[first.value].endpoint, boards[first.value], key))
  {
    if actives != [] {
      var n := |actives| - 1;
      Snoc(actives);
      Snoc(boards);
      FirstSupplierSnoc(actives, boards, key);
      hide MergeFleet, MergeCluster, FirstSupplier, ForeignLinks, ForeignEntry, LinksAt;
      MergeFleetDetails(b, actives[..n], boards[..n], key);
      MergeFleetSnoc(b, actives[..n], boards[..n], actives[n], boards[n]);
      MergeClusterExact(MergeFleet(b, actives[..n], boards[..n]), actives[n].endpoint, boards[n], key);
    }
  }

  lemma FirstSupplierSnoc(actives: seq<Active>, boards: seq<Board>, key: string)
    requires |boards| == |actives| && actives != []
    ensures var n := |actives| - 1;
      var first := FirstSupplier(actives[..n], boards[..n], key);
      FirstSupplier(actives, boards, key)
        == if first.None? && ForeignLinks(actives[n].endpoint, boards[n], key) != [] then Some(n) else first
  {
    hide ForeignLinks;
  }

  lemma {:induction false} MergeFleetWellFormed(b: Board, actives: seq<Active>, boards: seq<Board>)
    requires |boards| == |actives| && WellFormed(b) && forall i :: 0 <= i < |boards| ==> WellFormed(boards[i])
    ensures WellFormed(MergeFleet(b, actives, boards))
  {
    if actives != [] {
      hide ForeignLinks;
      var n := |actives| - 1;
      MergeFleetWellFormed(b, actives[..n], boards[..n]);
    }
  }

  // ---------------------------------------------------------------- isolation

  lemma FleetLinksConcatStep(a1: seq<Active>, b1: seq<Board>, a2: seq<Active>, b2: seq<Board>, active: Active, temp: Board, key: string)
    requires |b1| == |a1| && |b2| == |a2|
    requires FleetLinks(a1 + a2, b1 + b2, key) == FleetLinks(a1, b1, key) + FleetLinks(a2, b2, key)
    ensures FleetLinks(a1 + (a2 + [active]), b1 + (b2 + [temp]), key)
         == FleetLinks(a1, b1, key) + FleetLinks(a2 + [active], b2 + [temp], key)
  {
    hide FleetLinks, ForeignLinks;
    Assoc(a1, a2, [active]);
    Assoc(b1, b2, [temp]);
    FleetLinksSnoc(a1 + a2, b1 + b2, active, temp, key);
    FleetLinksSnoc(a2, b2, active, temp, key);
    Assoc(FleetLinks(a1, b1, key), FleetLinks(a2, b2, key), ForeignLinks(active.endpoint, temp, key));
  }

  lemma {:induction false} FleetLinksConcat(a1: seq<Active>, b1: seq<Board>, a2: seq<Active>, b2: seq<Board>, key: string)
    requires |b1| == |a1| && |b2| == |a2|
    ensures FleetLinks(a1 + a2, b1 + b2, key) == FleetLinks(a1, b1, key) + FleetLinks(a2, b2, key)
  {
    if a2 == [] {
      assert a1 + a2 == a1 && b1 + b2 == b1 && FleetLinks(a2, b2, key) == [];
    } else {
      var n := |a2| - 1;
      Snoc(a2);
      Snoc(b2);
      hide FleetLinks;
      FleetLinksConcat(a1, b1, a2[..n], b2[..n], key);
      FleetLinksConcatStep(a1, b1, a2[..n], b2[..n], a2[n], b2[n], key);
    }
  }

  lemma FleetLinksSplit(actives: seq<Active>, boards: seq<Board>, i: nat, key: string)
    requires |boards| == |actives| && i < |actives|
    ensures FleetLinks(actives, boards, key)
         == FleetLinks(actives[..i], boards[..i], key) + ForeignLinks(actives[i].endpoint, boards[i], key)
          + FleetLinks(actives[i + 1..], boards[i + 1..], key)
  {
    hide ForeignLinks;
    assert actives == actives[..i] + [actives[i]] + actives[i + 1..];
    assert boards == boards[..i] + [boards[i]] + boards[i + 1..];
    FleetLinksConcat(actives[..i] + [actives[i]], boards[..i] + [boards[i]], actives[i + 1..], boards[i + 1..], key);
    FleetLinksConcat(actives[..i], boards[..i], [actives[i]], [boards[i]], key);
    assert [actives[i]][..0] == [] && [boards[i]][..0] == [];
  }

  /** Isolation: whatever cluster i answers, the links of the clusters before and
      after it are the same, and its own sit between them. */
  lemma FleetIsolation(b: Board, actives: seq<Active>, boards: seq<Board>, i: nat, other: Board, key: string)
    requires |boards| == |actives| && i < |actives|
    ensures var before := LinksAt(b, key) + FleetLinks(actives[..i], boards[..i], key);
      var after := FleetLinks(actives[i + 1..], boards[i + 1..], key);
      && LinksAt(MergeFleet(b, actives, boards), key) == before + ForeignLinks(actives[i].endpoint, boards[i], key) + after
      && LinksAt(MergeFleet(b, actives, boards[i := other]), key) == before + ForeignLinks(actives[i].endpoint, other, key) + after
  {
    hide ForeignLinks, MergeFleet, FleetLinks;
    var changed := boards[i := other];
    assert changed[..i] == boards[..i] && changed[i + 1..] == boards[i + 1..];
    MergeFleetLinks(b, actives, boards, key);
    MergeFleetLinks(b, actives, changed, key);
    FleetLinksSplit(actives, boards, i, key);
    FleetLinksSplit(actives, changed, i, key);
  }

  lemma {:induction false} NothingPlaced(srcs: seq<Source>, keys: seq<seq<string>>)
    requires |keys| == |srcs| && forall i :: 0 <= i < |srcs| ==> !Contributes(srcs[i])
    ensures RunPlacements("", srcs, keys) == []
  {
    if srcs != [] {
      NothingPlaced(srcs[..|srcs| - 1], keys[..|srcs| - 1]);
    }
  }

  /** A cluster on which every list fails contributes nothing, to no key. */
  lemma DownClusterSilent(c: Cluster, keys: seq<seq<string>>, endpoint: string, key: string)
    requires |keys| == |ForeignPlan(c)|
    requires forall i :: 0 <= i < |ForeignPlan(c)| ==> !Contributes(ForeignPlan(c)[i])
    ensures ForeignLinks(endpoint, ForeignBoard(c, keys), key) == []
  {
    hide ForeignPlan;
    NothingPlaced(ForeignPlan(c), keys);
  }

  /** Every merged link was marked for replication at its cluster and names the
      cluster in its source. */
  lemma ForeignLinksMarked(endpoint: string, temp: Board, key: string, l: Link)
    requires l in ForeignLinks(endpoint, temp, key)
    ensures exists original :: (
      && original in LinksAt(temp, key) && original.replicate
      && l == original.(source := "foreign:" + endpoint + ":" + original.source))
  {
    var kept := Filter(Replicates(), LinksAt(temp, key));
    FilterMembers(Replicates(), LinksAt(temp, key));
    var i :| 0 <= i < |kept| && Map(Relabelled(endpoint), kept)[i] == l;
    assert kept[i] in kept;
    assert ForeignSource(endpoint) + ":" + kept[i].source == "foreign:" + endpoint + ":" + kept[i].source;
  }

  // ---------------------------------------------------------------- the loops

  method AppendRelabelled(endpoint: string, key: string, links: seq<Link>, maps: BoardMaps)
    requires links != []
    modifies maps`links
    ensures maps.Value() == old(maps.Value()).(links :=
      old(maps.links)[key := LinksAt(old(maps.Value()), key) + Map(Relabelled(endpoint), links)])
  {
    ghost var start := maps.Value();
    var f := Relabelled(endpoint);
    hide Relabelled, Map;
    assert Map(f, []) == [];
    for j := 0 to |links|
      invariant j == 0 ==> maps.Value() == start
      invariant j > 0 ==> maps.Value() == start.(links := start.links[key := LinksAt(start, key) + Map(f, links[..j])])
    {
      assert links[..j + 1] == links[..j] + [links[j]];
      AppendStep(start, maps.Value(), key, links[..j], f, links[j]);
      maps.AppendLink(key, f(links[j]));
    }
    assert links[..|links|] == links;
  }

  lemma FoundDetailsStep(b: Board, endpoint: string, temp: Board, found: set<string>, key: string)
    requires key !in found
    ensures var d := FoundDetails(b, endpoint, temp, found);
      FoundDetails(b, endpoint, temp, found + {key}) == if key in d then d else d[key := ForeignEntry(endpoint, temp, key)]
  {
    hide ForeignEntry;
  }

  lemma FoundLinksStep(b: Board, endpoint: string, temp: Board, found: set<string>, key: string)
    requires key !in found
    ensures FoundLinks(b, endpoint, temp, found + {key})
         == FoundLinks(b, endpoint, temp, found)[key := LinksAt(b, key) + ForeignLinks(endpoint, temp, key)]
  {
    hide ForeignLinks;
  }

  lemma MergeFoundStep(b: Board, endpoint: string, temp: Board, found: set<string>, key: string)
    requires key !in found && ForeignLinks(endpoint, temp, key) != []
    ensures MergeFound(b, endpoint, temp, found + {key}) == MergeKey(MergeFound(b, endpoint, temp, found), endpoint, temp, key)
  {
    FoundDetailsStep(b, endpoint, temp, found, key);
    FoundLinksStep(b, endpoint, temp, found, key);
    assert LinksAt(MergeFound(b, endpoint, temp, found), key) == LinksAt(b, key);
    hide ForeignLinks, FoundDetails, FoundLinks, LinksAt;
  }

  lemma MergeKeysStep(b: Board, endpoint: string, temp: Board, seen: set<string>, key: string)
    requires key !in seen
    ensures MergeKeys(b, endpoint, temp, seen + {key}) == MergeKey(MergeKeys(b, endpoint, temp, seen), endpoint, temp, key)
  {
    hide ForeignLinks, MergeFound;
    var found := set k | k in seen && ForeignLinks(endpoint, temp, k) != [];
    var more := set k | k in seen + {key} && ForeignLinks(endpoint, temp, k) != [];
    if ForeignLinks(endpoint, temp, key) == [] {
      assert more == found;
    } else {
      assert more == found + {key};
      MergeFoundStep(b, endpoint, temp, found, key);
    }
  }

  method MergeTempGroup(endpoint: string, temp: BoardMaps, groupName: string, maps: BoardMaps)
    requires temp != maps && groupName in temp.links
    modifies maps
    ensures maps.Value() == MergeKey(old(maps.Value()), endpoint, temp.Value(), groupName)
  {
    var replicatedLinks := FilterLinksForReplication(temp.links[groupName]);
    if |replicatedLinks| == 0 {
      return;
    }
    if groupName !in maps.details {
      if groupName in temp.details {
        var detail := temp.details[groupName];
        detail := detail.(source := ForeignSource(endpoint));
        maps.details := maps.details[groupName := detail];
      } else {
        maps.details := maps.details[groupName := LinkGroup(groupName, 0, "", groupName, ForeignSource(endpoint), map[], false)];
      }
    }
    AppendRelabelled(endpoint, groupName, replicatedLinks, maps);
  }

  method MergeTemp(endpoint: string, temp: BoardMaps, maps: BoardMaps)
    requires temp != maps
    modifies maps
    ensures maps.Value() == MergeCluster(old(maps.Value()), endpoint, temp.Value())
  {
    ghost var start := maps.Value();
    var unseen := temp.links.Keys;
    ghost var seen: set<string> := {};
    assert MergeKeys(start, endpoint, temp.Value(), seen) == start;
    hide MergeKeys, MergeKey;
    while unseen != {}
      invariant seen <= temp.links.Keys && unseen == temp.links.Keys - seen
      invariant maps.Value() == MergeKeys(start, endpoint, temp.Value(), seen)
      decreases unseen
    {
      var groupName :| groupName in unseen;
      MergeKeysStep(start, endpoint, temp.Value(), seen, groupName);
      MergeTempGroup(endpoint, temp, groupName, maps);
      unseen, seen := unseen - {groupName}, seen + {groupName};
    }
    assert seen == temp.links.Keys;
  }

  ghost predicate FleetKeys(fold: char -> char, actives: seq<Active>, keys: seq<seq<seq<string>>>) {
    && |keys| == |actives|
    && forall i :: 0 <= i < |actives| ==> RunKeys(fold, "", EMPTY_BOARD, ForeignPlan(actives[i].cluster), keys[i])
  }

  /** The boards of the clusters, each from its own answers alone. */
  ghost function FleetBoards(fold: char -> char, actives: seq<Active>, keys: seq<seq<seq<string>>>): (boards: seq<Board>)
    requires FleetKeys(fold, actives, keys)
    ensures |boards| == |actives|
    ensures forall i :: 0 <= i < |boards| ==>
      |keys[i]| == |ForeignPlan(actives[i].cluster)| && boards[i] == ForeignBoard(actives[i].cluster, keys[i])
  {
    seq(|actives|, i requires 0 <= i < |actives| => ForeignBoard(actives[i].cluster, keys[i]))
  }

  /** mergeForeignClusterData */
  method MergeForeignClusterData(fold: char -> char, actives: seq<Active>, maps: BoardMaps)
    returns (ghost keys: seq<seq<seq<string>>>)
    modifies maps
    ensures FleetKeys(fold, actives, keys)
    ensures maps.Value() == MergeFleet(old(maps.Value()), actives, FleetBoards(fold, actives, keys))
  {
    hide RunKeys, ForeignBoard, MergeCluster, ForeignPlan;
    ghost var start := maps.Value();
    keys := [];
    ghost var boards: seq<Board> := [];
    MergeFleetStart(start);
    hide MergeFleet;
    for i := 0 to |actives|
      invariant |keys| == |boards| == i
      invariant forall j :: 0 <= j < i ==> RunKeys(fold, "", EMPTY_BOARD, ForeignPlan(actives[j].cluster), keys[j])
      invariant forall j :: 0 <= j < i ==>
        |keys[j]| == |ForeignPlan(actives[j].cluster)| && boards[j] == ForeignBoard(actives[j].cluster, keys[j])
      invariant maps.Value() == MergeFleet(start, actives[..i], boards)
    {
      ghost var more, temp := CollectAndMerge(fold, actives[i], maps);
      MergeFleetSnoc(start, actives[..i], boards, actives[i], temp);
      assert actives[..i + 1] == actives[..i] + [actives[i]];
      keys, boards := keys + [more], boards + [temp];
    }
    assert actives[..|actives|] == actives;
    assert boards == FleetBoards(fold, actives, keys);
  }

  method CollectAndMerge(fold: char -> char, active: Active, maps: BoardMaps)
    returns (ghost keys: seq<seq<string>>, ghost board: Board)
    modifies maps
    ensures RunKeys(fold, "", EMPTY_BOARD, ForeignPlan(active.cluster), keys)
    ensures |keys| == |ForeignPlan(active.cluster)| && board == ForeignBoard(active.cluster, keys)
    ensures maps.Value() == MergeCluster(old(maps.Value()), active.endpoint, board)
  {
    hide MergeCluster, ForeignPlan, RunPlacements;
    var temp := new BoardMaps();
    keys := CollectForeignLinks(fold, active.cluster, temp);
    board := temp.Value();
    MergeTemp(active.endpoint, temp, maps);
  }
}
