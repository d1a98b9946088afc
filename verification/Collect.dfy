/**
 The collectors: each turns one list into placements on the shared maps. The
 Kubernetes API appears as the outcome of its List calls.
 */
module Collect {
  import opened Wrappers
  import opened Text
  import opened Boards
  import opened Labels
  import GroupClaims

  /** What a List call returns. */
  datatype Listing<T> = Listed(items: seq<T>) | NotFound | Failed

  // -------------------------------------------------------- configured groups

  datatype GroupConfig = GroupConfig(name: string, priority: Int64, priorityClass: string, displayName: string)

  function Configured(details: Details, g: GroupConfig): Details {
    var name := TrimSpace(g.name);
    if name == "" then details else
      var display := TrimSpace(g.displayName);
      details[name := LinkGroup(name, g.priority, TrimSpace(g.priorityClass),
                                if display == "" then name else display, "local", map[], false)]
  }

  function InitialDetails(configs: seq<GroupConfig>): Details {
    if configs == [] then map[] else
      Configured(InitialDetails(configs[..|configs| - 1]), configs[|configs| - 1])
  }

  lemma {:induction false} InitialDetailsNamed(configs: seq<GroupConfig>)
    ensures var d := InitialDetails(configs);
      KeysTrimmed(d) && forall k :: k in d ==> d[k].name == k
  {
    if configs != [] {
      InitialDetailsNamed(configs[..|configs| - 1]);
    }
  }

  /** The last of the configured groups with this name. */
  ghost predicate LastConfigured(configs: seq<GroupConfig>, name: string, i: int) {
    && 0 <= i < |configs| && TrimSpace(configs[i].name) == name != ""
    && forall j :: i < j < |configs| ==> TrimSpace(configs[j].name) != name
  }

  /** Which groups a configuration gives, and with what record: the last one of each name,
      shown under its name where it has no display name. */
  lemma {:induction false} InitialDetailsExact(configs: seq<GroupConfig>, key: string)
    ensures key in InitialDetails(configs) <==> exists i :: LastConfigured(configs, key, i)
    ensures forall i :: LastConfigured(configs, key, i) ==>
              InitialDetails(configs)[key] == LinkGroup(
                key, configs[i].priority, TrimSpace(configs[i].priorityClass),
                if Blank(configs[i].displayName) then key else TrimSpace(configs[i].displayName), "local", map[], false)
  {
    hide TrimSpace, Trimmed, Blank;
    if configs != [] {
      var n := |configs| - 1;
      InitialDetailsExact(configs[..n], key);
      BlankTrims(configs[n].displayName);
      if TrimSpace(configs[n].name) == key && key != "" {
        assert LastConfigured(configs, key, n);
      } else {
        assert forall i :: i < n ==> (LastConfigured(configs[..n], key, i) <==> LastConfigured(configs, key, i));
      }
    }
  }

  method InitLinkGroups(configs: seq<GroupConfig>) returns (result: Details)
    ensures result == InitialDetails(configs)
  {
    result := map[];
    for i := 0 to |configs|
      invariant result == InitialDetails(configs[..i])
    {
      assert configs[..i + 1][..i] == configs[..i];
      var name := TrimSpace(configs[i].name);
      if name == "" {
        continue;
      }
      var displayName := TrimSpace(configs[i].displayName);
      if displayName == "" {
        displayName := name;
      }
      result := result[name := LinkGroup(name, configs[i].priority, TrimSpace(configs[i].priorityClass),
                                         displayName, "local", map[], false)];
    }
    assert configs[..|configs|] == configs;
  }

  // -------------------------------------------------------------- static links

  datatype StaticLink = StaticLink(
    group: string, linkGroup: string, name: string, url: string, target: string, icon: string, groups: seq<string>)

  function FirstNonEmpty(a: string, b: string): string {
    if TrimSpace(a) != "" then a else if TrimSpace(b) != "" then b else ""
  }

  function DefaultTarget(raw: string): string {
    if TrimSpace(raw) == "" then "_self" else raw
  }

  function StaticLabel(l: StaticLink): string {
    FirstNonEmpty(TrimSpace(l.linkGroup), TrimSpace(l.group))
  }

  /** The placement of a static link whose label resolved to `key`. */
  function StaticPlacement(l: StaticLink, key: string): Placement {
    var name := TrimSpace(l.name);
    var url := TrimSpace(l.url);
    if key == "" || name == "" || url == "" then Skip else
      At(key, Link(name, "", url, DefaultTarget(l.target), TrimSpace(l.icon), "static", "", Normalized(l.groups), false))
  }

  /** What a static link becomes. */
  predicate StaticShown(l: StaticLink, link: Link) {
    && !Blank(l.name) && link.name == TrimSpace(l.name)
    && !Blank(l.url) && link.url == TrimSpace(l.url)
    && link.target == (if Blank(l.target) then "_self" else l.target)
    && link.icon == TrimSpace(l.icon) && link.groups == Normalized(l.groups)
    && link.source == "static" && link.linkGroup == link.metadata == "" && !link.replicate
  }

  /** A static link is placed exactly when its group, name and URL are not blank. */
  lemma StaticPlacedIff(l: StaticLink, group: string, key: string, link: Link)
    ensures StaticPlacement(l, group) == At(key, link) <==> key == group != "" && StaticShown(l, link)
  {
    hide TrimSpace, Trimmed, Blank, Normalized, NoDuplicates;
    BlankTrims(l.name);
    BlankTrims(l.url);
    BlankTrims(l.target);
  }

  /** The label of a static link is its linkGroup, or else its group. */
  lemma StaticLabelExact(l: StaticLink)
    ensures StaticLabel(l) == TrimSpace(if Blank(l.linkGroup) then l.group else l.linkGroup)
  {
    BlankTrims(l.linkGroup);
    BlankTrims(l.group);
    TrimFixed(TrimSpace(l.linkGroup));
    TrimFixed(TrimSpace(l.group));
    hide TrimSpace, Trimmed, Blank;
  }

  function StaticPlacements(links: seq<StaticLink>, keys: seq<string>): (ps: seq<Placement>)
    requires |keys| == |links|
    ensures |ps| == |links|
    ensures forall i :: 0 <= i < |ps| ==> ps[i] == StaticPlacement(links[i], keys[i])
  {
    seq(|links|, i requires 0 <= i < |links| => StaticPlacement(links[i], keys[i]))
  }

  /** keys[i] is a possible resolution of links[i]'s label once the links before
      it have been placed. */
  ghost predicate StaticKeys(fold: char -> char, b: Board, links: seq<StaticLink>, keys: seq<string>) {
    && |keys| == |links|
    && forall i :: 0 <= i < |links| ==>
         Resolves(fold, StaticLabel(links[i]), PlaceAll(b, StaticPlacements(links, keys)[..i]).details, keys[i])
  }

  /** One more turn of the loop. */
  lemma StaticKeysSnoc(fold: char -> char, b: Board, links: seq<StaticLink>, keys: seq<string>, key: string)
    requires |keys| < |links| && StaticKeys(fold, b, links[..|keys|], keys)
    requires var i := |keys|;
      Resolves(fold, StaticLabel(links[i]), PlaceAll(b, StaticPlacements(links[..i], keys)).details, key)
    ensures var i := |keys|;
      && StaticKeys(fold, b, links[..i + 1], keys + [key])
      && PlaceAll(b, StaticPlacements(links[..i + 1], keys + [key]))
         == Place(PlaceAll(b, StaticPlacements(links[..i], keys)), StaticPlacement(links[i], key))
  {
    hide Resolves, StaticPlacement, StaticLabel, PlaceAll;
    var i := |keys|;
    var done := StaticPlacements(links[..i], keys);
    var ps := StaticPlacements(links[..i + 1], keys + [key]);
    assert ps == done + [StaticPlacement(links[i], key)];
    assert ps[..i] == done;
    PlaceAllSnoc(b, done, ps[i]);
    forall j | 0 <= j < i + 1
      ensures Resolves(fold, StaticLabel(links[..i + 1][j]), PlaceAll(b, ps[..j]).details, (keys + [key])[j])
    {
      assert ps[..j] == done[..j];
      assert j < i ==> links[..i + 1][j] == links[..i][j] && (keys + [key])[j] == keys[j];
    }
  }

  method CollectStaticLinks(fold: char -> char, links: seq<StaticLink>, maps: BoardMaps) returns (ghost keys: seq<string>)
    modifies maps
    ensures StaticKeys(fold, old(maps.Value()), links, keys)
    ensures maps.Value() == PlaceAll(old(maps.Value()), StaticPlacements(links, keys))
  {
    keys := [];
    ghost var start := maps.Value();
    assert PlaceAll(start, StaticPlacements(links[..0], [])) == start;
    assert StaticKeys(fold, start, links[..0], []);
    hide PlaceAll, StaticKeys, Resolves, StaticLabel, StaticPlacement, StaticPlacements;
    for i := 0 to |links|
      invariant |keys| == i && StaticKeys(fold, start, links[..i], keys)
      invariant maps.Value() == PlaceAll(start, StaticPlacements(links[..i], keys))
    {
      var key := CollectStaticLink(fold, links[i], maps);
      StaticKeysSnoc(fold, start, links, keys, key);
      keys := keys + [key];
    }
    assert links[..|links|] == links;
  }

  /** The body of the loop. */
  method CollectStaticLink(fold: char -> char, link: StaticLink, maps: BoardMaps) returns (groupName: string)
    modifies maps
    ensures Resolves(fold, StaticLabel(link), old(maps.details), groupName)
    ensures maps.Value() == Place(old(maps.Value()), StaticPlacement(link, groupName))
  {
    hide Resolves, TrimSpace, Normalized, StaticLabel;
    groupName := ResolveLinkGroupName(fold, StaticLabel(link), maps.details);
    var name := TrimSpace(link.name);
    var url := TrimSpace(link.url);
    if groupName == "" || name == "" || url == "" {
      return;
    }
    maps.EnsureLinkGroup(groupName);
    var groups := GroupClaims.NormalizedGroups(Some(GroupClaims.Texts(link.groups)));
    maps.AppendLink(groupName, Link(name, "", url, DefaultTarget(link.target), TrimSpace(link.icon),
                                    "static", "", groups, false));
  }

  lemma StaticPlacementKey(l: StaticLink, key: string)
    requires StaticPlacement(l, key).At?
    ensures key != "" && StaticPlacement(l, key).key == key
  {
  }

  /** One static link more adds at most the group it lands in. */
  lemma StaticStep(fold: char -> char, b: Board, links: seq<StaticLink>, keys: seq<string>, n: nat)
    requires StaticKeys(fold, b, links, keys) && n < |links|
    ensures var ps := StaticPlacements(links, keys);
      && Resolves(fold, StaticLabel(links[n]), PlaceAll(b, ps[..n]).details, keys[n])
      && (ps[n].At? ==> keys[n] != "" && PlaceAll(b, ps[..n + 1]).details == Ensure(PlaceAll(b, ps[..n]), keys[n]).details)
      && (ps[n].Skip? ==> PlaceAll(b, ps[..n + 1]).details == PlaceAll(b, ps[..n]).details)
  {
    hide PlaceAll, Resolves, StaticPlacement, StaticLabel;
    var ps := StaticPlacements(links, keys);
    assert ps[..n + 1] == ps[..n] + [ps[n]];
    PlaceAllSnoc(b, ps[..n], ps[n]);
    if ps[n].At? {
      StaticPlacementKey(links[n], keys[n]);
    }
  }

  /** Whatever static links are configured, labels that named at most one group
      still do after them. */
  lemma {:induction false} StaticKeepUnambiguous(fold: char -> char, b: Board, links: seq<StaticLink>, keys: seq<string>, n: nat)
    requires Unambiguous(fold, b.details) && StaticKeys(fold, b, links, keys) && n <= |links|
    ensures Unambiguous(fold, PlaceAll(b, StaticPlacements(links, keys)[..n]).details)
  {
    var ps := StaticPlacements(links, keys);
    hide Unambiguous, StaticKeys, Resolves, StaticLabel, Ensure;
    if n > 0 {
      hide PlaceAll;
      StaticKeepUnambiguous(fold, b, links, keys, n - 1);
      StaticStep(fold, b, links, keys, n - 1);
      if ps[n - 1].At? {
        EnsureUnambiguous(fold, StaticLabel(links[n - 1]), PlaceAll(b, ps[..n - 1]), keys[n - 1]);
      }
    }
  }

  /** Nor does it ever happen that static links make a label contested, or add a
      group whose key has outer whitespace. */
  lemma {:induction false} StaticKeepUncontested(fold: char -> char, b: Board, links: seq<StaticLink>, keys: seq<string>, n: nat)
    requires Uncontested(fold, b.details) && StaticKeys(fold, b, links, keys) && n <= |links|
    ensures Uncontested(fold, PlaceAll(b, StaticPlacements(links, keys)[..n]).details)
  {
    var ps := StaticPlacements(links, keys);
    if n > 0 {
      StaticKeepUncontested(fold, b, links, keys, n - 1);
      StaticStep(fold, b, links, keys, n - 1);
      hide PlaceAll, Resolves, StaticLabel, StaticKeys, Ensure, Uncontested;
      if ps[n - 1].At? {
        EnsureUncontested(fold, StaticLabel(links[n - 1]), PlaceAll(b, ps[..n - 1]), keys[n - 1]);
      }
    }
  }

  lemma {:induction false} StaticKeepTrimmed(fold: char -> char, b: Board, links: seq<StaticLink>, keys: seq<string>, n: nat)
    requires KeysTrimmed(b.details) && StaticKeys(fold, b, links, keys) && n <= |links|
    ensures KeysTrimmed(PlaceAll(b, StaticPlacements(links, keys)[..n]).details)
  {
    var ps := StaticPlacements(links, keys);
    if n > 0 {
      StaticKeepTrimmed(fold, b, links, keys, n - 1);
      StaticStep(fold, b, links, keys, n - 1);
      hide PlaceAll, Resolves, StaticLabel, StaticKeys, Ensure, KeysTrimmed;
      if ps[n - 1].At? {
        EnsureTrimmed(fold, StaticLabel(links[n - 1]), PlaceAll(b, ps[..n - 1]), keys[n - 1]);
      }
    }
  }

  /** With labels uncontested, the map's enumeration order has no influence on
      where links land. */
  lemma {:induction false} StaticKeysUnique(fold: char -> char, b: Board, links: seq<StaticLink>,
                                            keys: seq<string>, other: seq<string>, n: nat)
    requires Uncontested(fold, b.details) && n <= |links|
    requires StaticKeys(fold, b, links, keys) && StaticKeys(fold, b, links, other)
    ensures keys[..n] == other[..n]
  {
    if n > 0 {
      StaticKeysUnique(fold, b, links, keys, other, n - 1);
      StaticKeyUnique(fold, b, links, keys, other, n - 1);
    }
  }

  lemma StaticKeyUnique(fold: char -> char, b: Board, links: seq<StaticLink>,
                        keys: seq<string>, other: seq<string>, n: nat)
    requires Uncontested(fold, b.details) && n < |links|
    requires StaticKeys(fold, b, links, keys) && StaticKeys(fold, b, links, other)
    requires keys[..n] == other[..n]
    ensures keys[..n + 1] == other[..n + 1]
  {
    hide PlaceAll, Resolves, Uncontested, StaticPlacement;
    var ps, qs := StaticPlacements(links, keys), StaticPlacements(links, other);
    forall i | 0 <= i < n ensures ps[i] == qs[i] {
      assert keys[..n][i] == keys[i] && other[..n][i] == other[i];
    }
    assert ps[..n] == qs[..n];
    StaticKeepUncontested(fold, b, links, keys, n);
    ResolveUnique(fold, StaticLabel(links[n]), PlaceAll(b, ps[..n]).details, keys[n], other[n]);
    assert keys[..n + 1] == keys[..n] + [keys[n]] && other[..n + 1] == other[..n] + [other[n]];
  }

  /** Wherever the links land, the groups there are afterwards are the same: a
      contested label only ever resolves to groups that are there already. */
  lemma {:induction false} StaticDetails(fold: char -> char, b: Board, links: seq<StaticLink>,
                                         keys: seq<string>, other: seq<string>, n: nat)
    requires StaticKeys(fold, b, links, keys) && StaticKeys(fold, b, links, other) && n <= |links|
    ensures PlaceAll(b, StaticPlacements(links, keys)[..n]).details == PlaceAll(b, StaticPlacements(links, other)[..n]).details
  {
    var ps, qs := StaticPlacements(links, keys), StaticPlacements(links, other);
    hide StaticKeys, PlaceAll;
    if n == 0 {
      assert ps[..0] == qs[..0];
    } else {
      StaticDetails(fold, b, links, keys, other, n - 1);
      StaticDetailsStep(fold, b, links, keys, other, n - 1);
    }
  }

  lemma StaticDetailsStep(fold: char -> char, b: Board, links: seq<StaticLink>, keys: seq<string>, other: seq<string>, n: nat)
    requires StaticKeys(fold, b, links, keys) && StaticKeys(fold, b, links, other) && n < |links|
    requires PlaceAll(b, StaticPlacements(links, keys)[..n]).details == PlaceAll(b, StaticPlacements(links, other)[..n]).details
    ensures PlaceAll(b, StaticPlacements(links, keys)[..n + 1]).details == PlaceAll(b, StaticPlacements(links, other)[..n + 1]).details
  {
    var ps := StaticPlacements(links, keys);
    var d := PlaceAll(b, ps[..n]).details;
    hide StaticKeys, PlaceAll, Resolves, StaticLabel, StaticPlacement;
    StaticStep(fold, b, links, keys, n);
    StaticStep(fold, b, links, other, n);
    AnswersKnown(fold, StaticLabel(links[n]), d, keys[n], other[n]);
  }

  ghost predicate StaticDetermined(fold: char -> char, b: Board, links: seq<StaticLink>) {
    forall keys, other :: StaticKeys(fold, b, links, keys) && StaticKeys(fold, b, links, other) ==> keys == other
  }

  /** Every list of static links lands in groups fixed by the configuration exactly
      when no trimmed label that is no key matches two groups. */
  lemma StaticDeterminedIff(fold: char -> char, b: Board)
    ensures (forall links :: StaticDetermined(fold, b, links)) <==> Uncontested(fold, b.details)
  {
    hide StaticKeys, StaticDetermined;
    if Uncontested(fold, b.details) {
      forall links ensures StaticDetermined(fold, b, links) {
        StaticDeterminedAll(fold, b, links);
      }
    } else {
      var name, k1, k2 :| ContestedBy(fold, b.details, name, k1, k2) && k1 != k2;
      ContestedStatic(fold, b, name, k1, k2);
    }
  }

  lemma StaticDeterminedAll(fold: char -> char, b: Board, links: seq<StaticLink>)
    requires Uncontested(fold, b.details)
    ensures StaticDetermined(fold, b, links)
  {
    forall keys, other | StaticKeys(fold, b, links, keys) && StaticKeys(fold, b, links, other) ensures keys == other {
      StaticKeysUnique(fold, b, links, keys, other, |links|);
      assert keys[..|links|] == keys && other[..|links|] == other;
    }
  }

  lemma ContestedStatic(fold: char -> char, b: Board, name: string, k1: string, k2: string)
    requires ContestedBy(fold, b.details, name, k1, k2) && k1 != k2
    ensures !StaticDetermined(fold, b, [StaticLink("", name, "x", "x", "", "", [])])
  {
    var links := [StaticLink("", name, "x", "x", "", "", [])];
    TrimFixed(name);
    assert StaticLabel(links[0]) == name;
    forall k | Matches(fold, b.details, k, name) ensures StaticKeys(fold, b, links, [k]) {
      assert StaticPlacements(links, [k])[..0] == [];
      assert PlaceAll(b, []) == b;
    }
    assert [k1][0] != [k2][0];
  }

  /** A link's group still matches the link's label later on. */
  lemma LandedMatches(fold: char -> char, b: Board, links: seq<StaticLink>, keys: seq<string>, i: nat, j: nat)
    requires StaticKeys(fold, b, links, keys) && i < j <= |links|
    requires StaticPlacements(links, keys)[i].At?
    ensures Matches(fold, PlaceAll(b, StaticPlacements(links, keys)[..j]).details, keys[i], TrimSpace(StaticLabel(links[i])))
  {
    var ps := StaticPlacements(links, keys);
    hide PlaceAll, Resolves, StaticKeys, StaticLabel, StaticPlacement;
    StaticStep(fold, b, links, keys, i);
    EnsuredMatches(fold, StaticLabel(links[i]), PlaceAll(b, ps[..i]), keys[i]);
    PlaceAllKeeps(b, ps, i + 1, j, keys[i]);
  }

  /** Labels that differ only in case or outer whitespace land in one group. */
  lemma SameLabelSameGroup(fold: char -> char, b: Board, links: seq<StaticLink>, keys: seq<string>, i: nat, j: nat)
    requires Unambiguous(fold, b.details) && StaticKeys(fold, b, links, keys)
    requires i < j < |links|
    requires StaticPlacements(links, keys)[i].At? && StaticPlacements(links, keys)[j].At?
    requires EqualFold(fold, TrimSpace(StaticLabel(links[i])), TrimSpace(StaticLabel(links[j])))
    ensures keys[i] == keys[j]
  {
    var d := PlaceAll(b, StaticPlacements(links, keys)[..j]).details;
    LandedMatches(fold, b, links, keys, i, j);
    MatchesFolded(fold, d, keys[i], TrimSpace(StaticLabel(links[i])), TrimSpace(StaticLabel(links[j])));
    StaticKeepUnambiguous(fold, b, links, keys, j);
    ResolvesToMatch(fold, StaticLabel(links[j]), d, keys[i], keys[j]);
  }
}
