/**
 What becomes of each kind of object. The theorems speak of a cluster's lists by name
 and of each object's own fields: which list is read for which kind, in what order, and
 which links end up under a group.
 */
module Kinds {
  import opened Text
  import opened Sequences
  import opened Boards
  import opened Labels
  import opened Collect
  import opened Sources
  import opened Collection
  import opened Fleet
  import opened FleetLookups

  // ----------------------------------------------------------------- the lists

  function ItemsOf<T>(listing: Listing<T>): seq<T> {
    if listing.Listed? then listing.items else []
  }

  function Offered<T>(offer: Offer<T>): seq<T> {
    if offer.available then ItemsOf(offer.listing) else []
  }

  /** The labelled resources of the kind that this source word stands for. */
  function ResourcesOf(c: Cluster): string -> seq<Resource> {
    (word: string) =>
      if word == "ingress" then Offered(c.ingresses)
      else if word == "httproute" then Offered(c.httpRoutes)
      else if word == "grpcroute" then Offered(c.grpcRoutes)
      else if word == "tlsroute" then Offered(c.tlsRoutes)
      else if word == "tcproute" then Offered(c.tcpRoutes)
      else if word == "ingressroute" then
        if c.traefikRoutes.available then ItemsOf(c.traefikRoutes.listing) else Offered(c.containousRoutes)
      else if word == "service" then ItemsOf(c.services)
      else if word == "endpointslice" then ItemsOf(c.endpointSlices)
      else if word == "dnsendpoint" then Offered(c.dnsEndpoints)
      else []
  }

  /** At a foreign cluster Ingresses are listed without asking whether there are any. */
  function ForeignResourcesOf(c: Cluster): string -> seq<Resource> {
    ResourcesOf(c.(ingresses := Offer(true, c.ingresses.listing)))
  }

  const KINDS := ["ingress", "httproute", "grpcroute", "tlsroute", "tcproute", "ingressroute", "service", "endpointslice", "dnsendpoint"]
  const FOREIGN_KINDS := ["ingress", "service", "httproute", "grpcroute", "tlsroute", "tcproute", "ingressroute"]

  /** The links of these kinds under a key, kind by kind. */
  function KindLinks(resources: string -> seq<Resource>, words: seq<string>, key: string): seq<Link> {
    if words == [] then [] else
      var n := |words| - 1;
      KindLinks(resources, words[..n], key) + Picked(ResourcePlacements(words[n], resources(words[n])), key)
  }

  /** The source reads this list, as links of this word. */
  predicate Reads(src: Source, word: string, rs: seq<Resource>) {
    src.Labelled? && src.word == word && rs == if Contributes(src) then src.offer.listing.items else []
  }

  lemma {:induction false} RunByKind(instance: string, plan: seq<Source>, keys: seq<seq<string>>,
                                     resources: string -> seq<Resource>, words: seq<string>, key: string)
    requires |plan| == |keys| == |words|
    requires forall i :: 0 <= i < |plan| ==> Reads(plan[i], words[i], resources(words[i]))
    ensures Picked(RunPlacements(instance, plan, keys), key) == KindLinks(resources, words, key)
  {
    if plan != [] {
      var n := |plan| - 1;
      hide Picked, ResourcePlacement, Contributes;
      assert forall i :: 0 <= i < n ==> plan[..n][i] == plan[i] && words[..n][i] == words[i];
      RunByKind(instance, plan[..n], keys[..n], resources, words[..n], key);
      SourceByKind(instance, plan[n], keys[n], words[n], resources(words[n]));
      PickedConcat(RunPlacements(instance, plan[..n], keys[..n]), SourcePlacements(instance, plan[n], keys[n]), key);
    }
  }

  lemma SourceByKind(instance: string, src: Source, keys: seq<string>, word: string, rs: seq<Resource>)
    requires Reads(src, word, rs)
    ensures SourcePlacements(instance, src, keys) == ResourcePlacements(word, rs)
  {
    hide ResourcePlacement;
  }

  // ------------------------------------------------------ the node's own links

  /** The groups the apps resolved to. */
  function AppChoice(c: Cluster, ch: Choices): seq<string>
    requires |ch.sourceKeys| == |LocalPlan(c)|
  {
    if Offered(c.forecastle) == [] then [] else ch.sourceKeys[0]
  }

  lemma LocalPlanReads(c: Cluster)
    ensures |LocalPlan(c)| == |KINDS| + 1 && LocalPlan(c)[0] == Forecastle(c.forecastle)
    ensures forall i :: 0 <= i < |KINDS| ==> Reads(LocalPlan(c)[1..][i], KINDS[i], ResourcesOf(c)(KINDS[i]))
  {
  }

  lemma AppChoiceLength(s: Settings, c: Cluster, ch: Choices)
    requires !LocalFails(c) && LegalChoices(s, c, ch)
    ensures |ch.sourceKeys| == |LocalPlan(c)| && |AppChoice(c, ch)| == |Offered(c.forecastle)|
    ensures SourcePlacements(s.forecastleInstance, Forecastle(c.forecastle), ch.sourceKeys[0])
         == ForecastlePlacements(s.forecastleInstance, Offered(c.forecastle), AppChoice(c, ch))
  {
    LegalLengths(s, c, ch);
    Collection.FirstKeys(s.fold, s.forecastleInstance, AfterBookmarks(s, c, ch.staticKeys), LocalPlan(c), ch.sourceKeys);
    hide AfterBookmarks, ForecastlePlacement;
    if c.forecastle.available && c.forecastle.listing.Listed? {
      KeysLength(s.fold, s.forecastleInstance, AfterBookmarks(s, c, ch.staticKeys), c.forecastle.listing.items, ch.sourceKeys[0]);
    }
  }

  /** Under each key: the static links filed there, the bookmarks, the apps, and then each
      kind of labelled resource, every one from its own list. */
  lemma LocalLinksByKind(s: Settings, c: Cluster, ch: Choices, key: string)
    requires !LocalFails(c) && LegalChoices(s, c, ch)
    ensures |ch.staticKeys| == |s.staticLinks| && |ch.sourceKeys| == |LocalPlan(c)| && |AppChoice(c, ch)| == |Offered(c.forecastle)|
    ensures LinksAt(LocalBoard(s, c, ch), key)
         == Picked(StaticPlacements(s.staticLinks, ch.staticKeys), key)
          + Picked(BookmarkPlacements(ReplicateFlags(ItemsOf(c.bookmarkGroups)), ItemsOf(c.bookmarks)), key)
          + Picked(ForecastlePlacements(s.forecastleInstance, Offered(c.forecastle), AppChoice(c, ch)), key)
          + KindLinks(ResourcesOf(c), KINDS, key)
  {
    LegalLengths(s, c, ch);
    LocalBoardExact(s, c, ch, key);
    AppChoiceLength(s, c, ch);
    LocalPlanReads(c);
    hide LocalBoard, LegalChoices, LocalPlan, Picked, RunPlacements, SourcePlacements, Reads, AppChoice;
    hide StaticPlacement, BookmarkPlacement, ForecastlePlacement, ReplicateFlags, ResourcesOf, KindLinks, SomeFails;
    var fixed := StaticPlacements(s.staticLinks, ch.staticKeys);
    var bookmarks := BookmarkPlacements(ReplicateFlags(c.bookmarkGroups.items), c.bookmarks.items);
    var apps := ForecastlePlacements(s.forecastleInstance, Offered(c.forecastle), AppChoice(c, ch));
    var rest := RunPlacements(s.forecastleInstance, LocalPlan(c)[1..], ch.sourceKeys[1..]);
    HeadTail(ch.sourceKeys);
    RunFirst(s.forecastleInstance, LocalPlan(c), ch.sourceKeys[0], ch.sourceKeys[1..]);
    RunByKind(s.forecastleInstance, LocalPlan(c)[1..], ch.sourceKeys[1..], ResourcesOf(c), KINDS, key);
    PickedConcat(apps, rest, key);
    PickedConcat(fixed, bookmarks, key);
    PickedConcat(fixed + bookmarks, apps + rest, key);
    Assoc(Picked(fixed, key) + Picked(bookmarks, key), Picked(apps, key), Picked(rest, key));
  }

  lemma {:induction false} PickedIff(ps: seq<Placement>, key: string, link: Link)
    ensures link in Picked(ps, key) <==> exists i :: 0 <= i < |ps| && ps[i] == At(key, link)
  {
    if ps != [] {
      var n := |ps| - 1;
      PickedIff(ps[..n], key, link);
      assert forall i :: 0 <= i < n ==> ps[..n][i] == ps[i];
    }
  }

  /** One of these resources is shown so. */
  ghost predicate OfKind(word: string, rs: seq<Resource>, key: string, link: Link) {
    exists r :: r in rs && ResourceShown(word, r, key, link)
  }

  /** A resource of one of these kinds is shown so. */
  ghost predicate OfKinds(resources: string -> seq<Resource>, words: seq<string>, key: string, link: Link) {
    exists i :: 0 <= i < |words| && OfKind(words[i], resources(words[i]), key, link)
  }

  lemma {:induction false} KindLinksIff(resources: string -> seq<Resource>, words: seq<string>, key: string, link: Link)
    ensures link in KindLinks(resources, words, key) <==> OfKinds(resources, words, key, link)
  {
    if words != [] {
      var n := |words| - 1;
      hide OfKind, OfKinds, Picked, ResourcePlacements;
      KindLinksIff(resources, words[..n], key, link);
      KindIff(words[n], resources(words[n]), key, link);
      OfKindsSnoc(resources, words, key, link);
    }
  }

  lemma OfKindsSnoc(resources: string -> seq<Resource>, words: seq<string>, key: string, link: Link)
    requires words != []
    ensures var n := |words| - 1;
      OfKinds(resources, words, key, link) <==> OfKinds(resources, words[..n], key, link) || OfKind(words[n], resources(words[n]), key, link)
  {
    hide OfKind;
    assert forall i :: 0 <= i < |words| - 1 ==> words[..|words| - 1][i] == words[i];
  }

  lemma KindIff(word: string, rs: seq<Resource>, key: string, link: Link)
    ensures link in Picked(ResourcePlacements(word, rs), key) <==> OfKind(word, rs, key, link)
  {
    hide ResourceShown, ResourcePlacement, Picked;
    var ps := ResourcePlacements(word, rs);
    PickedIff(ps, key, link);
    forall i | 0 <= i < |rs| ensures ps[i] == At(key, link) <==> ResourceShown(word, rs[i], key, link) {
      ResourcePlacedIff(word, rs[i], key, link);
    }
    if r :| r in rs && ResourceShown(word, r, key, link) {
      var i :| 0 <= i < |rs| && rs[i] == r;
      assert ps[i] == At(key, link);
    }
  }

  /** One of the j-th app's links, filed where its label resolved to. */
  predicate FromApp(instance: string, apps: seq<ForecastleApp>, keys: seq<string>, j: int, key: string, link: Link)
    requires |keys| == |apps|
  {
    0 <= j < |apps| && key == keys[j] && !Blank(key) && AppShown(instance, apps[j], link)
  }

  predicate FromStatic(links: seq<StaticLink>, keys: seq<string>, i: int, key: string, link: Link)
    requires |keys| == |links|
  {
    0 <= i < |links| && key == keys[i] != "" && StaticShown(links[i], link)
  }

  ghost predicate FromApps(instance: string, apps: seq<ForecastleApp>, keys: seq<string>, key: string, link: Link) {
    |keys| == |apps| && exists j :: FromApp(instance, apps, keys, j, key, link)
  }

  ghost predicate FromStatics(links: seq<StaticLink>, keys: seq<string>, key: string, link: Link) {
    |keys| == |links| && exists i :: FromStatic(links, keys, i, key, link)
  }

  ghost predicate FromBookmarks(items: seq<BookmarkGroup>, bms: seq<Bookmark>, key: string, link: Link) {
    exists bm :: bm in bms && BookmarkShown(items, bm, key, link)
  }

  lemma AppsIff(instance: string, apps: seq<ForecastleApp>, keys: seq<string>, key: string, link: Link)
    requires |keys| == |apps|
    ensures link in Picked(ForecastlePlacements(instance, apps, keys), key) <==> FromApps(instance, apps, keys, key, link)
  {
    hide AppShown, ForecastlePlacement, Picked, Blank;
    var ps := ForecastlePlacements(instance, apps, keys);
    PickedIff(ps, key, link);
    forall j ensures FromApp(instance, apps, keys, j, key, link) <==> 0 <= j < |ps| && ps[j] == At(key, link) {
      if 0 <= j < |ps| {
        AppPlacedIff(instance, apps[j], keys[j], key, link);
      }
    }
  }

  lemma StaticIff(links: seq<StaticLink>, keys: seq<string>, key: string, link: Link)
    requires |keys| == |links|
    ensures link in Picked(StaticPlacements(links, keys), key) <==> FromStatics(links, keys, key, link)
  {
    hide StaticShown, StaticPlacement, Picked;
    var ps := StaticPlacements(links, keys);
    PickedIff(ps, key, link);
    forall i ensures FromStatic(links, keys, i, key, link) <==> 0 <= i < |ps| && ps[i] == At(key, link) {
      if 0 <= i < |ps| {
        StaticPlacedIff(links[i], keys[i], key, link);
      }
    }
  }

  lemma BookmarksIff(items: seq<BookmarkGroup>, bms: seq<Bookmark>, key: string, link: Link)
    ensures link in Picked(BookmarkPlacements(ReplicateFlags(items), bms), key)
       <==> FromBookmarks(items, bms, key, link)
  {
    hide BookmarkShown, BookmarkPlacement, Picked, ReplicateFlags;
    var ps := BookmarkPlacements(ReplicateFlags(items), bms);
    PickedIff(ps, key, link);
    forall i | 0 <= i < |bms| ensures ps[i] == At(key, link) <==> BookmarkShown(items, bms[i], key, link) {
      BookmarkPlacedIff(items, bms[i], key, link);
    }
    if bm :| bm in bms && BookmarkShown(items, bm, key, link) {
      var i :| 0 <= i < |bms| && bms[i] == bm;
      assert ps[i] == At(key, link);
    }
  }

  /** The link is that of a configured link, a bookmark, an app, or a labelled resource of
      some kind, filed under the key. */
  ghost predicate Stems(s: Settings, c: Cluster, ch: Choices, key: string, link: Link) {
    || FromStatics(s.staticLinks, ch.staticKeys, key, link)
    || FromBookmarks(ItemsOf(c.bookmarkGroups), ItemsOf(c.bookmarks), key, link)
    || (|ch.sourceKeys| == |LocalPlan(c)| && FromApps(s.forecastleInstance, Offered(c.forecastle), AppChoice(c, ch), key, link))
    || OfKinds(ResourcesOf(c), KINDS, key, link)
  }

  /** The links of a collection, told from the fields of the objects it reads. */
  lemma CollectedIff(s: Settings, c: Cluster, ch: Choices, key: string, link: Link)
    requires !LocalFails(c) && LegalChoices(s, c, ch)
    ensures |ch.staticKeys| == |s.staticLinks| && |ch.sourceKeys| == |LocalPlan(c)| && |AppChoice(c, ch)| == |Offered(c.forecastle)|
    ensures link in LinksAt(LocalBoard(s, c, ch), key) <==> Stems(s, c, ch, key, link)
  {
    LocalLinksByKind(s, c, ch, key);
    hide LocalBoard, LegalChoices, LocalFails, Picked, FromStatics, FromApps, FromBookmarks, OfKinds, KindLinks, AppChoice, ResourcesOf;
    hide StaticPlacement, BookmarkPlacement, ForecastlePlacement, ReplicateFlags, LinksAt, LocalPlan;
    StaticIff(s.staticLinks, ch.staticKeys, key, link);
    BookmarksIff(ItemsOf(c.bookmarkGroups), ItemsOf(c.bookmarks), key, link);
    AppsIff(s.forecastleInstance, Offered(c.forecastle), AppChoice(c, ch), key, link);
    KindLinksIff(ResourcesOf(c), KINDS, key, link);
  }

  // ---------------------------------------------------------- the groups' records

  lemma PlaceAllRecord(b: Board, ps: seq<Placement>, key: string)
    ensures var r := PlaceAll(b, ps);
      && (key in r.details <==> key in b.details || Picked(ps, key) != [])
      && RecordAt(r, key) == RecordAt(b, key)
  {
    hide PlaceAll, Picked;
    PlaceAllExact(b, ps, key);
  }

  lemma NothingDescribed(items: seq<BookmarkGroup>, record: LinkGroup, key: string)
    requires Last(items, key, Any()).None?
    ensures DescribedBy(items, record, key) == record
  {
    forall i ensures !Bears(items, key, Titled(), i) && !Bears(items, key, WithProperties(), i) {
      assert !Bears(items, key, Any(), i);
    }
  }

  lemma StagesRecord(details: Details, fixed: seq<Placement>, groups: seq<BookmarkGroup>, bookmarks: seq<Placement>,
                     resources: seq<Placement>, tiles: seq<InfoTile>, key: string)
    ensures var d, collected := Stages(details, fixed, groups, bookmarks, resources, tiles).details, Picked(fixed + bookmarks + resources, key);
      var held := key in details || Last(groups, key, Any()).Some? || collected != [];
      var first := if key in details then details[key] else LinkGroup(key, 0, "", key, if held then "local" else "infotile", map[], false);
      && (key in d <==> held || PickedTiles(tiles, key) != [])
      && (key in d ==> d[key] == DescribedBy(groups, first, key))
  {
    hide PlaceAll, DescribedAll, PlaceTiles, Picked, PickedTiles, DescribedBy, Last;
    var b0 := EMPTY_BOARD.(details := details);
    var b1 := PlaceAll(b0, fixed);
    var b2 := DescribedAll(b1, groups);
    var b3 := PlaceAll(b2, bookmarks);
    PlaceAllRecord(b0, fixed, key);
    DescribedExact(b1, groups, key);
    PlaceAllRecord(b2, bookmarks, key);
    PlaceAllRecord(b3, resources, key);
    PlaceTilesExact(PlaceAll(b3, resources), tiles, key);
    PickedConcat(fixed, bookmarks, key);
    PickedConcat(fixed + bookmarks, resources, key);
    if Last(groups, key, Any()).None? {
      NothingDescribed(groups, LinkGroup(key, 0, "", key, "infotile", map[], false), key);
    }
  }

  /** Which groups a collection ends with, and with what record: a configured one, or the
      default one, and what the BookmarkGroups of its name make of it. A group that only
      tiles are filed under says so. */
  lemma RecordExact(s: Settings, c: Cluster, ch: Choices, key: string)
    requires !LocalFails(c) && LegalChoices(s, c, ch)
    ensures |ch.staticKeys| == |s.staticLinks| && |ch.sourceKeys| == |LocalPlan(c)|
    ensures var b, configured, groups := LocalBoard(s, c, ch), InitialDetails(s.linkGroups), ItemsOf(c.bookmarkGroups);
      var held := key in configured || Last(groups, key, Any()).Some? || LinksAt(b, key) != [];
      var first := if key in configured then configured[key] else LinkGroup(key, 0, "", key, if held then "local" else "infotile", map[], false);
      && (key in b.details <==> held || TilesAt(b, key) != [])
      && (key in b.details ==> b.details[key] == DescribedBy(groups, first, key))
  {
    LegalLengths(s, c, ch);
    LocalBoardExact(s, c, ch, key);
    hide LegalChoices, Stages, Picked, PickedTiles, DescribedBy, Last, LocalPlan, RunPlacements, StaticPlacement, BookmarkPlacement, LinksAt, TilesAt;
    StagesRecord(InitialDetails(s.linkGroups), StaticPlacements(s.staticLinks, ch.staticKeys), c.bookmarkGroups.items,
                 BookmarkPlacements(ReplicateFlags(c.bookmarkGroups.items), c.bookmarks.items),
                 RunPlacements(s.forecastleInstance, LocalPlan(c), ch.sourceKeys), c.infoTiles.items, key);
  }

  // ------------------------------------------------------------- kind by kind

  function From(word: string): Link -> bool {
    (l: Link) => l.source == word
  }

  lemma {:induction false} KindLinksFrom(resources: string -> seq<Resource>, words: seq<string>, key: string, word: string)
    requires NoDuplicates(words)
    ensures Filter(From(word), KindLinks(resources, words, key))
         == if word in words then Picked(ResourcePlacements(word, resources(word)), key) else []
  {
    if words != [] {
      var n := |words| - 1;
      assert words == words[..n] + [words[n]];
      hide ResourcePlacement, Picked, Filter;
      assert forall i, j :: 0 <= i < j < n ==> words[..n][i] != words[..n][j];
      KindLinksFrom(resources, words[..n], key, word);
      FilterConcat(From(word), KindLinks(resources, words[..n], key), Picked(ResourcePlacements(words[n], resources(words[n])), key));
      KindFrom(words[n], resources(words[n]), key, word);
    }
  }

  lemma KindFrom(kind: string, rs: seq<Resource>, key: string, word: string)
    ensures var links := Picked(ResourcePlacements(kind, rs), key);
      Filter(From(word), links) == if word == kind then links else []
  {
    hide ResourcePlacement, Picked, ResourceShown;
    var links := Picked(ResourcePlacements(kind, rs), key);
    forall l | l in links ensures l.source == kind {
      KindIff(kind, rs, key, l);
      var r :| r in rs && ResourceShown(kind, r, key, l);
      assert l.source == kind by { ShownSource(kind, r, key, l); }
    }
    if word == kind {
      FilterAll(From(word), links);
    } else {
      FilterNone(From(word), links);
    }
  }

  lemma ShownSource(kind: string, r: Resource, key: string, link: Link)
    requires ResourceShown(kind, r, key, link)
    ensures link.source == kind
  {
  }

  /** Conservation kind by kind: the links of a kind under a key are those of its own
      list's resources, each once and in order. */
  lemma EachKindFromItsList(s: Settings, c: Cluster, ch: Choices, key: string, word: string)
    requires !LocalFails(c) && LegalChoices(s, c, ch) && word in KINDS
    ensures |ch.staticKeys| == |s.staticLinks| && |ch.sourceKeys| == |LocalPlan(c)|
    ensures Filter(From(word), LinksAt(LocalBoard(s, c, ch), key)) == Picked(ResourcePlacements(word, ResourcesOf(c)(word)), key)
  {
    LocalLinksByKind(s, c, ch, key);
    NotAKind(word);
    hide LocalBoard, LegalChoices, LocalFails, Picked, Filter, StaticShown, AppShown, BookmarkShown, KindLinks, AppChoice, ResourcesOf, Blank;
    hide StaticPlacement, BookmarkPlacement, ForecastlePlacement, ResourcePlacement, ReplicateFlags, LinksAt, LocalPlan;
    var fixed := Picked(StaticPlacements(s.staticLinks, ch.staticKeys), key);
    var bookmarks := Picked(BookmarkPlacements(ReplicateFlags(ItemsOf(c.bookmarkGroups)), ItemsOf(c.bookmarks)), key);
    var apps := Picked(ForecastlePlacements(s.forecastleInstance, Offered(c.forecastle), AppChoice(c, ch)), key);
    var kinds := KindLinks(ResourcesOf(c), KINDS, key);
    forall l: Link | l in fixed + bookmarks + apps ensures l.source != word {
      OtherSource(s, c, ch, key, l);
    }
    FilterConcat(From(word), fixed + bookmarks + apps, kinds);
    FilterNone(From(word), fixed + bookmarks + apps);
    KindLinksFrom(ResourcesOf(c), KINDS, key, word);
  }

  lemma NotAKind(word: string)
    ensures word in KINDS ==> word != "static" && word != "bookmark" && word != "forecastleapp"
    ensures NoDuplicates(KINDS)
  {
  }

  lemma OtherSource(s: Settings, c: Cluster, ch: Choices, key: string, l: Link)
    requires |ch.staticKeys| == |s.staticLinks| && |ch.sourceKeys| == |LocalPlan(c)| && |AppChoice(c, ch)| == |Offered(c.forecastle)|
    requires l in Picked(StaticPlacements(s.staticLinks, ch.staticKeys), key)
                + Picked(BookmarkPlacements(ReplicateFlags(ItemsOf(c.bookmarkGroups)), ItemsOf(c.bookmarks)), key)
                + Picked(ForecastlePlacements(s.forecastleInstance, Offered(c.forecastle), AppChoice(c, ch)), key)
    ensures l.source == "static" || l.source == "bookmark" || l.source == "forecastleapp"
  {
    hide Picked, AppChoice, StaticPlacement, BookmarkPlacement, ForecastlePlacement, ReplicateFlags, LocalPlan, Blank, TrimSpace, Normalized;
    StaticIff(s.staticLinks, ch.staticKeys, key, l);
    BookmarksIff(ItemsOf(c.bookmarkGroups), ItemsOf(c.bookmarks), key, l);
    AppsIff(s.forecastleInstance, Offered(c.forecastle), AppChoice(c, ch), key, l);
  }

  /** A link of a labelled kind stems from a resource of that kind. */
  lemma KindStems(s: Settings, c: Cluster, ch: Choices, key: string, link: Link) returns (r: Resource)
    requires Stems(s, c, ch, key, link) && link.source in KINDS
    ensures r in ResourcesOf(c)(link.source) && ResourceShown(link.source, r, key, link)
  {
    NotAKind(link.source);
    hide ResourcesOf, ResourceShown, AppChoice, LocalPlan, Blank, TrimSpace, Normalized;
    assert OfKinds(ResourcesOf(c), KINDS, key, link);
    var i :| 0 <= i < |KINDS| && OfKind(KINDS[i], ResourcesOf(c)(KINDS[i]), key, link);
    r :| r in ResourcesOf(c)(KINDS[i]) && ResourceShown(KINDS[i], r, key, link);
    ShownSource(KINDS[i], r, key, link);
  }

  // ------------------------------------------------------- a cluster's own links

  lemma ForeignPlanReads(c: Cluster)
    ensures |ForeignPlan(c)| == |FOREIGN_KINDS| + 1
    ensures forall i :: 0 <= i < |FOREIGN_KINDS| ==> Reads(ForeignPlan(c)[..|FOREIGN_KINDS|][i], FOREIGN_KINDS[i], ForeignResourcesOf(c)(FOREIGN_KINDS[i]))
    ensures AppsOf(c) == Offered(c.forecastle)
  {
  }

  /** Under each key of a foreign cluster's maps: seven kinds of labelled resources, every
      one from its own list, and then the apps. */
  lemma ForeignLinksByKind(fold: char -> char, c: Cluster, keys: seq<seq<string>>, key: string)
    requires ForeignKeys(fold, c, keys)
    ensures |keys| == |ForeignPlan(c)| && |AppKeys(c, keys)| == |Offered(c.forecastle)|
    ensures LinksAt(ForeignBoard(c, keys), key)
         == KindLinks(ForeignResourcesOf(c), FOREIGN_KINDS, key) + Picked(ForecastlePlacements("", Offered(c.forecastle), AppKeys(c, keys)), key)
  {
    ForeignPlanReads(c);
    ForeignPlaced(fold, c, keys);
    var n := |ForeignPlan(c)| - 1;
    hide ForeignKeys, ForeignPlan, RunPlacements, Picked, AppKeys, AppsOf, KindLinks, ForeignResourcesOf, Reads, ForecastlePlacement;
    RunByKind("", ForeignPlan(c)[..n], seq(n, i => []), ForeignResourcesOf(c), FOREIGN_KINDS, key);
    PlaceAllExact(EMPTY_BOARD, RunPlacements("", ForeignPlan(c), keys), key);
    PickedConcat(PlacedBeforeApps(c), ForecastlePlacements("", AppsOf(c), AppKeys(c, keys)), key);
  }

  ghost predicate StemsAbroad(c: Cluster, apps: seq<string>, key: string, link: Link) {
    OfKinds(ForeignResourcesOf(c), FOREIGN_KINDS, key, link) || FromApps("", Offered(c.forecastle), apps, key, link)
  }

  /** What a cluster contributes, told from the fields of the objects in its lists: the
      links marked for replication, under a source that names cluster and kind. */
  lemma ContributedIff(fold: char -> char, c: Cluster, keys: seq<seq<string>>, endpoint: string, key: string, link: Link)
    requires ForeignKeys(fold, c, keys)
    ensures |keys| == |ForeignPlan(c)| && |AppKeys(c, keys)| == |Offered(c.forecastle)|
    ensures link in ForeignLinks(endpoint, ForeignBoard(c, keys), key)
       <==> exists own :: StemsAbroad(c, AppKeys(c, keys), key, own) && own.replicate && link == own.(source := "foreign:" + endpoint + ":" + own.source)
  {
    ForeignLinksByKind(fold, c, keys, key);
    hide ForeignKeys, ForeignPlan, Picked, AppKeys, KindLinks, ForeignResourcesOf, ForecastlePlacement, ForeignBoard, LinksAt, FromApps, OfKinds;
    var links := LinksAt(ForeignBoard(c, keys), key);
    forall own ensures own in links <==> StemsAbroad(c, AppKeys(c, keys), key, own) {
      KindLinksIff(ForeignResourcesOf(c), FOREIGN_KINDS, key, own);
      AppsIff("", Offered(c.forecastle), AppKeys(c, keys), key, own);
    }
    if link in ForeignLinks(endpoint, ForeignBoard(c, keys), key) {
      ForeignLinksMarked(endpoint, ForeignBoard(c, keys), key, link);
    }
    forall own | StemsAbroad(c, AppKeys(c, keys), key, own) && own.replicate && link == own.(source := "foreign:" + endpoint + ":" + own.source)
      ensures link in ForeignLinks(endpoint, ForeignBoard(c, keys), key)
    {
      ForeignLinksAll(endpoint, ForeignBoard(c, keys), key, own);
    }
  }

  lemma ForeignLinksAll(endpoint: string, temp: Board, key: string, own: Link)
    requires own in LinksAt(temp, key) && own.replicate
    ensures own.(source := "foreign:" + endpoint + ":" + own.source) in ForeignLinks(endpoint, temp, key)
  {
    var kept := Filter(Replicates(), LinksAt(temp, key));
    FilterMembers(Replicates(), LinksAt(temp, key));
    assert own in kept;
    var i :| 0 <= i < |kept| && kept[i] == own;
    assert Map(Relabelled(endpoint), kept)[i] == own.(source := "foreign:" + endpoint + ":" + own.source);
  }
}
