/**
 The two collection runs. The local one goes through every source and gives up
 at the first error; the one for a foreign cluster skips sources that fail.
 */
module Collection {
  import opened Text
  import opened Sequences
  import opened Boards
  import opened Labels
  import opened Collect
  import opened Sources

  /** A list that is read only where discovery reports the resource. */
  datatype Offer<T> = Offer(available: bool, listing: Listing<T>)

  /** Everything one cluster answers during one collection. */
  datatype Cluster = Cluster(
    bookmarkGroups: Listing<BookmarkGroup>, bookmarks: Listing<Bookmark>, infoTiles: Listing<InfoTile>,
    forecastle: Offer<ForecastleApp>, ingresses: Offer<Resource>, httpRoutes: Offer<Resource>,
    grpcRoutes: Offer<Resource>, tlsRoutes: Offer<Resource>, tcpRoutes: Offer<Resource>,
    traefikRoutes: Offer<Resource>, containousRoutes: Offer<Resource>,
    services: Listing<Resource>, endpointSlices: Listing<Resource>, dnsEndpoints: Offer<Resource>)

  datatype Settings = Settings(
    fold: char -> char, lower: string -> string, forecastleInstance: string,
    linkGroups: seq<GroupConfig>, staticLinks: seq<StaticLink>)

  datatype Source =
    | Labelled(word: string, tolerant: bool, offer: Offer<Resource>)
    | Forecastle(apps: Offer<ForecastleApp>)

  function TraefikOffer(c: Cluster): Offer<Resource> {
    if c.traefikRoutes.available then c.traefikRoutes else c.containousRoutes
  }

  function LocalPlan(c: Cluster): seq<Source> {
    [ Forecastle(c.forecastle),
      Labelled("ingress", false, c.ingresses),
      Labelled("httproute", true, c.httpRoutes),
      Labelled("grpcroute", true, c.grpcRoutes),
      Labelled("tlsroute", true, c.tlsRoutes),
      Labelled("tcproute", true, c.tcpRoutes),
      Labelled("ingressroute", true, TraefikOffer(c)),
      Labelled("service", false, Offer(true, c.services)),
      Labelled("endpointslice", false, Offer(true, c.endpointSlices)),
      Labelled("dnsendpoint", true, c.dnsEndpoints) ]
  }

  function ForeignPlan(c: Cluster): seq<Source> {
    [ Labelled("ingress", false, c.ingresses.(available := true)),
      Labelled("service", false, Offer(true, c.services)),
      Labelled("httproute", true, c.httpRoutes),
      Labelled("grpcroute", true, c.grpcRoutes),
      Labelled("tlsroute", true, c.tlsRoutes),
      Labelled("tcproute", true, c.tcpRoutes),
      Labelled("ingressroute", true, TraefikOffer(c)),
      Forecastle(c.forecastle) ]
  }

  predicate Fails(src: Source) {
    match src
    case Labelled(_, tolerant, offer) => offer.available && !(offer.listing.Listed? || (offer.listing.NotFound? && tolerant))
    case Forecastle(apps) => apps.available && apps.listing.Failed?
  }

  predicate SomeFails(plan: seq<Source>) {
    exists i :: 0 <= i < |plan| && Fails(plan[i])
  }

  lemma SomeFailsSnoc(plan: seq<Source>, i: nat)
    requires i < |plan|
    ensures SomeFails(plan[..i + 1]) <==> SomeFails(plan[..i]) || Fails(plan[i])
    ensures Fails(plan[i]) ==> SomeFails(plan)
  {
    hide Fails;
    assert forall j :: 0 <= j < i ==> plan[..i + 1][j] == plan[j] == plan[..i][j];
    assert plan[..i + 1][i] == plan[i];
  }

  // ---------------------------------------------------- what a run places

  predicate Contributes(src: Source) {
    match src
    case Labelled(_, _, offer) => offer.available && offer.listing.Listed?
    case Forecastle(apps) => apps.available && apps.listing.Listed?
  }

  /** The links of one source; `keys` are the resolved groups of its apps. */
  function SourcePlacements(instance: string, src: Source, keys: seq<string>): seq<Placement> {
    if !Contributes(src) then [] else
    match src
    case Labelled(word, _, offer) => ResourcePlacements(word, offer.listing.items)
    case Forecastle(apps) =>
      if |keys| == |apps.listing.items| then ForecastlePlacements(instance, apps.listing.items, keys) else []
  }

  function RunPlacements(instance: string, srcs: seq<Source>, keys: seq<seq<string>>): seq<Placement>
    requires |keys| == |srcs|
  {
    if srcs == [] then [] else
      var n := |srcs| - 1;
      RunPlacements(instance, srcs[..n], keys[..n]) + SourcePlacements(instance, srcs[n], keys[n])
  }

  ghost predicate SourceKeys(fold: char -> char, instance: string, b: Board, src: Source, keys: seq<string>) {
    src.Forecastle? && Contributes(src) ==> ForecastleKeys(fold, instance, b, src.apps.listing.items, keys)
  }

  /** keys[i] are possible resolutions in the i-th source, after those before it. */
  ghost predicate RunKeys(fold: char -> char, instance: string, b: Board, srcs: seq<Source>, keys: seq<seq<string>>) {
    && |keys| == |srcs|
    && forall i :: 0 <= i < |srcs| ==>
         SourceKeys(fold, instance, PlaceAll(b, RunPlacements(instance, srcs[..i], keys[..i])), srcs[i], keys[i])
  }

  ghost predicate PlainPlacements(ps: seq<Placement>) {
    forall i :: 0 <= i < |ps| && ps[i].At? ==> ':' !in ps[i].link.source
  }

  lemma SourcePlacementsPlain(instance: string, src: Source, keys: seq<string>)
    requires src.Labelled? ==> ':' !in src.word
    ensures PlainPlacements(SourcePlacements(instance, src, keys))
  {
  }

  lemma {:induction false} RunPlacementsPlain(instance: string, srcs: seq<Source>, keys: seq<seq<string>>)
    requires |keys| == |srcs|
    requires forall i :: 0 <= i < |srcs| && srcs[i].Labelled? ==> ':' !in srcs[i].word
    ensures PlainPlacements(RunPlacements(instance, srcs, keys))
  {
    if srcs != [] {
      var n := |srcs| - 1;
      assert forall i :: 0 <= i < n ==> srcs[..n][i] == srcs[i];
      RunPlacementsPlain(instance, srcs[..n], keys[..n]);
      SourcePlacementsPlain(instance, srcs[n], keys[n]);
    }
  }

  method CollectSource(fold: char -> char, instance: string, src: Source, maps: BoardMaps)
    returns (ok: bool, ghost keys: seq<string>)
    modifies maps
    ensures ok <==> !Fails(src)
    ensures SourceKeys(fold, instance, old(maps.Value()), src, keys)
    ensures maps.Value() == PlaceAll(old(maps.Value()), SourcePlacements(instance, src, keys))
  {
    match src {
      case Labelled(word, tolerant, offer) =>
        keys := [];
        ok := true;
        if offer.available {
          ok := CollectResources(word, tolerant, offer.listing, maps);
        }
      case Forecastle(apps) =>
        keys := [];
        ok := true;
        if apps.available {
          ok, keys := CollectForecastleApps(fold, instance, apps.listing, maps);
        }
    }
  }

  lemma RunNil(fold: char -> char, instance: string, b: Board)
    ensures RunKeys(fold, instance, b, [], []) && PlaceAll(b, RunPlacements(instance, [], [])) == b
  {
  }

  /** The step a run takes at source i. */
  lemma RunSnoc(fold: char -> char, instance: string, b: Board, srcs: seq<Source>, i: nat,
                keys: seq<seq<string>>, more: seq<string>)
    requires i < |srcs| && |keys| == i && RunKeys(fold, instance, b, srcs[..i], keys)
    requires SourceKeys(fold, instance, PlaceAll(b, RunPlacements(instance, srcs[..i], keys)), srcs[i], more)
    ensures RunKeys(fold, instance, b, srcs[..i + 1], keys + [more])
    ensures PlaceAll(b, RunPlacements(instance, srcs[..i + 1], keys + [more]))
         == PlaceAll(PlaceAll(b, RunPlacements(instance, srcs[..i], keys)), SourcePlacements(instance, srcs[i], more))
  {
    hide PlaceAll, SourcePlacements, SourceKeys;
    assert srcs[..i + 1][..i] == srcs[..i] && (keys + [more])[..i] == keys;
    PlaceAllConcat(b, RunPlacements(instance, srcs[..i], keys), SourcePlacements(instance, srcs[i], more));
    forall j | 0 <= j < i ensures srcs[..i + 1][..j] == srcs[..i][..j] && (keys + [more])[..j] == keys[..j] {
    }
  }

  /** collectForeignLinks: failures are skipped, and leave no trace. */
  method CollectForeignLinks(fold: char -> char, c: Cluster, maps: BoardMaps) returns (ghost keys: seq<seq<string>>)
    modifies maps
    ensures RunKeys(fold, "", old(maps.Value()), ForeignPlan(c), keys)
    ensures maps.Value() == PlaceAll(old(maps.Value()), RunPlacements("", ForeignPlan(c), keys))
  {
    var plan := ForeignPlan(c);
    ghost var start := maps.Value();
    keys := [];
    for i := 0 to |plan|
      invariant |keys| == i && RunKeys(fold, "", start, plan[..i], keys)
      invariant maps.Value() == PlaceAll(start, RunPlacements("", plan[..i], keys))
    {
      ghost var more;
      var ok;
      ok, more := CollectSource(fold, "", plan[i], maps);
      RunSnoc(fold, "", start, plan, i, keys, more);
      keys := keys + [more];
    }
    assert plan[..|plan|] == plan;
  }

  // ------------------------------------------------------ the local collection

  /** The arbitrary outcomes of ranging over maps while resolving labels. */
  datatype Choices = Choices(staticKeys: seq<string>, sourceKeys: seq<seq<string>>)

  /** The stages of a local run over what the sources place. */
  function Stages(details: Details, fixed: seq<Placement>, groups: seq<BookmarkGroup>, bookmarks: seq<Placement>,
                  resources: seq<Placement>, tiles: seq<InfoTile>): Board {
    PlaceTiles(PlaceAll(BeforeResources(details, fixed, groups, bookmarks), resources), tiles)
  }

  function BeforeResources(details: Details, fixed: seq<Placement>, groups: seq<BookmarkGroup>, bookmarks: seq<Placement>): Board {
    PlaceAll(DescribedAll(PlaceAll(EMPTY_BOARD.(details := details), fixed), groups), bookmarks)
  }

  function AfterBookmarks(s: Settings, c: Cluster, staticKeys: seq<string>): Board
    requires |staticKeys| == |s.staticLinks|
    requires c.bookmarkGroups.Listed? && c.bookmarks.Listed?
  {
    BeforeResources(InitialDetails(s.linkGroups), StaticPlacements(s.staticLinks, staticKeys), c.bookmarkGroups.items,
                    BookmarkPlacements(ReplicateFlags(c.bookmarkGroups.items), c.bookmarks.items))
  }

  function ConfiguredBoard(s: Settings): Board {
    EMPTY_BOARD.(details := InitialDetails(s.linkGroups))
  }

  ghost predicate StaticChoice(s: Settings, keys: seq<string>) {
    StaticKeys(s.fold, ConfiguredBoard(s), s.staticLinks, keys)
  }

  lemma StaticChoiceLength(s: Settings, keys: seq<string>)
    requires StaticChoice(s, keys)
    ensures |keys| == |s.staticLinks|
  {
  }

  /** Some list the local run cannot do without has failed. */
  predicate LocalFails(c: Cluster) {
    || !c.bookmarkGroups.Listed? || !c.bookmarks.Listed? || !c.infoTiles.Listed?
    || SomeFails(LocalPlan(c))
  }

  predicate Broken<T>(offer: Offer<T>) {
    offer.available && offer.listing.Failed?
  }

  /** Bookmarks, tiles, Services, EndpointSlices and, where there are any, Ingresses have to
      be listed; of all other kinds on offer, one that turns out not to exist is no error.
      IngressRoutes are read in the newer version, if it is on offer. */
  predicate NeededListFails(c: Cluster) {
    || !c.bookmarkGroups.Listed? || !c.bookmarks.Listed? || !c.infoTiles.Listed?
    || !c.services.Listed? || !c.endpointSlices.Listed? || (c.ingresses.available && !c.ingresses.listing.Listed?)
    || Broken(c.forecastle) || Broken(c.httpRoutes) || Broken(c.grpcRoutes) || Broken(c.tlsRoutes) || Broken(c.tcpRoutes)
    || (if c.traefikRoutes.available then Broken(c.traefikRoutes) else Broken(c.containousRoutes))
    || Broken(c.dnsEndpoints)
  }

  /** Which failing lists make the local run fail. */
  lemma LocalFailsIff(c: Cluster)
    ensures LocalFails(c) <==> NeededListFails(c)
  {
    var plan := LocalPlan(c);
    assert SomeFails(plan) <==>
      Fails(plan[0]) || Fails(plan[1]) || Fails(plan[2]) || Fails(plan[3]) || Fails(plan[4])
      || Fails(plan[5]) || Fails(plan[6]) || Fails(plan[7]) || Fails(plan[8]) || Fails(plan[9]);
  }

  ghost predicate LegalChoices(s: Settings, c: Cluster, ch: Choices)
    requires !LocalFails(c)
  {
    && StaticChoice(s, ch.staticKeys)
    && RunKeys(s.fold, s.forecastleInstance, AfterBookmarks(s, c, ch.staticKeys), LocalPlan(c), ch.sourceKeys)
  }

  /** The board a successful local collection ends with. */
  function LocalBoard(s: Settings, c: Cluster, ch: Choices): Board
    requires !LocalFails(c)
    requires |ch.staticKeys| == |s.staticLinks| && |ch.sourceKeys| == |LocalPlan(c)|
  {
    Stages(InitialDetails(s.linkGroups), StaticPlacements(s.staticLinks, ch.staticKeys), c.bookmarkGroups.items,
           BookmarkPlacements(ReplicateFlags(c.bookmarkGroups.items), c.bookmarks.items),
           RunPlacements(s.forecastleInstance, LocalPlan(c), ch.sourceKeys), c.infoTiles.items)
  }

  ghost predicate CollectsBoard(s: Settings, c: Cluster, ch: Choices, b: Board)
    requires !LocalFails(c)
  {
    LegalChoices(s, c, ch) && b == LocalBoard(s, c, ch)
  }

  /** Every link the collectors found, in the order they found them. */
  function LocalPlacements(s: Settings, c: Cluster, ch: Choices): seq<Placement>
    requires !LocalFails(c)
    requires |ch.staticKeys| == |s.staticLinks| && |ch.sourceKeys| == |LocalPlan(c)|
  {
    StaticPlacements(s.staticLinks, ch.staticKeys)
    + BookmarkPlacements(ReplicateFlags(c.bookmarkGroups.items), c.bookmarks.items)
    + RunPlacements(s.forecastleInstance, LocalPlan(c), ch.sourceKeys)
  }

  lemma {:induction false} DescribedAllKeeps(b: Board, items: seq<BookmarkGroup>)
    ensures var r := DescribedAll(b, items);
      && r.links == b.links && r.tiles == b.tiles && b.details.Keys <= r.details.Keys
      && (WellFormed(b) ==> WellFormed(r))
  {
    if items != [] {
      DescribedAllKeeps(b, items[..|items| - 1]);
    }
  }

  lemma {:induction false} PlaceTilesWellFormed(b: Board, items: seq<InfoTile>)
    requires WellFormed(b)
    ensures WellFormed(PlaceTiles(b, items)) && PlaceTiles(b, items).links == b.links
  {
    if items != [] {
      PlaceTilesWellFormed(b, items[..|items| - 1]);
    }
  }

  lemma StagesExact(details: Details, fixed: seq<Placement>, groups: seq<BookmarkGroup>, bookmarks: seq<Placement>,
                    resources: seq<Placement>, tiles: seq<InfoTile>, key: string)
    ensures var r := Stages(details, fixed, groups, bookmarks, resources, tiles);
      && LinksAt(r, key) == Picked(fixed + bookmarks + resources, key)
      && TilesAt(r, key) == PickedTiles(tiles, key)
  {
    hide PlaceAll, DescribedAll, PlaceTiles, Picked, PickedTiles;
    var b0 := EMPTY_BOARD.(details := details);
    var b1 := PlaceAll(b0, fixed);
    var b2 := DescribedAll(b1, groups);
    var b3 := PlaceAll(b2, bookmarks);
    PlaceAllExact(b0, fixed, key);
    DescribedAllKeeps(b1, groups);
    PlaceAllExact(b2, bookmarks, key);
    PlaceAllExact(b3, resources, key);
    PlaceTilesExact(PlaceAll(b3, resources), tiles, key);
    PickedConcat(fixed, bookmarks, key);
    PickedConcat(fixed + bookmarks, resources, key);
  }

  lemma StagesWellFormed(details: Details, fixed: seq<Placement>, groups: seq<BookmarkGroup>, bookmarks: seq<Placement>,
                         resources: seq<Placement>, tiles: seq<InfoTile>)
    requires forall k :: k in details ==> details[k].name == k
    requires PlainPlacements(fixed) && PlainPlacements(bookmarks) && PlainPlacements(resources)
    ensures var r := Stages(details, fixed, groups, bookmarks, resources, tiles);
      WellFormed(r) && OwnSources(r)
  {
    var b0 := EMPTY_BOARD.(details := details);
    var b1 := PlaceAll(b0, fixed);
    var b2 := DescribedAll(b1, groups);
    var b3 := PlaceAll(b2, bookmarks);
    PlaceAllWellFormed(b0, fixed);
    PlaceAllOwnSources(b0, fixed);
    DescribedAllKeeps(b1, groups);
    PlaceAllWellFormed(b2, bookmarks);
    PlaceAllOwnSources(b2, bookmarks);
    PlaceAllWellFormed(b3, resources);
    PlaceAllOwnSources(b3, resources);
    PlaceTilesWellFormed(PlaceAll(b3, resources), tiles);
  }

  /** Conservation through collection: each collected link sits, once and in
      order, under its key and nowhere else, and likewise each tile. */
  lemma LocalBoardExact(s: Settings, c: Cluster, ch: Choices, key: string)
    requires !LocalFails(c) && LegalChoices(s, c, ch)
    ensures LinksAt(LocalBoard(s, c, ch), key) == Picked(LocalPlacements(s, c, ch), key)
    ensures TilesAt(LocalBoard(s, c, ch), key) == PickedTiles(c.infoTiles.items, key)
  {
    StagesExact(InitialDetails(s.linkGroups), StaticPlacements(s.staticLinks, ch.staticKeys), c.bookmarkGroups.items,
                BookmarkPlacements(ReplicateFlags(c.bookmarkGroups.items), c.bookmarks.items),
                RunPlacements(s.forecastleInstance, LocalPlan(c), ch.sourceKeys), c.infoTiles.items, key);
  }

  lemma StaticWordPlain(l: StaticLink, key: string)
    ensures StaticPlacement(l, key).At? ==> ':' !in StaticPlacement(l, key).link.source
  {
    hide Normalized, TrimSpace, DefaultTarget;
  }

  lemma BookmarkWordPlain(flags: map<string, bool>, bm: Bookmark)
    ensures BookmarkPlacement(flags, bm).At? ==> ':' !in BookmarkPlacement(flags, bm).link.source
  {
    hide Normalized, TrimSpace;
  }

  lemma FixedPlacementsPlain(links: seq<StaticLink>, keys: seq<string>, flags: map<string, bool>, bms: seq<Bookmark>)
    requires |keys| == |links|
    ensures PlainPlacements(StaticPlacements(links, keys)) && PlainPlacements(BookmarkPlacements(flags, bms))
  {
    hide StaticPlacement, BookmarkPlacement;
    forall i | 0 <= i < |links| ensures StaticPlacement(links[i], keys[i]).At? ==> ':' !in StaticPlacement(links[i], keys[i]).link.source {
      StaticWordPlain(links[i], keys[i]);
    }
    forall i | 0 <= i < |bms| ensures BookmarkPlacement(flags, bms[i]).At? ==> ':' !in BookmarkPlacement(flags, bms[i]).link.source {
      BookmarkWordPlain(flags, bms[i]);
    }
  }

  lemma LocalWordsPlain(c: Cluster)
    ensures forall i :: 0 <= i < |LocalPlan(c)| && LocalPlan(c)[i].Labelled? ==> ':' !in LocalPlan(c)[i].word
  {
  }

  /** Every collection leaves the maps well formed, with plain source words. */
  lemma LocalBoardWellFormed(s: Settings, c: Cluster, ch: Choices)
    requires !LocalFails(c) && LegalChoices(s, c, ch)
    ensures WellFormed(LocalBoard(s, c, ch)) && OwnSources(LocalBoard(s, c, ch))
  {
    FixedPlacementsPlain(s.staticLinks, ch.staticKeys, ReplicateFlags(c.bookmarkGroups.items), c.bookmarks.items);
    InitialDetailsNamed(s.linkGroups);
    LocalWordsPlain(c);
    hide Stages, RunPlacements, LocalPlan, SomeFails, StaticPlacements, BookmarkPlacements, PlaceAll, PlainPlacements;
    RunPlacementsPlain(s.forecastleInstance, LocalPlan(c), ch.sourceKeys);
    StagesWellFormed(InitialDetails(s.linkGroups), StaticPlacements(s.staticLinks, ch.staticKeys), c.bookmarkGroups.items,
                     BookmarkPlacements(ReplicateFlags(c.bookmarkGroups.items), c.bookmarks.items),
                     RunPlacements(s.forecastleInstance, LocalPlan(c), ch.sourceKeys), c.infoTiles.items);
  }

  // -------------------------------------------- when a collection is determined

  /** Only the first source resolves labels. */
  predicate FirstOnly(plan: seq<Source>) {
    plan != [] && plan[0].Forecastle? && forall i :: 1 <= i < |plan| ==> plan[i].Labelled?
  }

  lemma SourceUnique(fold: char -> char, instance: string, b: Board, src: Source, k1: seq<string>, k2: seq<string>)
    requires src.Forecastle? ==> Decided(fold, b.details)
    requires SourceKeys(fold, instance, b, src, k1) && SourceKeys(fold, instance, b, src, k2)
    ensures SourcePlacements(instance, src, k1) == SourcePlacements(instance, src, k2)
  {
    hide ForecastleKeys, Decided, ForecastlePlacements, ResourcePlacements;
    if src.Forecastle? && Contributes(src) {
      var apps := src.apps.listing.items;
      AppsDeterminedAll(fold, instance, b, apps);
      KeysLength(fold, instance, b, apps, k1);
      KeysLength(fold, instance, b, apps, k2);
      assert ForecastlePlacements(instance, apps, k1) == ForecastlePlacements(instance, apps, k2);
    }
  }

  lemma {:induction false} RunUnique(fold: char -> char, instance: string, b: Board, plan: seq<Source>,
                                     keys: seq<seq<string>>, other: seq<seq<string>>, n: nat)
    requires Decided(fold, b.details) && FirstOnly(plan) && n <= |plan|
    requires RunKeys(fold, instance, b, plan, keys) && RunKeys(fold, instance, b, plan, other)
    ensures RunPlacements(instance, plan[..n], keys[..n]) == RunPlacements(instance, plan[..n], other[..n])
  {
    assert PlaceAll(b, []) == b && RunPlacements(instance, [], []) == [];
    if n == 0 {
      assert plan[..0] == [] && keys[..0] == [] && other[..0] == [];
    } else {
      hide SourceKeys, SourcePlacements, PlaceAll, Decided;
      RunUnique(fold, instance, b, plan, keys, other, n - 1);
      if n == 1 {
        assert plan[..0] == [] && keys[..0] == [];
      }
      SourceUnique(fold, instance, PlaceAll(b, RunPlacements(instance, plan[..n - 1], keys[..n - 1])), plan[n - 1], keys[n - 1], other[n - 1]);
      RunPlacementsSnoc(instance, plan, keys, n - 1);
      RunPlacementsSnoc(instance, plan, other, n - 1);
    }
  }

  lemma RunPlacementsSnoc(instance: string, plan: seq<Source>, keys: seq<seq<string>>, n: nat)
    requires |keys| == |plan| && n < |plan|
    ensures RunPlacements(instance, plan[..n + 1], keys[..n + 1])
         == RunPlacements(instance, plan[..n], keys[..n]) + SourcePlacements(instance, plan[n], keys[n])
  {
    assert plan[..n + 1][..n] == plan[..n] && keys[..n + 1][..n] == keys[..n];
  }

  lemma LocalPlanFirst(c: Cluster)
    ensures FirstOnly(LocalPlan(c)) && LocalPlan(c)[0] == Forecastle(c.forecastle)
  {
  }

  /** Every label has one answer wherever one is looked up: among the configured
      groups, and among the groups there are once the bookmarks have been read. */
  ghost predicate LabelsDecided(s: Settings, c: Cluster)
    requires !LocalFails(c)
  {
    && Uncontested(s.fold, InitialDetails(s.linkGroups))
    && forall keys :: StaticChoice(s, keys) ==> Decided(s.fold, AfterBookmarks(s, c, keys).details)
  }

  ghost predicate BoardDetermined(s: Settings, c: Cluster)
    requires !LocalFails(c)
  {
    forall ch1, ch2 :: LegalChoices(s, c, ch1) && LegalChoices(s, c, ch2) ==> LocalBoard(s, c, ch1) == LocalBoard(s, c, ch2)
  }

  lemma LegalLengths(s: Settings, c: Cluster, ch: Choices)
    requires !LocalFails(c) && LegalChoices(s, c, ch)
    ensures StaticChoice(s, ch.staticKeys) && |ch.staticKeys| == |s.staticLinks| && |ch.sourceKeys| == |LocalPlan(c)|
    ensures RunKeys(s.fold, s.forecastleInstance, AfterBookmarks(s, c, ch.staticKeys), LocalPlan(c), ch.sourceKeys)
  {
  }

  lemma StaticChoiceUnique(s: Settings, keys: seq<string>, other: seq<string>)
    requires Uncontested(s.fold, InitialDetails(s.linkGroups)) && StaticChoice(s, keys) && StaticChoice(s, other)
    ensures keys == other
  {
    hide Uncontested, StaticKeys;
    StaticDeterminedAll(s.fold, ConfiguredBoard(s), s.staticLinks);
  }

  /** Then two collections of the same lists give the same maps, whatever orders
      the maps are ranged over in. */
  lemma LocalBoardUnique(s: Settings, c: Cluster, ch1: Choices, ch2: Choices)
    requires !LocalFails(c) && LabelsDecided(s, c) && LegalChoices(s, c, ch1) && LegalChoices(s, c, ch2)
    ensures LocalBoard(s, c, ch1) == LocalBoard(s, c, ch2)
  {
    LegalLengths(s, c, ch1);
    LegalLengths(s, c, ch2);
    hide LegalChoices, StaticChoice, RunKeys, Uncontested, Decided, RunPlacements, Stages, AfterBookmarks, LocalPlan, FirstOnly;
    hide StaticPlacements, BookmarkPlacements;
    StaticChoiceUnique(s, ch1.staticKeys, ch2.staticKeys);
    LocalPlanFirst(c);
    RunUniqueAll(s.fold, s.forecastleInstance, AfterBookmarks(s, c, ch1.staticKeys), LocalPlan(c), ch1.sourceKeys, ch2.sourceKeys);
  }

  lemma RunUniqueAll(fold: char -> char, instance: string, b: Board, plan: seq<Source>, keys: seq<seq<string>>, other: seq<seq<string>>)
    requires Decided(fold, b.details) && FirstOnly(plan)
    requires RunKeys(fold, instance, b, plan, keys) && RunKeys(fold, instance, b, plan, other)
    ensures RunPlacements(instance, plan, keys) == RunPlacements(instance, plan, other)
  {
    RunUnique(fold, instance, b, plan, keys, other, |plan|);
    assert plan[..|plan|] == plan && keys[..|plan|] == keys && other[..|plan|] == other;
  }

  /** The same lists but for the ForecastleApps. */
  function WithApps(c: Cluster, apps: seq<ForecastleApp>): Cluster {
    c.(forecastle := Offer(true, Listed(apps)))
  }

  lemma WithAppsFails(c: Cluster, apps: seq<ForecastleApp>)
    requires !LocalFails(c)
    ensures !LocalFails(WithApps(c, apps))
  {
    var plan, more := LocalPlan(c), LocalPlan(WithApps(c, apps));
    assert forall i :: 1 <= i < |plan| ==> more[i] == plan[i];
    assert !Fails(more[0]);
  }

  /** The links under a key that are marked for replication. */
  function ReplicableAt(b: Board, key: string): seq<Link> {
    Filter(Replicates(), LinksAt(b, key))
  }

  /** A contested label makes the maps depend on the order: an app that carries it
      lands in either group, and so do its replicable links. */
  lemma ContestedBoards(s: Settings, c: Cluster, keys: seq<string>, name: string, k1: string, k2: string)
    returns (ch1: Choices, ch2: Choices)
    requires !LocalFails(c) && c.forecastle == Offer(true, Listed([PlainApp(s.forecastleInstance, name)]))
    requires Trimmed(s.forecastleInstance) && StaticChoice(s, keys) && |keys| == |s.staticLinks|
    requires ContestedBy(s.fold, AfterBookmarks(s, c, keys).details, name, k1, k2)
    requires Landing(k1) != Landing(k2) && Landing(k1) != ""
    ensures LegalChoices(s, c, ch1) && LegalChoices(s, c, ch2)
    ensures |ReplicableAt(LocalBoard(s, c, ch1), k1)| != |ReplicableAt(LocalBoard(s, c, ch2), k1)|
  {
    LocalPlanFirst(c);
    hide StaticChoice, StaticKeys, AfterBookmarks, LocalPlan, LocalFails, LocalBoard, LegalChoices, Matches;
    hide RunKeys, RunPlacements, Picked, BeforeApps, ReplicableAt, LabelsDecided, PlainApp;
    var rest := seq(|LocalPlan(c)| - 1, i => []);
    ch1, ch2 := Choices(keys, [[k1]] + rest), Choices(keys, [[k2]] + rest);
    ContestedChoice(s, c, keys, name, k1, rest);
    ContestedChoice(s, c, keys, name, k2, rest);
    LegalLengths(s, c, ch1);
    LegalLengths(s, c, ch2);
    ContestedShare(s, c, ch1, name, k1, rest, k1);
    ContestedShare(s, c, ch2, name, k2, rest, k1);
  }

  lemma ContestedChoice(s: Settings, c: Cluster, keys: seq<string>, name: string, key: string, rest: seq<seq<string>>)
    requires !LocalFails(c) && c.forecastle == Offer(true, Listed([PlainApp(s.forecastleInstance, name)]))
    requires StaticChoice(s, keys) && |keys| == |s.staticLinks| && |rest| == |LocalPlan(c)| - 1
    requires var d := AfterBookmarks(s, c, keys).details;
      name != "" && Trimmed(name) && name !in d && Matches(s.fold, d, key, name)
    ensures LegalChoices(s, c, Choices(keys, [[key]] + rest))
  {
    var b := AfterBookmarks(s, c, keys);
    hide StaticChoice, AfterBookmarks, LocalPlan, LocalFails, Matches, RunKeys, ForecastleKeys, FirstOnly;
    MayResolve(s.fold, s.forecastleInstance, b, PlainApp(s.forecastleInstance, name), key);
    LocalPlanFirst(c);
    FirstChoice(s.fold, s.forecastleInstance, b, LocalPlan(c), [key], rest);
  }

  /** Sources that resolve no labels restrict no choices. */
  lemma FirstChoice(fold: char -> char, instance: string, b: Board, plan: seq<Source>, first: seq<string>, rest: seq<seq<string>>)
    requires FirstOnly(plan) && SourceKeys(fold, instance, b, plan[0], first) && |rest| == |plan| - 1
    ensures RunKeys(fold, instance, b, plan, [first] + rest)
  {
    hide ForecastleKeys;
    RunNil(fold, instance, b);
    assert plan[..0] == [] && ([first] + rest)[..0] == [];
  }

  /** The replicable links under a key: the app's, if it landed there, and others that its group does not influence. */
  lemma ContestedShare(s: Settings, c: Cluster, ch: Choices, name: string, landed: string, rest: seq<seq<string>>, key: string)
    requires !LocalFails(c) && c.forecastle == Offer(true, Listed([PlainApp(s.forecastleInstance, name)]))
    requires Trimmed(s.forecastleInstance) && Landing(key) == key != ""
    requires LegalChoices(s, c, ch) && ch.sourceKeys == [[landed]] + rest && |ch.staticKeys| == |s.staticLinks| && |rest| == |LocalPlan(c)| - 1
    ensures |ReplicableAt(LocalBoard(s, c, ch), key)|
         == |Filter(Replicates(), Picked(BeforeApps(s, c, ch.staticKeys), key))| + (if landed == key then 1 else 0)
          + |Filter(Replicates(), Picked(RunPlacements(s.forecastleInstance, LocalPlan(c)[1..], rest), key))|
  {
    LocalBoardExact(s, c, ch, key);
    AppPlacements(s, c, ch, name, landed, rest);
    LandsUnder(s.forecastleInstance, name, landed);
    hide LegalChoices, LocalBoard, LinksAt, RunPlacements, ForecastlePlacement, LocalPlacements, BeforeApps, Picked, LocalPlan, LocalFails;
    PickedThree(BeforeApps(s, c, ch.staticKeys), ForecastlePlacement(s.forecastleInstance, PlainApp(s.forecastleInstance, name), landed),
                RunPlacements(s.forecastleInstance, LocalPlan(c)[1..], rest), key);
  }

  lemma AppPlacements(s: Settings, c: Cluster, ch: Choices, name: string, landed: string, rest: seq<seq<string>>)
    requires !LocalFails(c) && c.forecastle == Offer(true, Listed([PlainApp(s.forecastleInstance, name)]))
    requires ch.sourceKeys == [[landed]] + rest && |ch.staticKeys| == |s.staticLinks| && |rest| == |LocalPlan(c)| - 1
    ensures LocalPlacements(s, c, ch)
         == BeforeApps(s, c, ch.staticKeys)
          + ([ForecastlePlacement(s.forecastleInstance, PlainApp(s.forecastleInstance, name), landed)]
             + RunPlacements(s.forecastleInstance, LocalPlan(c)[1..], rest))
  {
    LocalPlanFirst(c);
    hide LocalPlan, SomeFails, ForecastlePlacement, StaticPlacements, BookmarkPlacements, RunPlacements, FirstOnly;
    var app := PlainApp(s.forecastleInstance, name);
    RunFirst(s.forecastleInstance, LocalPlan(c), [landed], rest);
    assert ForecastlePlacements(s.forecastleInstance, [app], [landed]) == [ForecastlePlacement(s.forecastleInstance, app, landed)];
  }

  lemma PickedThree(front: seq<Placement>, p: Placement, back: seq<Placement>, key: string)
    requires p.At? ==> p.link.replicate
    ensures |Filter(Replicates(), Picked(front + ([p] + back), key))|
         == |Filter(Replicates(), Picked(front, key))| + (if p.At? && p.key == key then 1 else 0)
          + |Filter(Replicates(), Picked(back, key))|
  {
    PickedConcat(front, [p] + back, key);
    PickedConcat([p], back, key);
    OnePicked(p, key);
    hide Picked;
    FilterConcat(Replicates(), Picked(front, key), Picked([p], key) + Picked(back, key));
    FilterConcat(Replicates(), Picked([p], key), Picked(back, key));
  }

  lemma OnePicked(p: Placement, key: string)
    ensures Picked([p], key) == if p.At? && p.key == key then [p.link] else []
  {
    assert [p][..0] == [];
  }

  function BeforeApps(s: Settings, c: Cluster, keys: seq<string>): seq<Placement>
    requires !LocalFails(c) && |keys| == |s.staticLinks|
  {
    StaticPlacements(s.staticLinks, keys) + BookmarkPlacements(ReplicateFlags(c.bookmarkGroups.items), c.bookmarks.items)
  }

  lemma {:induction false} RunFirst(instance: string, plan: seq<Source>, first: seq<string>, rest: seq<seq<string>>)
    requires plan != [] && |rest| == |plan| - 1
    ensures RunPlacements(instance, plan, [first] + rest)
         == SourcePlacements(instance, plan[0], first) + RunPlacements(instance, plan[1..], rest)
  {
    hide SourcePlacements;
    var keys := [first] + rest;
    if |plan| == 1 {
      assert plan[..0] == [] && keys[..0] == [];
    } else {
      var n := |plan| - 1;
      RunFirst(instance, plan[..n], first, rest[..n - 1]);
      assert keys[..n] == [first] + rest[..n - 1] && plan[..n][1..] == plan[1..][..n - 1];
    }
  }

  /** Whatever ForecastleApps there are, the maps are determined by the lists exactly
      when the groups there are before them leave every label one place to land in. */
  lemma BoardDeterminedIff(s: Settings, c: Cluster)
    requires !LocalFails(c) && Trimmed(s.forecastleInstance) && Uncontested(s.fold, InitialDetails(s.linkGroups))
    ensures (forall apps :: !LocalFails(WithApps(c, apps)) && BoardDetermined(s, WithApps(c, apps))) <==> LabelsDecided(s, c)
  {
    hide LegalChoices, LocalBoard, StaticChoice, LocalFails, BeforeResources, Uncontested, BoardDetermined;
    if LabelsDecided(s, c) {
      forall apps ensures !LocalFails(WithApps(c, apps)) && BoardDetermined(s, WithApps(c, apps)) {
        WithAppsFails(c, apps);
        WithAppsDecided(s, c, apps);
        BoardDeterminedAll(s, WithApps(c, apps));
      }
    } else {
      var app, ch1, ch2, key := UndecidedApp(s, c);
      NotDetermined(s, WithApps(c, [app]), ch1, ch2, key);
    }
  }

  lemma NotDetermined(s: Settings, c: Cluster, ch1: Choices, ch2: Choices, key: string)
    requires !LocalFails(c) && LegalChoices(s, c, ch1) && LegalChoices(s, c, ch2)
    requires |ReplicableAt(LocalBoard(s, c, ch1), key)| != |ReplicableAt(LocalBoard(s, c, ch2), key)|
    ensures !BoardDetermined(s, c)
  {
  }

  /** An app for which two collections of the same lists differ in what they export. */
  lemma UndecidedApp(s: Settings, c: Cluster) returns (app: ForecastleApp, ch1: Choices, ch2: Choices, key: string)
    requires !LocalFails(c) && Trimmed(s.forecastleInstance)
    requires Uncontested(s.fold, InitialDetails(s.linkGroups)) && !LabelsDecided(s, c)
    ensures var c' := WithApps(c, [app]);
      && !LocalFails(c') && LegalChoices(s, c', ch1) && LegalChoices(s, c', ch2)
      && |ReplicableAt(LocalBoard(s, c', ch1), key)| != |ReplicableAt(LocalBoard(s, c', ch2), key)|
  {
    hide LegalChoices, LocalBoard, StaticChoice, SomeFails, LocalPlan, BeforeResources, Uncontested, ContestedBy, Landing, ReplicableAt;
    forall keys | StaticChoice(s, keys) ensures |keys| == |s.staticLinks| {
      StaticChoiceLength(s, keys);
    }
    var keys :| StaticChoice(s, keys) && !Decided(s.fold, AfterBookmarks(s, c, keys).details);
    var name, k1, k2 :| ContestedBy(s.fold, AfterBookmarks(s, c, keys).details, name, k1, k2) && Landing(k1) != Landing(k2);
    app := PlainApp(s.forecastleInstance, name);
    WithAppsFails(c, [app]);
    assert AfterBookmarks(s, WithApps(c, [app]), keys) == AfterBookmarks(s, c, keys);
    if Landing(k1) != "" {
      key := k1;
      ch1, ch2 := ContestedBoards(s, WithApps(c, [app]), keys, name, k1, k2);
    } else {
      key := k2;
      ContestedSwap(s.fold, AfterBookmarks(s, c, keys).details, name, k1, k2);
      ch1, ch2 := ContestedBoards(s, WithApps(c, [app]), keys, name, k2, k1);
    }
  }

  lemma ContestedSwap(fold: char -> char, details: Details, name: string, k1: string, k2: string)
    requires ContestedBy(fold, details, name, k1, k2)
    ensures ContestedBy(fold, details, name, k2, k1)
  {
  }

  lemma BoardDeterminedAll(s: Settings, c: Cluster)
    requires !LocalFails(c) && LabelsDecided(s, c)
    ensures BoardDetermined(s, c)
  {
    hide LegalChoices, LocalBoard, LabelsDecided, LocalPlan;
    forall ch1, ch2 | LegalChoices(s, c, ch1) && LegalChoices(s, c, ch2)
      ensures |ch1.staticKeys| == |s.staticLinks| == |ch2.staticKeys| && |ch1.sourceKeys| == |LocalPlan(c)| == |ch2.sourceKeys|
      ensures LocalBoard(s, c, ch1) == LocalBoard(s, c, ch2)
    {
      LegalLengths(s, c, ch1);
      LegalLengths(s, c, ch2);
      LocalBoardUnique(s, c, ch1, ch2);
    }
  }

  lemma WithAppsDecided(s: Settings, c: Cluster, apps: seq<ForecastleApp>)
    requires !LocalFails(c) && !LocalFails(WithApps(c, apps)) && LabelsDecided(s, c)
    ensures LabelsDecided(s, WithApps(c, apps))
  {
    hide StaticChoice, SomeFails, LocalPlan, BeforeResources, Decided;
    forall keys | StaticChoice(s, keys)
      ensures |keys| == |s.staticLinks| && Decided(s.fold, AfterBookmarks(s, WithApps(c, apps), keys).details)
    {
      StaticChoiceLength(s, keys);
      assert AfterBookmarks(s, WithApps(c, apps), keys) == AfterBookmarks(s, c, keys);
    }
  }

  // ---------------------------------------- what lookups leave undecided: links only

  lemma AfterBookmarksDetails(s: Settings, c: Cluster, keys: seq<string>, other: seq<string>)
    requires c.bookmarkGroups.Listed? && c.bookmarks.Listed?
    requires StaticChoice(s, keys) && StaticChoice(s, other) && |keys| == |s.staticLinks| == |other|
    ensures AfterBookmarks(s, c, keys).details == AfterBookmarks(s, c, other).details
  {
    var b := ConfiguredBoard(s);
    var ps, qs := StaticPlacements(s.staticLinks, keys), StaticPlacements(s.staticLinks, other);
    hide StaticKeys, PlaceAll, DescribedAll, BookmarkPlacements, ReplicateFlags;
    StaticDetails(s.fold, b, s.staticLinks, keys, other, |keys|);
    assert ps[..|keys|] == ps && qs[..|keys|] == qs;
    var x, y := DescribedAll(PlaceAll(b, ps), c.bookmarkGroups.items), DescribedAll(PlaceAll(b, qs), c.bookmarkGroups.items);
    DescribedAllDetails(PlaceAll(b, ps), PlaceAll(b, qs), c.bookmarkGroups.items);
    PlaceAllDetails(x, y, BookmarkPlacements(ReplicateFlags(c.bookmarkGroups.items), c.bookmarks.items));
  }

  /** Sources that resolve no labels place the same links whatever is chosen. */
  lemma {:induction false} LabelledRun(instance: string, srcs: seq<Source>, keys: seq<seq<string>>, other: seq<seq<string>>)
    requires |keys| == |srcs| == |other| && forall i :: 0 <= i < |srcs| ==> srcs[i].Labelled?
    ensures RunPlacements(instance, srcs, keys) == RunPlacements(instance, srcs, other)
  {
    if srcs != [] {
      var n := |srcs| - 1;
      LabelledRun(instance, srcs[..n], keys[..n], other[..n]);
    }
  }

  lemma SourceDetails(fold: char -> char, instance: string, b: Board, c: Board, src: Source, keys: seq<string>, other: seq<string>)
    requires src.Forecastle? && b.details == c.details
    requires SourceKeys(fold, instance, b, src, keys) && SourceKeys(fold, instance, c, src, other)
    ensures PlaceAll(b, SourcePlacements(instance, src, keys)).details == PlaceAll(c, SourcePlacements(instance, src, other)).details
  {
    if Contributes(src) {
      var apps := src.apps.listing.items;
      KeysLength(fold, instance, b, apps, keys);
      KeysLength(fold, instance, c, apps, other);
      hide PlaceAll, ForecastleKeys, AppDetails;
      LegalAppDetails(fold, instance, b, apps, keys, |apps|);
      LegalAppDetails(fold, instance, c, apps, other, |apps|);
      var ps, qs := ForecastlePlacements(instance, apps, keys), ForecastlePlacements(instance, apps, other);
      assert ps[..|apps|] == ps && qs[..|apps|] == qs;
    } else {
      assert PlaceAll(b, []) == b && PlaceAll(c, []) == c;
    }
  }

  lemma FirstKeys(fold: char -> char, instance: string, b: Board, plan: seq<Source>, keys: seq<seq<string>>)
    requires plan != [] && RunKeys(fold, instance, b, plan, keys)
    ensures |keys| == |plan| && SourceKeys(fold, instance, b, plan[0], keys[0])
  {
    hide SourceKeys;
    RunNil(fold, instance, b);
    assert plan[..0] == [] && keys[..0] == [];
  }

  lemma ConcatDetails(b: Board, c: Board, ps: seq<Placement>, qs: seq<Placement>, rest: seq<Placement>)
    requires PlaceAll(b, ps).details == PlaceAll(c, qs).details
    ensures PlaceAll(b, ps + rest).details == PlaceAll(c, qs + rest).details
  {
    hide PlaceAll;
    PlaceAllConcat(b, ps, rest);
    PlaceAllConcat(c, qs, rest);
    PlaceAllDetails(PlaceAll(b, ps), PlaceAll(c, qs), rest);
  }

  /** A run whose later sources resolve no labels, with the later choices replaced. */
  lemma RunSplit(instance: string, plan: seq<Source>, keys: seq<seq<string>>, rest: seq<seq<string>>)
    requires FirstOnly(plan) && |keys| == |plan| == |rest| + 1
    ensures RunPlacements(instance, plan, keys) == SourcePlacements(instance, plan[0], keys[0]) + RunPlacements(instance, plan[1..], rest)
  {
    hide RunPlacements, SourcePlacements;
    HeadTail(keys);
    RunFirst(instance, plan, keys[0], keys[1..]);
    LabelledRun(instance, plan[1..], keys[1..], rest);
  }

  lemma RunDetails(fold: char -> char, instance: string, b: Board, c: Board, plan: seq<Source>, keys: seq<seq<string>>, other: seq<seq<string>>)
    requires FirstOnly(plan) && b.details == c.details
    requires RunKeys(fold, instance, b, plan, keys) && RunKeys(fold, instance, c, plan, other)
    ensures PlaceAll(b, RunPlacements(instance, plan, keys)).details == PlaceAll(c, RunPlacements(instance, plan, other)).details
  {
    FirstKeys(fold, instance, b, plan, keys);
    FirstKeys(fold, instance, c, plan, other);
    hide RunKeys, SourceKeys, PlaceAll, RunPlacements, SourcePlacements;
    var rest := keys[1..];
    RunSplit(instance, plan, keys, rest);
    RunSplit(instance, plan, other, rest);
    SourceDetails(fold, instance, b, c, plan[0], keys[0], other[0]);
    ConcatDetails(b, c, SourcePlacements(instance, plan[0], keys[0]), SourcePlacements(instance, plan[0], other[0]),
                  RunPlacements(instance, plan[1..], rest));
  }

  /** Whatever labels resolve to, two collections of the same lists have the same groups,
      record for record; they can differ in where links are filed alone. */
  lemma LocalDetailsSame(s: Settings, c: Cluster, ch1: Choices, ch2: Choices)
    requires !LocalFails(c) && LegalChoices(s, c, ch1) && LegalChoices(s, c, ch2)
    ensures LocalBoard(s, c, ch1).details == LocalBoard(s, c, ch2).details
  {
    LegalLengths(s, c, ch1);
    LegalLengths(s, c, ch2);
    LocalPlanFirst(c);
    hide LegalChoices, StaticChoice, RunKeys, LocalPlan, FirstOnly, SomeFails, PlaceAll, PlaceTiles, RunPlacements, BeforeResources;
    AfterBookmarksDetails(s, c, ch1.staticKeys, ch2.staticKeys);
    var b1, b2 := AfterBookmarks(s, c, ch1.staticKeys), AfterBookmarks(s, c, ch2.staticKeys);
    RunDetails(s.fold, s.forecastleInstance, b1, b2, LocalPlan(c), ch1.sourceKeys, ch2.sourceKeys);
    PlaceTilesDetails(PlaceAll(b1, RunPlacements(s.forecastleInstance, LocalPlan(c), ch1.sourceKeys)),
                      PlaceAll(b2, RunPlacements(s.forecastleInstance, LocalPlan(c), ch2.sourceKeys)), c.infoTiles.items);
  }

  lemma {:induction false} DescribedAllEmptyKey(b: Board, items: seq<BookmarkGroup>)
    requires EmptyKeyPlain(b) && forall i :: 0 <= i < |items| ==> items[i].name != ""
    ensures EmptyKeyPlain(DescribedAll(b, items))
  {
    if items != [] {
      DescribedAllEmptyKey(b, items[..|items| - 1]);
    }
  }

  lemma {:induction false} PlaceTilesEmptyKey(b: Board, items: seq<InfoTile>)
    requires EmptyKeyPlain(b)
    ensures EmptyKeyPlain(PlaceTiles(b, items))
  {
    if items != [] {
      PlaceTilesEmptyKey(b, items[..|items| - 1]);
    }
  }

  lemma StagesEmptyKey(details: Details, fixed: seq<Placement>, groups: seq<BookmarkGroup>, bookmarks: seq<Placement>,
                       resources: seq<Placement>, tiles: seq<InfoTile>)
    requires KeysTrimmed(details) && forall i :: 0 <= i < |groups| ==> groups[i].name != ""
    ensures EmptyKeyPlain(Stages(details, fixed, groups, bookmarks, resources, tiles))
  {
    hide PlaceAll, DescribedAll, PlaceTiles;
    var b0 := EMPTY_BOARD.(details := details);
    var b1 := PlaceAll(b0, fixed);
    var b2 := DescribedAll(b1, groups);
    var b3 := PlaceAll(b2, bookmarks);
    PlaceAllExact(b0, fixed, "");
    DescribedAllEmptyKey(b1, groups);
    PlaceAllExact(b2, bookmarks, "");
    PlaceAllExact(b3, resources, "");
    PlaceTilesEmptyKey(PlaceAll(b3, resources), tiles);
  }

  /** Kubernetes objects have names, so no BookmarkGroup redescribes the group
      that a bookmark with a blank group ends up in. */
  lemma LocalBoardEmptyKey(s: Settings, c: Cluster, ch: Choices)
    requires !LocalFails(c) && LegalChoices(s, c, ch)
    requires forall i :: 0 <= i < |c.bookmarkGroups.items| ==> c.bookmarkGroups.items[i].name != ""
    ensures EmptyKeyPlain(LocalBoard(s, c, ch))
  {
    InitialDetailsNamed(s.linkGroups);
    hide Stages, RunPlacements, LocalPlan, SomeFails, StaticPlacements, BookmarkPlacements, PlaceAll, EmptyKeyPlain;
    StagesEmptyKey(InitialDetails(s.linkGroups), StaticPlacements(s.staticLinks, ch.staticKeys), c.bookmarkGroups.items,
                   BookmarkPlacements(ReplicateFlags(c.bookmarkGroups.items), c.bookmarks.items),
                   RunPlacements(s.forecastleInstance, LocalPlan(c), ch.sourceKeys), c.infoTiles.items);
  }

  /** Go through the sources, giving up at the first error. */
  method CollectUntilError(fold: char -> char, instance: string, plan: seq<Source>, maps: BoardMaps)
    returns (ok: bool, ghost keys: seq<seq<string>>)
    modifies maps
    ensures ok <==> !SomeFails(plan)
    ensures ok ==>
      && RunKeys(fold, instance, old(maps.Value()), plan, keys)
      && maps.Value() == PlaceAll(old(maps.Value()), RunPlacements(instance, plan, keys))
  {
    ghost var start := maps.Value();
    keys := [];
    RunNil(fold, instance, start);
    assert plan[..0] == [] && !SomeFails([]);
    hide PlaceAll, RunPlacements, RunKeys, SourceKeys, SourcePlacements, SomeFails;
    for i := 0 to |plan|
      invariant |keys| == i && RunKeys(fold, instance, start, plan[..i], keys)
      invariant maps.Value() == PlaceAll(start, RunPlacements(instance, plan[..i], keys))
      invariant !SomeFails(plan[..i])
    {
      ghost var more;
      ok, more := CollectSource(fold, instance, plan[i], maps);
      SomeFailsSnoc(plan, i);
      if !ok {
        return;
      }
      RunSnoc(fold, instance, start, plan, i, keys, more);
      keys := keys + [more];
    }
    assert plan[..|plan|] == plan;
    ok := true;
  }

  /** The part of collectDashboard up to the merges. */
  method CollectLocal(s: Settings, c: Cluster, maps: BoardMaps) returns (ok: bool, ghost ch: Choices)
    requires maps.Value() == EMPTY_BOARD
    modifies maps
    ensures ok <==> !LocalFails(c)
    ensures ok <==> !NeededListFails(c)
    ensures ok ==> LegalChoices(s, c, ch) && maps.Value() == LocalBoard(s, c, ch)
  {
    LocalFailsIff(c);
    hide NeededListFails;
    ch := Choices([], []);
    maps.details := InitLinkGroups(s.linkGroups);
    ghost var staticKeys := CollectStaticLinks(s.fold, s.staticLinks, maps);
    ok := CollectBookmarkGroups(c.bookmarkGroups, c.bookmarks, maps);
    if !ok {
      return;
    }
    ghost var sourceKeys;
    ok, sourceKeys := CollectUntilError(s.fold, s.forecastleInstance, LocalPlan(c), maps);
    if !ok {
      return;
    }
    ch := Choices(staticKeys, sourceKeys);
    ok := CollectInfoTiles(c.infoTiles, maps);
  }
}
