/**
 The collectors that read Kubernetes lists. Each adds to the shared maps what its
 list holds, and reports whether the list was read.
 */
module Sources {
  import opened Wrappers
  import opened Text
  import opened Sequences
  import opened Boards
  import opened Labels
  import opened Collect
  import GroupClaims

  // ------------------------------------------------ BookmarkGroup and Bookmark

  datatype BookmarkGroup = BookmarkGroup(
    name: string, displayName: string, properties: map<string, string>, replicate: bool)

  datatype Reachability = Unchecked | Unreachable | Reachable

  datatype Bookmark = Bookmark(
    group: string, name: string, url: string, target: string, icon: string,
    groups: seq<string>, replicate: bool, reachability: Reachability)

  function Described(b: Board, item: BookmarkGroup): Board {
    var e := Ensure(b, item.name);
    var g := e.details[item.name];
    var display := TrimSpace(item.displayName);
    e.(details := e.details[item.name := g.(
      replicate := item.replicate,
      properties := if |item.properties| > 0 then item.properties else g.properties,
      displayName := if display != "" then display else g.displayName)])
  }

  function DescribedAll(b: Board, items: seq<BookmarkGroup>): Board {
    if items == [] then b else Described(DescribedAll(b, items[..|items| - 1]), items[|items| - 1])
  }

  lemma {:induction false} DescribedAllDetails(b: Board, c: Board, items: seq<BookmarkGroup>)
    requires b.details == c.details
    ensures DescribedAll(b, items).details == DescribedAll(c, items).details
  {
    hide TrimSpace;
    if items != [] {
      DescribedAllDetails(b, c, items[..|items| - 1]);
    }
  }

  function ReplicateFlags(items: seq<BookmarkGroup>): map<string, bool> {
    if items == [] then map[] else
      ReplicateFlags(items[..|items| - 1])[items[|items| - 1].name := items[|items| - 1].replicate]
  }

  function BookmarkPlacement(flags: map<string, bool>, bm: Bookmark): Placement {
    if bm.reachability != Reachable then Skip else
      At(TrimSpace(bm.group),
         Link(bm.name, "", TrimSpace(bm.url), if bm.target == "" then "_self" else bm.target, bm.icon,
              "bookmark", "", Normalized(bm.groups),
              bm.replicate || (bm.group in flags && flags[bm.group])))
  }

  predicate Bears(items: seq<BookmarkGroup>, name: string, has: BookmarkGroup -> bool, i: int) {
    0 <= i < |items| && items[i].name == name && has(items[i])
  }

  /** The last of the items that bears this name and has the property. */
  function Last(items: seq<BookmarkGroup>, name: string, has: BookmarkGroup -> bool): (r: Option<BookmarkGroup>)
    ensures r.Some? ==> exists i :: Bears(items, name, has, i) && items[i] == r.value && forall j :: j > i ==> !Bears(items, name, has, j)
    ensures r.None? ==> forall i :: !Bears(items, name, has, i)
  {
    if items == [] then None else
      var n := |items| - 1;
      assert forall i :: i < n ==> (Bears(items[..n], name, has, i) <==> Bears(items, name, has, i));
      if Bears(items, name, has, n) then Some(items[n]) else
        assert forall i :: i >= n ==> !Bears(items, name, has, i);
        Last(items[..n], name, has)
  }

  function Any(): BookmarkGroup -> bool {
    (item: BookmarkGroup) => true
  }

  function Titled(): BookmarkGroup -> bool {
    (item: BookmarkGroup) => !Blank(item.displayName)
  }

  function WithProperties(): BookmarkGroup -> bool {
    (item: BookmarkGroup) => item.properties != map[]
  }

  /** A group's record, or the one it would get if it were collected into. */
  function RecordAt(b: Board, key: string): LinkGroup {
    if key in b.details then b.details[key] else LinkGroup(key, 0, "", key, "local", map[], false)
  }

  /** What BookmarkGroups make of a group's record: the last item of its name decides on
      replication, the last one with a title on the display name, and the last one with
      properties on these; all else is left alone. */
  function DescribedBy(items: seq<BookmarkGroup>, record: LinkGroup, key: string): LinkGroup {
    var any, titled, withProperties := Last(items, key, Any()), Last(items, key, Titled()), Last(items, key, WithProperties());
    record.(replicate := if any.Some? then any.value.replicate else record.replicate,
            displayName := if titled.Some? then TrimSpace(titled.value.displayName) else record.displayName,
            properties := if withProperties.Some? then withProperties.value.properties else record.properties)
  }

  lemma LastSnoc(items: seq<BookmarkGroup>, name: string, has: BookmarkGroup -> bool)
    requires items != []
    ensures var n := |items| - 1;
      Last(items, name, has) == if items[n].name == name && has(items[n]) then Some(items[n]) else Last(items[..n], name, has)
  {
  }

  /** Which groups there are after the BookmarkGroups, and with what record. */
  lemma {:induction false} DescribedExact(b: Board, items: seq<BookmarkGroup>, key: string)
    ensures var r := DescribedAll(b, items);
      && (key in r.details <==> key in b.details || Last(items, key, Any()).Some?)
      && RecordAt(r, key) == DescribedBy(items, RecordAt(b, key), key)
  {
    if items != [] {
      var n := |items| - 1;
      DescribedExact(b, items[..n], key);
      hide Last, TrimSpace, Described, RecordAt, Titled, WithProperties;
      LastSnoc(items, key, Any());
      LastSnoc(items, key, Titled());
      LastSnoc(items, key, WithProperties());
      DescribedOne(DescribedAll(b, items[..n]), items[n], key);
    }
  }

  lemma DescribedOne(b: Board, item: BookmarkGroup, key: string)
    ensures var r, record := Described(b, item), RecordAt(b, key);
      && (key in r.details <==> key in b.details || key == item.name)
      && RecordAt(r, key) == if key != item.name then record else
           record.(replicate := item.replicate,
                   displayName := if Titled()(item) then TrimSpace(item.displayName) else record.displayName,
                   properties := if WithProperties()(item) then item.properties else record.properties)
  {
    hide TrimSpace, Trimmed, Blank;
    BlankTrims(item.displayName);
  }

  lemma {:induction false} ReplicateFlagsExact(items: seq<BookmarkGroup>, key: string)
    ensures var last := Last(items, key, Any());
      key in ReplicateFlags(items) && ReplicateFlags(items)[key] <==> last.Some? && last.value.replicate
  {
    if items != [] {
      var n := |items| - 1;
      ReplicateFlagsExact(items[..n], key);
      hide Last;
      LastSnoc(items, key, Any());
    }
  }

  /** What a bookmark becomes: it is shown only once its URL is known to be reachable, and
      replicated if it says so itself or the last BookmarkGroup under its untrimmed group does. */
  predicate BookmarkShown(items: seq<BookmarkGroup>, bm: Bookmark, key: string, link: Link) {
    && bm.reachability == Reachable && key == TrimSpace(bm.group)
    && link.name == bm.name && link.url == TrimSpace(bm.url) && link.icon == bm.icon
    && link.target == (if bm.target == "" then "_self" else bm.target)
    && link.groups == Normalized(bm.groups)
    && link.source == "bookmark" && link.linkGroup == link.metadata == ""
    && (link.replicate <==> bm.replicate || (Last(items, bm.group, Any()).Some? && Last(items, bm.group, Any()).value.replicate))
  }

  lemma BookmarkPlacedIff(items: seq<BookmarkGroup>, bm: Bookmark, key: string, link: Link)
    ensures BookmarkPlacement(ReplicateFlags(items), bm) == At(key, link) <==> BookmarkShown(items, bm, key, link)
  {
    hide TrimSpace, Trimmed, Normalized, NoDuplicates, Last, ReplicateFlags;
    ReplicateFlagsExact(items, bm.group);
  }

  function BookmarkPlacements(flags: map<string, bool>, bms: seq<Bookmark>): (ps: seq<Placement>)
    ensures |ps| == |bms|
    ensures forall i :: 0 <= i < |ps| ==> ps[i] == BookmarkPlacement(flags, bms[i])
  {
    seq(|bms|, i requires 0 <= i < |bms| => BookmarkPlacement(flags, bms[i]))
  }

  lemma {:induction false} FlagsTrimmed(items: seq<BookmarkGroup>)
    requires forall i :: 0 <= i < |items| ==> Trimmed(items[i].name)
    ensures forall k :: k in ReplicateFlags(items) ==> Trimmed(k)
  {
    if items != [] {
      FlagsTrimmed(items[..|items| - 1]);
    }
  }

  /** A bookmark listed under a replicated BookmarkGroup is itself replicated
      exactly when it says so or names the group without outer whitespace: the
      flag is looked up under the untrimmed name. */
  lemma BookmarkInherits(items: seq<BookmarkGroup>, bm: Bookmark)
    requires forall i :: 0 <= i < |items| ==> Trimmed(items[i].name)
    requires bm.reachability == Reachable
    requires var flags := ReplicateFlags(items); TrimSpace(bm.group) in flags && flags[TrimSpace(bm.group)]
    ensures var p := BookmarkPlacement(ReplicateFlags(items), bm);
      && p.At? && p.key == TrimSpace(bm.group)
      && (p.link.replicate <==> bm.replicate || Trimmed(bm.group))
  {
    FlagsTrimmed(items);
    if Trimmed(bm.group) {
      TrimFixed(bm.group);
    }
  }

  /** One such bookmark: shown in the replicated group "team", yet never exported. */
  lemma PaddedBookmarkStaysHome()
    ensures var flags := ReplicateFlags([BookmarkGroup("team", "Team", map[], true)]);
      var p := BookmarkPlacement(flags, Bookmark(" team", "CI", "https://ci", "", "", [], false, Reachable));
      flags["team"] && p.At? && p.key == "team" && !p.link.replicate
  {
    TrimPadded(" ", "team", "");
    assert " " + "team" + "" == " team";
    assert [BookmarkGroup("team", "Team", map[], true)][..0] == [];
    assert " team"[0] != "team"[0];
  }

  method DescribeGroups(items: seq<BookmarkGroup>, maps: BoardMaps) returns (groupReplicate: map<string, bool>)
    modifies maps
    ensures maps.Value() == DescribedAll(old(maps.Value()), items)
    ensures groupReplicate == ReplicateFlags(items)
  {
    ghost var start := maps.Value();
    groupReplicate := map[];
    for i := 0 to |items|
      invariant maps.Value() == DescribedAll(start, items[..i])
      invariant groupReplicate == ReplicateFlags(items[..i])
    {
      assert items[..i + 1][..i] == items[..i];
      var item := items[i];
      maps.EnsureLinkGroup(item.name);
      var existing := maps.details[item.name];
      existing := existing.(replicate := item.replicate);
      if |item.properties| > 0 {
        existing := existing.(properties := item.properties);
      }
      var displayName := TrimSpace(item.displayName);
      if displayName != "" {
        existing := existing.(displayName := displayName);
      }
      maps.details := maps.details[item.name := existing];
      groupReplicate := groupReplicate[item.name := item.replicate];
    }
    assert items[..|items|] == items;
  }

  method PlaceBookmarks(groupReplicate: map<string, bool>, bms: seq<Bookmark>, maps: BoardMaps)
    modifies maps
    ensures maps.Value() == PlaceAll(old(maps.Value()), BookmarkPlacements(groupReplicate, bms))
  {
    ghost var start := maps.Value();
    ghost var ps := BookmarkPlacements(groupReplicate, bms);
    assert PlaceAll(start, ps[..0]) == start;
    hide PlaceAll, Place, BookmarkPlacement, BookmarkPlacements;
    for i := 0 to |bms|
      invariant maps.Value() == PlaceAll(start, ps[..i])
    {
      PlaceAllSnoc(start, ps[..i], ps[i]);
      assert ps[..i + 1] == ps[..i] + [ps[i]];
      PlaceBookmark(groupReplicate, bms[i], maps);
    }
    assert ps[..|bms|] == ps;
  }

  /** The body of the loop. */
  method PlaceBookmark(groupReplicate: map<string, bool>, bm: Bookmark, maps: BoardMaps)
    modifies maps
    ensures maps.Value() == Place(old(maps.Value()), BookmarkPlacement(groupReplicate, bm))
  {
    hide TrimSpace, Normalized;
    if bm.reachability != Reachable {
      return;
    }
    var groupName := TrimSpace(bm.group);
    maps.EnsureLinkGroup(groupName);
    var target := bm.target;
    if target == "" {
      target := "_self";
    }
    var replicate := bm.replicate || (bm.group in groupReplicate && groupReplicate[bm.group]);
    var groups := GroupClaims.NormalizedGroups(Some(GroupClaims.Texts(bm.groups)));
    maps.AppendLink(groupName, Link(bm.name, "", TrimSpace(bm.url), target, bm.icon, "bookmark", "", groups, replicate));
  }

  method CollectBookmarkGroups(groupList: Listing<BookmarkGroup>, bookmarkList: Listing<Bookmark>, maps: BoardMaps)
    returns (ok: bool)
    modifies maps
    ensures ok <==> groupList.Listed? && bookmarkList.Listed?
    ensures maps.Value() ==
      if !groupList.Listed? then old(maps.Value()) else
      if !bookmarkList.Listed? then DescribedAll(old(maps.Value()), groupList.items) else
      PlaceAll(DescribedAll(old(maps.Value()), groupList.items),
               BookmarkPlacements(ReplicateFlags(groupList.items), bookmarkList.items))
  {
    if !groupList.Listed? {
      return false;
    }
    var groupReplicate := DescribeGroups(groupList.items, maps);
    if !bookmarkList.Listed? {
      return false;
    }
    PlaceBookmarks(groupReplicate, bookmarkList.items, maps);
    return true;
  }

  // ------------------------------------------------------ annotated resources

  /** A labelled resource; derivedURL is what its kind's own rule finds in the
      spec ("" when it finds nothing). */
  datatype Resource = Resource(namespace: string, name: string, annotations: map<string, string>, derivedURL: string)

  function Annotation(r: Resource, key: string): string {
    if key in r.annotations then r.annotations[key] else ""
  }

  const ANNOTATION_GROUP := "cupboard.netztronaut.de/group"
  const ANNOTATION_NAME := "cupboard.netztronaut.de/name"
  const ANNOTATION_URL := "cupboard.netztronaut.de/url"
  const ANNOTATION_TARGET := "cupboard.netztronaut.de/target"
  const ANNOTATION_ICON := "cupboard.netztronaut.de/icon"
  const ANNOTATION_ICON_URL := "cupboard.netztronaut.de/icon-url"
  const ANNOTATION_REPLICATE := "cupboard.netztronaut.de/replicate"

  function Or(value: string, fallback: string): string {
    if value == "" then fallback else value
  }

  function ResourcePlacement(word: string, r: Resource): Placement {
    var group := Or(Annotation(r, ANNOTATION_GROUP), r.namespace);
    var name := Or(Annotation(r, ANNOTATION_NAME), r.name);
    var url := Or(Annotation(r, ANNOTATION_URL), r.derivedURL);
    if group == "" || name == "" || url == "" then Skip else
      At(group, Link(name, "", url, DefaultTarget(Annotation(r, ANNOTATION_TARGET)),
                     FirstNonEmpty(Annotation(r, ANNOTATION_ICON), Annotation(r, ANNOTATION_ICON_URL)),
                     word, "", [], Annotation(r, ANNOTATION_REPLICATE) == "true"))
  }

  predicate Annotated(r: Resource, key: string, value: string) {
    key in r.annotations && r.annotations[key] == value
  }

  /** The value of an annotation, unless there is none or it is empty. */
  predicate Given(r: Resource, key: string, fallback: string, value: string) {
    if key in r.annotations && r.annotations[key] != "" then value == r.annotations[key] else value == fallback
  }

  predicate Filled(r: Resource, key: string) {
    key in r.annotations && !Blank(r.annotations[key])
  }

  /** What a labelled resource becomes: annotations win over what the object says itself,
      and it is replicated exactly when it is annotated so with the word "true". */
  predicate ResourceShown(word: string, r: Resource, key: string, link: Link) {
    && key != "" && Given(r, "cupboard.netztronaut.de/group", r.namespace, key)
    && link.name != "" && Given(r, "cupboard.netztronaut.de/name", r.name, link.name)
    && link.url != "" && Given(r, "cupboard.netztronaut.de/url", r.derivedURL, link.url)
    && (if Filled(r, "cupboard.netztronaut.de/target") then Annotated(r, "cupboard.netztronaut.de/target", link.target)
        else link.target == "_self")
    && (if Filled(r, "cupboard.netztronaut.de/icon") then Annotated(r, "cupboard.netztronaut.de/icon", link.icon)
        else if Filled(r, "cupboard.netztronaut.de/icon-url") then Annotated(r, "cupboard.netztronaut.de/icon-url", link.icon)
        else link.icon == "")
    && link.source == word && link.groups == [] && link.linkGroup == link.metadata == ""
    && (link.replicate <==> Annotated(r, "cupboard.netztronaut.de/replicate", "true"))
  }

  lemma ResourcePlacedIff(word: string, r: Resource, key: string, link: Link)
    ensures ResourcePlacement(word, r) == At(key, link) <==> ResourceShown(word, r, key, link)
  {
    assert Blank("");
    hide TrimSpace, Trimmed, Blank;
    BlankTrims("");
    BlankTrims(Annotation(r, ANNOTATION_TARGET));
    BlankTrims(Annotation(r, ANNOTATION_ICON));
    BlankTrims(Annotation(r, ANNOTATION_ICON_URL));
  }

  function ResourcePlacements(word: string, rs: seq<Resource>): (ps: seq<Placement>)
    ensures |ps| == |rs|
    ensures forall i :: 0 <= i < |ps| ==> ps[i] == ResourcePlacement(word, rs[i])
  {
    seq(|rs|, i requires 0 <= i < |rs| => ResourcePlacement(word, rs[i]))
  }

  method CollectResources(word: string, tolerant: bool, listing: Listing<Resource>, maps: BoardMaps) returns (ok: bool)
    modifies maps
    ensures ok <==> listing.Listed? || (listing.NotFound? && tolerant)
    ensures maps.Value() ==
      if listing.Listed? then PlaceAll(old(maps.Value()), ResourcePlacements(word, listing.items)) else old(maps.Value())
  {
    if !listing.Listed? {
      return listing.NotFound? && tolerant;
    }
    var rs := listing.items;
    ghost var start := maps.Value();
    ghost var ps := ResourcePlacements(word, rs);
    assert PlaceAll(start, ps[..0]) == start;
    hide PlaceAll, Place, ResourcePlacement, ResourcePlacements;
    for i := 0 to |rs|
      invariant maps.Value() == PlaceAll(start, ps[..i])
    {
      PlaceAllSnoc(start, ps[..i], ps[i]);
      assert ps[..i + 1] == ps[..i] + [ps[i]];
      CollectResource(word, rs[i], maps);
    }
    assert ps[..|rs|] == ps;
    return true;
  }

  /** The body of the loop. */
  method CollectResource(word: string, r: Resource, maps: BoardMaps)
    modifies maps
    ensures maps.Value() == Place(old(maps.Value()), ResourcePlacement(word, r))
  {
    hide TrimSpace, Annotation;
    var group := Annotation(r, ANNOTATION_GROUP);
    if group == "" {
      group := r.namespace;
    }
    var name := Annotation(r, ANNOTATION_NAME);
    if name == "" {
      name := r.name;
    }
    var url := Annotation(r, ANNOTATION_URL);
    if url == "" {
      url := r.derivedURL;
    }
    if group == "" || name == "" || url == "" {
      return;
    }
    maps.EnsureLinkGroup(group);
    maps.AppendLink(group, Link(name, "", url, DefaultTarget(Annotation(r, ANNOTATION_TARGET)),
                                FirstNonEmpty(Annotation(r, ANNOTATION_ICON), Annotation(r, ANNOTATION_ICON_URL)),
                                word, "", [], Annotation(r, ANNOTATION_REPLICATE) == "true"));
  }

  // ------------------------------------------------------------ ForecastleApp

  /** sourceURL is what urlFrom resolves to ("" when there is none or it fails). */
  datatype ForecastleApp = ForecastleApp(
    instance: string, name: string, group: string, icon: string, target: string, url: string,
    sourceURL: string, groups: seq<string>, replicate: bool)

  predicate OtherInstance(instance: string, app: ForecastleApp) {
    instance != "" && TrimSpace(app.instance) != instance
  }

  function ForecastlePlacement(instance: string, app: ForecastleApp, key: string): Placement {
    var url := if TrimSpace(app.url) == "" && app.sourceURL != "" then app.sourceURL else app.url;
    if OtherInstance(instance, app) || TrimSpace(app.name) == "" || TrimSpace(key) == "" || TrimSpace(url) == "" then Skip else
      At(key, Link(app.name, "", url, if TrimSpace(app.target) != "" then app.target else "_blank", app.icon,
                   "forecastleapp", "", Normalized(app.groups), app.replicate))
  }

  /** What an app becomes: one of another instance is not shown, its own URL wins over
      the one of its source, and it opens in a window of its own by default. */
  predicate AppShown(instance: string, app: ForecastleApp, link: Link) {
    && (instance == "" || TrimSpace(app.instance) == instance)
    && !Blank(app.name) && link.name == app.name
    && !Blank(link.url) && link.url == (if Blank(app.url) then app.sourceURL else app.url)
    && link.target == (if Blank(app.target) then "_blank" else app.target)
    && link.icon == app.icon && link.groups == Normalized(app.groups)
    && link.source == "forecastleapp" && link.linkGroup == link.metadata == ""
    && link.replicate == app.replicate
  }

  lemma AppPlacedIff(instance: string, app: ForecastleApp, group: string, key: string, link: Link)
    ensures ForecastlePlacement(instance, app, group) == At(key, link) <==> key == group && !Blank(group) && AppShown(instance, app, link)
  {
    assert Blank("");
    hide TrimSpace, Trimmed, Blank, Normalized, NoDuplicates;
    BlankTrims("");
    BlankTrims(app.name);
    BlankTrims(group);
    BlankTrims(app.url);
    BlankTrims(app.sourceURL);
    BlankTrims(app.target);
  }

  function ForecastlePlacements(instance: string, apps: seq<ForecastleApp>, keys: seq<string>): (ps: seq<Placement>)
    requires |keys| == |apps|
    ensures |ps| == |apps|
    ensures forall i :: 0 <= i < |ps| ==> ps[i] == ForecastlePlacement(instance, apps[i], keys[i])
  {
    seq(|apps|, i requires 0 <= i < |apps| => ForecastlePlacement(instance, apps[i], keys[i]))
  }

  ghost predicate ForecastleKeys(fold: char -> char, instance: string, b: Board, apps: seq<ForecastleApp>, keys: seq<string>) {
    && |keys| == |apps|
    && forall i :: 0 <= i < |apps| ==>
         || OtherInstance(instance, apps[i])
         || Resolves(fold, apps[i].group, PlaceAll(b, ForecastlePlacements(instance, apps, keys)[..i]).details, keys[i])
  }

  lemma ForecastleKeysSnoc(fold: char -> char, instance: string, b: Board, apps: seq<ForecastleApp>, keys: seq<string>, key: string)
    requires |keys| < |apps| && ForecastleKeys(fold, instance, b, apps[..|keys|], keys)
    requires var i := |keys|;
      || OtherInstance(instance, apps[i])
      || Resolves(fold, apps[i].group, PlaceAll(b, ForecastlePlacements(instance, apps[..i], keys)).details, key)
    ensures var i := |keys|;
      && ForecastleKeys(fold, instance, b, apps[..i + 1], keys + [key])
      && PlaceAll(b, ForecastlePlacements(instance, apps[..i + 1], keys + [key]))
         == Place(PlaceAll(b, ForecastlePlacements(instance, apps[..i], keys)), ForecastlePlacement(instance, apps[i], key))
  {
    hide Resolves, ForecastlePlacement, OtherInstance, PlaceAll;
    var i := |keys|;
    var done := ForecastlePlacements(instance, apps[..i], keys);
    var ps := ForecastlePlacements(instance, apps[..i + 1], keys + [key]);
    assert ps == done + [ForecastlePlacement(instance, apps[i], key)];
    assert ps[..i] == done;
    PlaceAllSnoc(b, done, ps[i]);
    forall j | 0 <= j < i + 1
      ensures || OtherInstance(instance, apps[..i + 1][j])
              || Resolves(fold, apps[..i + 1][j].group, PlaceAll(b, ps[..j]).details, (keys + [key])[j])
    {
      assert ps[..j] == done[..j];
      assert j < i ==> apps[..i + 1][j] == apps[..i][j] && (keys + [key])[j] == keys[j];
    }
  }

  method CollectForecastleApps(fold: char -> char, instance: string, listing: Listing<ForecastleApp>, maps: BoardMaps)
    returns (ok: bool, ghost keys: seq<string>)
    modifies maps
    ensures ok <==> !listing.Failed?
    ensures listing.Listed? ==>
      && ForecastleKeys(fold, instance, old(maps.Value()), listing.items, keys)
      && maps.Value() == PlaceAll(old(maps.Value()), ForecastlePlacements(instance, listing.items, keys))
    ensures !listing.Listed? ==> maps.Value() == old(maps.Value()) && keys == []
  {
    keys := [];
    if !listing.Listed? {
      return listing.NotFound?, keys;
    }
    var apps := listing.items;
    ghost var start := maps.Value();
    assert PlaceAll(start, ForecastlePlacements(instance, apps[..0], [])) == start;
    assert ForecastleKeys(fold, instance, start, apps[..0], []);
    hide PlaceAll, ForecastleKeys, Resolves, OtherInstance, ForecastlePlacement, ForecastlePlacements;
    for i := 0 to |apps|
      invariant |keys| == i && ForecastleKeys(fold, instance, start, apps[..i], keys)
      invariant maps.Value() == PlaceAll(start, ForecastlePlacements(instance, apps[..i], keys))
    {
      var key := CollectForecastleApp(fold, instance, apps[i], maps);
      ForecastleKeysSnoc(fold, instance, start, apps, keys, key);
      keys := keys + [key];
    }
    assert apps[..|apps|] == apps;
    return true, keys;
  }

  /** The body of the loop. */
  method CollectForecastleApp(fold: char -> char, instance: string, app: ForecastleApp, maps: BoardMaps) returns (groupName: string)
    modifies maps
    ensures OtherInstance(instance, app) || Resolves(fold, app.group, old(maps.details), groupName)
    ensures maps.Value() == Place(old(maps.Value()), ForecastlePlacement(instance, app, groupName))
  {
    hide Resolves, TrimSpace, Normalized;
    if OtherInstance(instance, app) {
      return "";
    }
    groupName := ResolveLinkGroupName(fold, app.group, maps.details);
    var target := "_blank";
    if TrimSpace(app.target) != "" {
      target := app.target;
    }
    var url := app.url;
    if TrimSpace(url) == "" && app.sourceURL != "" {
      url := app.sourceURL;
    }
    if TrimSpace(app.name) == "" || TrimSpace(groupName) == "" || TrimSpace(url) == "" {
      return;
    }
    maps.EnsureLinkGroup(groupName);
    var groups := GroupClaims.NormalizedGroups(Some(GroupClaims.Texts(app.groups)));
    maps.AppendLink(groupName, Link(app.name, "", url, target, app.icon, "forecastleapp", "", groups, app.replicate));
  }

  // --------------------------------------- what label lookups leave undecided

  /** A trimmed label that is neither a key nor a match for one. */
  ghost predicate Unheard(fold: char -> char, details: Details, name: string) {
    name !in details && forall k :: !Matches(fold, details, k, name)
  }

  /** The groups there are after one app more, wherever it lands. */
  ghost function AppStep(fold: char -> char, instance: string, details: Details, app: ForecastleApp): Details {
    var name := TrimSpace(app.group);
    if ForecastlePlacement(instance, app, name).At? && Unheard(fold, details, name) then details[name := NewGroup(name, "local")]
    else details
  }

  ghost function AppDetails(fold: char -> char, instance: string, details: Details, apps: seq<ForecastleApp>): Details {
    if apps == [] then details else
      AppStep(fold, instance, AppDetails(fold, instance, details, apps[..|apps| - 1]), apps[|apps| - 1])
  }

  lemma PlaceDetails(b: Board, p: Placement)
    ensures Place(b, p).details == if p.At? then Ensure(b, p.key).details else b.details
  {
  }

  lemma AppStepDetails(fold: char -> char, instance: string, b: Board, app: ForecastleApp, key: string)
    requires OtherInstance(instance, app) || Resolves(fold, app.group, b.details, key)
    ensures Place(b, ForecastlePlacement(instance, app, key)).details == AppStep(fold, instance, b.details, app)
  {
    var name := TrimSpace(app.group);
    PlaceDetails(b, ForecastlePlacement(instance, app, key));
    TrimFixed(name);
    if !OtherInstance(instance, app) && key !in b.details {
      assert key == name;
    }
    hide Place, Normalized, Matches;
  }

  /** keys[i] is a possible resolution of the i-th app's label among the groups there are
      before it. These do not depend on the other keys, so each app chooses for itself. */
  ghost predicate AppAnswers(fold: char -> char, instance: string, details: Details, apps: seq<ForecastleApp>, keys: seq<string>) {
    && |keys| == |apps|
    && forall i :: 0 <= i < |apps| ==>
         OtherInstance(instance, apps[i]) || Resolves(fold, apps[i].group, AppDetails(fold, instance, details, apps[..i]), keys[i])
  }

  lemma AppDetailsSnoc(fold: char -> char, instance: string, details: Details, apps: seq<ForecastleApp>, n: nat)
    requires n < |apps|
    ensures AppDetails(fold, instance, details, apps[..n + 1])
         == AppStep(fold, instance, AppDetails(fold, instance, details, apps[..n]), apps[n])
  {
    assert apps[..n + 1][..n] == apps[..n];
  }

  lemma AppDetailsStep(fold: char -> char, instance: string, b: Board, apps: seq<ForecastleApp>, keys: seq<string>, n: nat)
    requires |keys| == |apps| && n < |apps|
    requires PlaceAll(b, ForecastlePlacements(instance, apps, keys)[..n]).details == AppDetails(fold, instance, b.details, apps[..n])
    requires OtherInstance(instance, apps[n])
          || Resolves(fold, apps[n].group, PlaceAll(b, ForecastlePlacements(instance, apps, keys)[..n]).details, keys[n])
    ensures PlaceAll(b, ForecastlePlacements(instance, apps, keys)[..n + 1]).details == AppDetails(fold, instance, b.details, apps[..n + 1])
  {
    hide PlaceAll, Resolves, OtherInstance, ForecastlePlacement, AppDetails, AppStep, Place;
    var ps := ForecastlePlacements(instance, apps, keys);
    assert ps[..n + 1] == ps[..n] + [ps[n]];
    PlaceAllSnoc(b, ps[..n], ps[n]);
    AppDetailsSnoc(fold, instance, b.details, apps, n);
    AppStepDetails(fold, instance, PlaceAll(b, ps[..n]), apps[n], keys[n]);
  }

  lemma AppDetailsStart(fold: char -> char, instance: string, b: Board, apps: seq<ForecastleApp>, keys: seq<string>)
    requires |keys| == |apps|
    ensures PlaceAll(b, ForecastlePlacements(instance, apps, keys)[..0]).details == AppDetails(fold, instance, b.details, apps[..0])
  {
    assert ForecastlePlacements(instance, apps, keys)[..0] == [] && apps[..0] == [];
  }

  lemma {:induction false} LegalAppDetails(fold: char -> char, instance: string, b: Board, apps: seq<ForecastleApp>,
                                           keys: seq<string>, n: nat)
    requires ForecastleKeys(fold, instance, b, apps, keys) && n <= |apps|
    ensures PlaceAll(b, ForecastlePlacements(instance, apps, keys)[..n]).details == AppDetails(fold, instance, b.details, apps[..n])
  {
    KeysLength(fold, instance, b, apps, keys);
    hide PlaceAll, Resolves, OtherInstance, AppDetails, ForecastleKeys, ForecastlePlacement;
    if n == 0 {
      AppDetailsStart(fold, instance, b, apps, keys);
    } else {
      LegalAppDetails(fold, instance, b, apps, keys, n - 1);
      LegalAppStep(fold, instance, b, apps, keys, n - 1);
    }
  }

  lemma LegalAppStep(fold: char -> char, instance: string, b: Board, apps: seq<ForecastleApp>, keys: seq<string>, n: nat)
    requires ForecastleKeys(fold, instance, b, apps, keys) && n < |apps|
    requires PlaceAll(b, ForecastlePlacements(instance, apps, keys)[..n]).details == AppDetails(fold, instance, b.details, apps[..n])
    ensures PlaceAll(b, ForecastlePlacements(instance, apps, keys)[..n + 1]).details == AppDetails(fold, instance, b.details, apps[..n + 1])
  {
    KeysLength(fold, instance, b, apps, keys);
    hide PlaceAll, Resolves, OtherInstance, AppDetails, ForecastleKeys, ForecastlePlacement;
    ForecastleResolved(fold, instance, b, apps, keys, ForecastlePlacements(instance, apps, keys)[..n], n);
    AppDetailsStep(fold, instance, b, apps, keys, n);
  }

  lemma {:induction false} AnsweredAppDetails(fold: char -> char, instance: string, b: Board, apps: seq<ForecastleApp>,
                                              keys: seq<string>, n: nat)
    requires AppAnswers(fold, instance, b.details, apps, keys) && n <= |apps|
    ensures PlaceAll(b, ForecastlePlacements(instance, apps, keys)[..n]).details == AppDetails(fold, instance, b.details, apps[..n])
  {
    hide PlaceAll, Resolves, OtherInstance, AppDetails, ForecastlePlacement;
    if n == 0 {
      AppDetailsStart(fold, instance, b, apps, keys);
    } else {
      AnsweredAppDetails(fold, instance, b, apps, keys, n - 1);
      AppDetailsStep(fold, instance, b, apps, keys, n - 1);
    }
  }

  /** The runs of the loop are the free choices of an answer for each app. */
  lemma ForecastleKeysIff(fold: char -> char, instance: string, b: Board, apps: seq<ForecastleApp>, keys: seq<string>)
    ensures ForecastleKeys(fold, instance, b, apps, keys) <==> AppAnswers(fold, instance, b.details, apps, keys)
  {
    hide PlaceAll, Resolves, OtherInstance, AppDetails;
    if ForecastleKeys(fold, instance, b, apps, keys) {
      forall i | 0 <= i < |apps|
        ensures OtherInstance(instance, apps[i]) || Resolves(fold, apps[i].group, AppDetails(fold, instance, b.details, apps[..i]), keys[i])
      {
        LegalAppDetails(fold, instance, b, apps, keys, i);
      }
    }
    if AppAnswers(fold, instance, b.details, apps, keys) {
      forall i | 0 <= i < |apps|
        ensures OtherInstance(instance, apps[i])
             || Resolves(fold, apps[i].group, PlaceAll(b, ForecastlePlacements(instance, apps, keys)[..i]).details, keys[i])
      {
        AnsweredAppDetails(fold, instance, b, apps, keys, i);
      }
    }
  }

  // ---------------------------------------- when apps land in a determined group

  lemma SameLanding(instance: string, app: ForecastleApp, k1: string, k2: string)
    requires OtherInstance(instance, app) || Landing(k1) == Landing(k2)
    ensures ForecastlePlacement(instance, app, k1) == ForecastlePlacement(instance, app, k2)
  {
    hide Normalized;
  }

  lemma ForecastlePlacementKey(instance: string, app: ForecastleApp, key: string)
    requires ForecastlePlacement(instance, app, key).At?
    ensures key != "" && ForecastlePlacement(instance, app, key).key == key && !OtherInstance(instance, app)
  {
    hide Normalized;
  }

  /** One app more adds at most the group it lands in. */
  lemma ForecastleStep(fold: char -> char, instance: string, b: Board, apps: seq<ForecastleApp>, keys: seq<string>, n: nat)
    requires ForecastleKeys(fold, instance, b, apps, keys) && n < |apps|
    ensures var ps := ForecastlePlacements(instance, apps, keys);
      && (OtherInstance(instance, apps[n]) || Resolves(fold, apps[n].group, PlaceAll(b, ps[..n]).details, keys[n]))
      && (ps[n].At? ==> keys[n] != "" && !OtherInstance(instance, apps[n]))
      && (ps[n].At? ==> PlaceAll(b, ps[..n + 1]).details == Ensure(PlaceAll(b, ps[..n]), keys[n]).details)
      && (ps[n].Skip? ==> PlaceAll(b, ps[..n + 1]).details == PlaceAll(b, ps[..n]).details)
  {
    hide PlaceAll, Resolves, ForecastlePlacement, OtherInstance;
    var ps := ForecastlePlacements(instance, apps, keys);
    assert ps[..n + 1] == ps[..n] + [ps[n]];
    PlaceAllSnoc(b, ps[..n], ps[n]);
    if ps[n].At? {
      ForecastlePlacementKey(instance, apps[n], keys[n]);
    }
  }

  lemma {:induction false} ForecastleKeepDecided(fold: char -> char, instance: string, b: Board, apps: seq<ForecastleApp>,
                                                 keys: seq<string>, n: nat)
    requires Decided(fold, b.details) && ForecastleKeys(fold, instance, b, apps, keys) && n <= |apps|
    ensures Decided(fold, PlaceAll(b, ForecastlePlacements(instance, apps, keys)[..n]).details)
  {
    var ps := ForecastlePlacements(instance, apps, keys);
    assert PlaceAll(b, []) == b;
    hide PlaceAll, Resolves, ForecastleKeys, ForecastlePlacement, OtherInstance, Ensure, Decided;
    if n == 0 {
      assert ps[..0] == [];
    } else {
      ForecastleKeepDecided(fold, instance, b, apps, keys, n - 1);
      ForecastleStepDecided(fold, instance, b, apps, keys, n - 1);
    }
  }

  lemma ForecastleStepDecided(fold: char -> char, instance: string, b: Board, apps: seq<ForecastleApp>, keys: seq<string>, n: nat)
    requires ForecastleKeys(fold, instance, b, apps, keys) && n < |apps|
    requires Decided(fold, PlaceAll(b, ForecastlePlacements(instance, apps, keys)[..n]).details)
    ensures Decided(fold, PlaceAll(b, ForecastlePlacements(instance, apps, keys)[..n + 1]).details)
  {
    var ps := ForecastlePlacements(instance, apps, keys);
    hide PlaceAll, Resolves, ForecastleKeys, ForecastlePlacement, OtherInstance, Ensure, Decided;
    ForecastleStep(fold, instance, b, apps, keys, n);
    if ps[n].At? {
      EnsureDecided(fold, apps[n].group, PlaceAll(b, ps[..n]), keys[n]);
    }
  }

  /** Where every label has one place to land in, the map's order has no influence
      on what the apps add. */
  lemma {:induction false} ForecastleUnique(fold: char -> char, instance: string, b: Board, apps: seq<ForecastleApp>,
                                            keys: seq<string>, other: seq<string>, n: nat)
    requires Decided(fold, b.details) && n <= |apps|
    requires ForecastleKeys(fold, instance, b, apps, keys) && ForecastleKeys(fold, instance, b, apps, other)
    ensures ForecastlePlacements(instance, apps, keys)[..n] == ForecastlePlacements(instance, apps, other)[..n]
  {
    hide ForecastleKeys, ForecastlePlacement, Decided;
    if n > 0 {
      ForecastleUnique(fold, instance, b, apps, keys, other, n - 1);
      ForecastleUniqueStep(fold, instance, b, apps, keys, other, n - 1);
    }
  }

  lemma ForecastleResolved(fold: char -> char, instance: string, b: Board, apps: seq<ForecastleApp>, keys: seq<string>,
                           before: seq<Placement>, n: nat)
    requires ForecastleKeys(fold, instance, b, apps, keys) && n < |apps|
    requires ForecastlePlacements(instance, apps, keys)[..n] == before
    ensures OtherInstance(instance, apps[n]) || Resolves(fold, apps[n].group, PlaceAll(b, before).details, keys[n])
  {
  }

  lemma ForecastleUniqueStep(fold: char -> char, instance: string, b: Board, apps: seq<ForecastleApp>,
                             keys: seq<string>, other: seq<string>, n: nat)
    requires Decided(fold, b.details) && n < |apps|
    requires ForecastleKeys(fold, instance, b, apps, keys) && ForecastleKeys(fold, instance, b, apps, other)
    requires ForecastlePlacements(instance, apps, keys)[..n] == ForecastlePlacements(instance, apps, other)[..n]
    ensures ForecastlePlacements(instance, apps, keys)[..n + 1] == ForecastlePlacements(instance, apps, other)[..n + 1]
  {
    var ps, qs := ForecastlePlacements(instance, apps, keys), ForecastlePlacements(instance, apps, other);
    hide PlaceAll, Resolves, ForecastleKeys, ForecastlePlacement, OtherInstance, Decided;
    ForecastleResolved(fold, instance, b, apps, keys, ps[..n], n);
    ForecastleResolved(fold, instance, b, apps, other, ps[..n], n);
    ForecastleKeepDecided(fold, instance, b, apps, keys, n);
    SamePlacement(fold, instance, PlaceAll(b, ps[..n]).details, apps[n], keys[n], other[n]);
    TakeMore(ps, qs, n);
  }

  lemma SamePlacement(fold: char -> char, instance: string, details: Details, app: ForecastleApp, k1: string, k2: string)
    requires Decided(fold, details)
    requires OtherInstance(instance, app) || (Resolves(fold, app.group, details, k1) && Resolves(fold, app.group, details, k2))
    ensures ForecastlePlacement(instance, app, k1) == ForecastlePlacement(instance, app, k2)
  {
    hide Resolves, Decided, ForecastlePlacement, OtherInstance;
    if !OtherInstance(instance, app) {
      ResolveLanding(fold, app.group, details, k1, k2);
    }
    SameLanding(instance, app, k1, k2);
  }

  lemma TakeMore<T>(xs: seq<T>, ys: seq<T>, n: nat)
    requires n < |xs| && n < |ys| && xs[..n] == ys[..n] && xs[n] == ys[n]
    ensures xs[..n + 1] == ys[..n + 1]
  {
    assert xs[..n + 1] == xs[..n] + [xs[n]] && ys[..n + 1] == ys[..n] + [ys[n]];
  }

  ghost predicate AppsDetermined(fold: char -> char, instance: string, b: Board, apps: seq<ForecastleApp>) {
    forall keys, other :: ForecastleKeys(fold, instance, b, apps, keys) && ForecastleKeys(fold, instance, b, apps, other)
      ==> ForecastlePlacements(instance, apps, keys) == ForecastlePlacements(instance, apps, other)
  }

  /** Every list of apps adds links that are fixed by the lists exactly when every
      label has one place to land in. The configured instance is a trimmed string. */
  lemma AppsDeterminedIff(fold: char -> char, instance: string, b: Board)
    requires Trimmed(instance)
    ensures (forall apps :: AppsDetermined(fold, instance, b, apps)) <==> Decided(fold, b.details)
  {
    hide AppsDetermined;
    if Decided(fold, b.details) {
      forall apps ensures AppsDetermined(fold, instance, b, apps) {
        AppsDeterminedAll(fold, instance, b, apps);
      }
    } else {
      var name, k1, k2 :| ContestedBy(fold, b.details, name, k1, k2) && Landing(k1) != Landing(k2);
      ContestedApp(fold, instance, b, name, k1, k2);
    }
  }

  lemma AppsDeterminedAll(fold: char -> char, instance: string, b: Board, apps: seq<ForecastleApp>)
    requires Decided(fold, b.details)
    ensures AppsDetermined(fold, instance, b, apps)
  {
    hide ForecastleKeys;
    forall keys, other | ForecastleKeys(fold, instance, b, apps, keys) && ForecastleKeys(fold, instance, b, apps, other)
      ensures |keys| == |apps| == |other|
      ensures ForecastlePlacements(instance, apps, keys) == ForecastlePlacements(instance, apps, other)
    {
      KeysLength(fold, instance, b, apps, keys);
      KeysLength(fold, instance, b, apps, other);
      ForecastleUnique(fold, instance, b, apps, keys, other, |apps|);
      var ps, qs := ForecastlePlacements(instance, apps, keys), ForecastlePlacements(instance, apps, other);
      assert ps[..|apps|] == ps && qs[..|apps|] == qs;
    }
  }

  lemma KeysLength(fold: char -> char, instance: string, b: Board, apps: seq<ForecastleApp>, keys: seq<string>)
    requires ForecastleKeys(fold, instance, b, apps, keys)
    ensures |keys| == |apps|
  {
  }

  function PlainApp(instance: string, group: string): ForecastleApp {
    ForecastleApp(instance, "x", group, "", "", "x", "", [], true)
  }

  /** An app whose label has two places to land in may land in either. */
  lemma ContestedApp(fold: char -> char, instance: string, b: Board, name: string, k1: string, k2: string)
    requires Trimmed(instance) && ContestedBy(fold, b.details, name, k1, k2) && Landing(k1) != Landing(k2)
    ensures !AppsDetermined(fold, instance, b, [PlainApp(instance, name)])
  {
    var app := PlainApp(instance, name);
    LandsUnder(instance, name, k1);
    LandsUnder(instance, name, k2);
    MayResolve(fold, instance, b, app, k1);
    MayResolve(fold, instance, b, app, k2);
    hide ForecastleKeys, ForecastlePlacement, ContestedBy, Landing;
    var ps, qs := ForecastlePlacements(instance, [app], [k1]), ForecastlePlacements(instance, [app], [k2]);
    assert ps[0] == ForecastlePlacement(instance, app, k1) && qs[0] == ForecastlePlacement(instance, app, k2);
    assert ps != qs;
  }

  lemma LandsUnder(instance: string, name: string, key: string)
    requires Trimmed(instance)
    ensures var p := ForecastlePlacement(instance, PlainApp(instance, name), key);
      if Landing(key) == "" then p.Skip? else p.At? && p.key == key == Landing(key) && p.link.replicate
  {
    hide Normalized;
    TrimFixed(instance);
    TrimFixed("x");
  }

  lemma MayResolve(fold: char -> char, instance: string, b: Board, app: ForecastleApp, key: string)
    requires app.group != "" && Trimmed(app.group) && app.group !in b.details && Matches(fold, b.details, key, app.group)
    ensures ForecastleKeys(fold, instance, b, [app], [key])
  {
    TrimFixed(app.group);
    assert ForecastlePlacements(instance, [app], [key])[..0] == [];
    assert PlaceAll(b, []) == b;
    assert Resolves(fold, app.group, b.details, key);
    hide Resolves, PlaceAll, ForecastlePlacement;
  }

  // ------------------------------------------------------------------ InfoTile

  datatype InfoTile = InfoTile(resourceName: string, group: string, tile: Tile)

  function TileKey(item: InfoTile): string {
    Or(TrimSpace(item.group), item.resourceName)
  }

  function PlaceTile(b: Board, item: InfoTile): Board {
    var key := TileKey(item);
    var e := if key in b.details then b else b.(details := b.details[key := NewGroup(key, "infotile")]);
    e.(tiles := e.tiles[key := TilesAt(e, key) + [item.tile.(target := DefaultTarget(item.tile.target))]])
  }

  function PlaceTiles(b: Board, items: seq<InfoTile>): Board {
    if items == [] then b else PlaceTile(PlaceTiles(b, items[..|items| - 1]), items[|items| - 1])
  }

  function PickedTiles(items: seq<InfoTile>, key: string): seq<Tile> {
    if items == [] then [] else
      var last := items[|items| - 1];
      PickedTiles(items[..|items| - 1], key) +
      if TileKey(last) == key then [last.tile.(target := DefaultTarget(last.tile.target))] else []
  }

  /** A tile is filed under its group, or else under its own resource name. */
  function Filed(key: string): InfoTile -> bool {
    (item: InfoTile) => key == if Blank(item.group) then item.resourceName else TrimSpace(item.group)
  }

  /** It opens in the same window unless it says otherwise. */
  function TileShown(): InfoTile -> Tile {
    (item: InfoTile) => if Blank(item.tile.target) then item.tile.(target := "_self") else item.tile
  }

  lemma {:induction false} PickedTilesExact(items: seq<InfoTile>, key: string)
    ensures PickedTiles(items, key) == Map(TileShown(), Filter(Filed(key), items))
  {
    if items != [] {
      var n := |items| - 1;
      PickedTilesExact(items[..n], key);
      hide TrimSpace, Trimmed, Blank, PickedTiles;
      PickedTilesSnoc(items, key);
      FilterSnoc(Filed(key), items, n);
      assert items[..n + 1] == items;
      BlankTrims(items[n].group);
      BlankTrims(items[n].tile.target);
    }
  }

  lemma PickedTilesSnoc(items: seq<InfoTile>, key: string)
    requires items != []
    ensures var n := |items| - 1;
      PickedTiles(items, key) == PickedTiles(items[..n], key)
        + if TileKey(items[n]) == key then [items[n].tile.(target := DefaultTarget(items[n].tile.target))] else []
  {
  }

  lemma PlaceTileExact(b: Board, item: InfoTile, key: string)
    ensures var r := PlaceTile(b, item);
      && TilesAt(r, key) == TilesAt(b, key) + PickedTiles([item], key)
      && r.links == b.links
      && (key in r.details <==> key in b.details || key == TileKey(item))
      && (key in r.details ==> r.details[key] == if key in b.details then b.details[key] else NewGroup(key, "infotile"))
  {
    hide TileKey, DefaultTarget;
    assert [item][..0] == [];
  }

  /** Under each key its tiles, in order; a group is new exactly when a tile is its
      first item, and then has the default record. */
  lemma {:induction false} PlaceTilesExact(b: Board, items: seq<InfoTile>, key: string)
    ensures var r := PlaceTiles(b, items);
      && TilesAt(r, key) == TilesAt(b, key) + PickedTiles(items, key)
      && r.links == b.links
      && (key in r.details <==> key in b.details || PickedTiles(items, key) != [])
      && (key in r.details ==> r.details[key] == if key in b.details then b.details[key] else NewGroup(key, "infotile"))
  {
    hide TileKey, DefaultTarget, TilesAt, PlaceTile, NewGroup;
    if items != [] {
      var n := |items| - 1;
      PlaceTilesExact(b, items[..n], key);
      PlaceTileExact(PlaceTiles(b, items[..n]), items[n], key);
      assert [items[n]][..0] == [];
    }
  }

  lemma {:induction false} PlaceTilesDetails(b: Board, c: Board, items: seq<InfoTile>)
    requires b.details == c.details
    ensures PlaceTiles(b, items).details == PlaceTiles(c, items).details
  {
    hide TileKey;
    if items != [] {
      PlaceTilesDetails(b, c, items[..|items| - 1]);
    }
  }

  method CollectInfoTiles(listing: Listing<InfoTile>, maps: BoardMaps) returns (ok: bool)
    modifies maps
    ensures ok <==> listing.Listed?
    ensures maps.Value() == if listing.Listed? then PlaceTiles(old(maps.Value()), listing.items) else old(maps.Value())
  {
    if !listing.Listed? {
      return false;
    }
    var items := listing.items;
    ghost var start := maps.Value();
    for i := 0 to |items|
      invariant maps.Value() == PlaceTiles(start, items[..i])
    {
      assert items[..i + 1][..i] == items[..i];
      var item := items[i];
      var groupName := TrimSpace(item.group);
      if groupName == "" {
        groupName := item.resourceName;
      }
      if groupName !in maps.details {
        maps.details := maps.details[groupName := LinkGroup(groupName, 0, "", groupName, "infotile", map[], false)];
      }
      maps.AppendTile(groupName, item.tile.(target := DefaultTarget(item.tile.target)));
    }
    assert items[..|items|] == items;
    return true;
  }
}
