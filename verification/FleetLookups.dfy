/**
 What label lookups at foreign clusters leave undecided. The groups a cluster has
 before each of its apps are fixed, so each app chooses its group for itself, and one
 can tell from a cluster's lists which groups it may and which it must supply.
 */
module FleetLookups {
  import opened Wrappers
  import opened Text
  import opened Sequences
  import opened Boards
  import opened Labels
  import opened Collect
  import opened Sources
  import opened Collection
  import opened Fleet

  // ------------------------------------------------ the choices of one cluster

  function AppsOf(c: Cluster): seq<ForecastleApp> {
    if c.forecastle.available && c.forecastle.listing.Listed? then c.forecastle.listing.items else []
  }

  /** What the sources before the apps place. */
  function PlacedBeforeApps(c: Cluster): seq<Placement> {
    var n := |ForeignPlan(c)| - 1;
    RunPlacements("", ForeignPlan(c)[..n], seq(n, i => []))
  }

  function BoardBeforeApps(c: Cluster): Board {
    PlaceAll(EMPTY_BOARD, PlacedBeforeApps(c))
  }

  ghost predicate ForeignKeys(fold: char -> char, c: Cluster, keys: seq<seq<string>>) {
    RunKeys(fold, "", EMPTY_BOARD, ForeignPlan(c), keys)
  }

  function AppKeys(c: Cluster, keys: seq<seq<string>>): seq<string>
    requires |keys| == |ForeignPlan(c)|
  {
    if c.forecastle.available && c.forecastle.listing.Listed? then keys[|keys| - 1] else []
  }

  lemma ForeignPlanLast(c: Cluster)
    ensures var n := |ForeignPlan(c)| - 1;
      && n >= 0 && ForeignPlan(c)[n] == Forecastle(c.forecastle)
      && forall i :: 0 <= i < n ==> ForeignPlan(c)[i].Labelled?
  {
  }

  lemma BeforeLast(c: Cluster, keys: seq<seq<string>>)
    requires |keys| == |ForeignPlan(c)|
    ensures var n := |keys| - 1; RunPlacements("", ForeignPlan(c)[..n], keys[..n]) == PlacedBeforeApps(c)
  {
    ForeignPlanLast(c);
    hide ForeignPlan, RunPlacements;
    var n := |keys| - 1;
    LabelledRun("", ForeignPlan(c)[..n], keys[..n], seq(n, i => []));
  }

  /** The runs over a cluster's lists are the free choices of an answer for each app. */
  lemma ForeignKeysIff(fold: char -> char, c: Cluster, keys: seq<seq<string>>)
    ensures ForeignKeys(fold, c, keys)
       <==> |keys| == |ForeignPlan(c)| && AppAnswers(fold, "", BoardBeforeApps(c).details, AppsOf(c), AppKeys(c, keys))
  {
    ForeignPlanLast(c);
    hide ForeignPlan, RunPlacements, ForecastleKeys, AppAnswers, PlaceAll;
    if |keys| == |ForeignPlan(c)| {
      var n := |keys| - 1;
      BeforeLast(c, keys);
      ForecastleKeysIff(fold, "", BoardBeforeApps(c), AppsOf(c), AppKeys(c, keys));
      NoAppsAnswered(fold, "", BoardBeforeApps(c).details);
      LastKeys(fold, "", EMPTY_BOARD, ForeignPlan(c), keys);
    }
  }

  lemma NoAppsAnswered(fold: char -> char, instance: string, details: Details)
    ensures AppAnswers(fold, instance, details, [], [])
  {
  }

  /** Only the last source resolves labels. */
  lemma LastKeys(fold: char -> char, instance: string, b: Board, plan: seq<Source>, keys: seq<seq<string>>)
    requires |keys| == |plan| > 0 && forall i :: 0 <= i < |plan| - 1 ==> plan[i].Labelled?
    ensures var n := |plan| - 1;
      && (RunKeys(fold, instance, b, plan, keys) ==>
            SourceKeys(fold, instance, PlaceAll(b, RunPlacements(instance, plan[..n], keys[..n])), plan[n], keys[n]))
      && (SourceKeys(fold, instance, PlaceAll(b, RunPlacements(instance, plan[..n], keys[..n])), plan[n], keys[n]) ==>
            RunKeys(fold, instance, b, plan, keys))
  {
    hide ForecastleKeys, PlaceAll, RunPlacements;
  }

  /** What a cluster's run places: what precedes the apps, and the apps. */
  lemma ForeignPlaced(fold: char -> char, c: Cluster, keys: seq<seq<string>>)
    requires ForeignKeys(fold, c, keys)
    ensures |keys| == |ForeignPlan(c)| && |AppKeys(c, keys)| == |AppsOf(c)|
    ensures RunPlacements("", ForeignPlan(c), keys) == PlacedBeforeApps(c) + ForecastlePlacements("", AppsOf(c), AppKeys(c, keys))
  {
    ForeignKeysIff(fold, c, keys);
    ForeignPlanLast(c);
    BeforeLast(c, keys);
    hide ForeignPlan, RunPlacements, PlacedBeforeApps, Resolves, AppDetails, RunKeys;
    var n := |keys| - 1;
    var plan := ForeignPlan(c);
    RunPlacementsSnoc("", plan, keys, n);
    assert plan[..n + 1] == plan && keys[..n + 1] == keys;
    assert SourcePlacements("", plan[n], keys[n]) == ForecastlePlacements("", AppsOf(c), AppKeys(c, keys));
  }

  // ------------------------------------------- when a cluster's maps are determined

  ghost predicate ForeignDetermined(fold: char -> char, c: Cluster) {
    forall keys, other :: ForeignKeys(fold, c, keys) && ForeignKeys(fold, c, other) ==> ForeignBoard(c, keys) == ForeignBoard(c, other)
  }

  lemma ForeignKeysLegal(fold: char -> char, c: Cluster, keys: seq<seq<string>>)
    requires ForeignKeys(fold, c, keys)
    ensures |keys| == |ForeignPlan(c)|
    ensures |AppKeys(c, keys)| == |AppsOf(c)|
    ensures ForecastleKeys(fold, "", BoardBeforeApps(c), AppsOf(c), AppKeys(c, keys))
  {
    hide ForeignPlan, BoardBeforeApps, Resolves, AppDetails, ForecastleKeys, ForeignKeys;
    ForeignKeysIff(fold, c, keys);
    ForecastleKeysIff(fold, "", BoardBeforeApps(c), AppsOf(c), AppKeys(c, keys));
  }

  /** Where the groups before the apps leave every label one place to land in, any two
      collections of a cluster's lists give the same maps. */
  lemma ForeignBoardUnique(fold: char -> char, c: Cluster, keys: seq<seq<string>>, other: seq<seq<string>>)
    requires Decided(fold, BoardBeforeApps(c).details) && ForeignKeys(fold, c, keys) && ForeignKeys(fold, c, other)
    ensures |keys| == |ForeignPlan(c)| == |other| && ForeignBoard(c, keys) == ForeignBoard(c, other)
  {
    hide ForeignKeys, Decided, BoardBeforeApps, PlacedBeforeApps, ForecastleKeys, RunPlacements, PlaceAll, ForeignPlan, AppKeys;
    ForeignKeysLegal(fold, c, keys);
    ForeignKeysLegal(fold, c, other);
    AppsDeterminedAll(fold, "", BoardBeforeApps(c), AppsOf(c));
    ForeignPlaced(fold, c, keys);
    ForeignPlaced(fold, c, other);
  }

  lemma WithAppsBefore(c: Cluster, apps: seq<ForecastleApp>)
    ensures AppsOf(WithApps(c, apps)) == apps
    ensures PlacedBeforeApps(WithApps(c, apps)) == PlacedBeforeApps(c) && |ForeignPlan(WithApps(c, apps))| == |ForeignPlan(c)|
  {
    hide RunPlacements;
    var n := |ForeignPlan(c)| - 1;
    assert ForeignPlan(WithApps(c, apps))[..n] == ForeignPlan(c)[..n];
  }

  /** Whatever apps a cluster has, its maps are determined by its lists exactly when the
      groups before the apps leave every label one place to land in. */
  lemma ForeignDeterminedIff(fold: char -> char, c: Cluster)
    ensures (forall apps :: ForeignDetermined(fold, WithApps(c, apps))) <==> Decided(fold, BoardBeforeApps(c).details)
  {
    hide ForeignDetermined, ContestedBy, Landing, PlacedBeforeApps;
    if Decided(fold, BoardBeforeApps(c).details) {
      forall apps ensures ForeignDetermined(fold, WithApps(c, apps)) {
        WithAppsBefore(c, apps);
        ForeignDeterminedAll(fold, WithApps(c, apps));
      }
    } else {
      var name, k1, k2 :| ContestedBy(fold, BoardBeforeApps(c).details, name, k1, k2) && Landing(k1) != Landing(k2);
      if Landing(k1) != "" {
        ContestedCluster(fold, c, name, k1, k2);
      } else {
        ContestedSwap(fold, BoardBeforeApps(c).details, name, k1, k2);
        ContestedCluster(fold, c, name, k2, k1);
      }
    }
  }

  lemma ForeignDeterminedAll(fold: char -> char, c: Cluster)
    requires Decided(fold, BoardBeforeApps(c).details)
    ensures ForeignDetermined(fold, c)
  {
    hide ForeignKeys, Decided, BoardBeforeApps, ForeignBoard, ForeignPlan;
    forall keys, other | ForeignKeys(fold, c, keys) && ForeignKeys(fold, c, other)
      ensures |keys| == |ForeignPlan(c)| == |other| && ForeignBoard(c, keys) == ForeignBoard(c, other)
    {
      ForeignBoardUnique(fold, c, keys, other);
    }
  }

  /** The replicable links of a board under a key, counted. */
  lemma AppCounts(c: Cluster, name: string, keys: seq<seq<string>>, landed: string, key: string)
    requires c.forecastle == Offer(true, Listed([PlainApp("", name)])) && Landing(key) == key != ""
    requires |keys| == |ForeignPlan(c)| && keys[|keys| - 1] == [landed]
    requires RunPlacements("", ForeignPlan(c), keys) == PlacedBeforeApps(c) + ForecastlePlacements("", AppsOf(c), AppKeys(c, keys))
    ensures |ReplicableAt(ForeignBoard(c, keys), key)|
         == |Filter(Replicates(), Picked(PlacedBeforeApps(c), key))| + (if landed == key then 1 else 0)
  {
    OneAppPlaced(c, name, keys, landed);
    ForeignReplicable(c, keys, key);
    hide ForeignBoard, RunPlacements, ForeignPlan, PlacedBeforeApps, ForecastlePlacement, ForecastlePlacements, Picked, ReplicableAt, AppsOf, AppKeys;
    AppCount(PlacedBeforeApps(c), name, landed, key);
  }

  lemma OneAppPlaced(c: Cluster, name: string, keys: seq<seq<string>>, landed: string)
    requires c.forecastle == Offer(true, Listed([PlainApp("", name)]))
    requires |keys| == |ForeignPlan(c)| && keys[|keys| - 1] == [landed]
    ensures |AppsOf(c)| == |AppKeys(c, keys)|
    ensures ForecastlePlacements("", AppsOf(c), AppKeys(c, keys)) == [ForecastlePlacement("", PlainApp("", name), landed)]
  {
    hide ForecastlePlacement, ForeignPlan;
  }

  lemma AppCount(front: seq<Placement>, name: string, landed: string, key: string)
    requires Landing(key) == key != ""
    ensures |Filter(Replicates(), Picked(front + [ForecastlePlacement("", PlainApp("", name), landed)], key))|
         == |Filter(Replicates(), Picked(front, key))| + (if landed == key then 1 else 0)
  {
    var p := ForecastlePlacement("", PlainApp("", name), landed);
    LandsUnder("", name, landed);
    hide ForecastlePlacement, Picked, Filter;
    assert [p] + [] == [p];
    PickedThree(front, p, [], key);
    NothingPicked(key);
  }

  lemma ForeignReplicable(c: Cluster, keys: seq<seq<string>>, key: string)
    requires |keys| == |ForeignPlan(c)|
    ensures ReplicableAt(ForeignBoard(c, keys), key) == Filter(Replicates(), Picked(RunPlacements("", ForeignPlan(c), keys), key))
  {
    hide ForeignPlan, RunPlacements, PlaceAll, Picked;
    var ps := RunPlacements("", ForeignPlan(c), keys);
    PlaceAllExact(EMPTY_BOARD, ps, key);
    assert LinksAt(EMPTY_BOARD, key) == [] && [] + Picked(ps, key) == Picked(ps, key);
  }

  lemma NothingPicked(key: string)
    ensures Picked([], key) == [] && Filter(Replicates(), []) == []
  {
  }

  function LastChoice(c: Cluster, keys: seq<string>): (r: seq<seq<string>>)
    ensures |r| == |ForeignPlan(c)| && r[|r| - 1] == keys
  {
    seq(|ForeignPlan(c)| - 1, i => []) + [keys]
  }

  lemma ContestedCluster(fold: char -> char, c: Cluster, name: string, k1: string, k2: string)
    requires ContestedBy(fold, BoardBeforeApps(c).details, name, k1, k2) && Landing(k1) != Landing(k2) && Landing(k1) != ""
    ensures !ForeignDetermined(fold, WithApps(c, [PlainApp("", name)]))
  {
    var c' := WithApps(c, [PlainApp("", name)]);
    WithAppsBefore(c, [PlainApp("", name)]);
    ContestedClusterKeys(fold, c', name, k1);
    ContestedClusterKeys(fold, c', name, k2);
    var r1, r2 := LastChoice(c', [k1]), LastChoice(c', [k2]);
    hide ForeignKeys, ForeignPlan, ForeignBoard, RunPlacements, PlacedBeforeApps, ContestedBy, BoardBeforeApps;
    ForeignPlaced(fold, c', r1);
    ForeignPlaced(fold, c', r2);
    AppCounts(c', name, r1, k1, k1);
    AppCounts(c', name, r2, k2, k1);
    assert ForeignBoard(c', r1) != ForeignBoard(c', r2);
  }

  lemma ContestedClusterKeys(fold: char -> char, c: Cluster, name: string, key: string)
    requires c.forecastle == Offer(true, Listed([PlainApp("", name)]))
    requires var d := BoardBeforeApps(c).details; name != "" && Trimmed(name) && name !in d && Matches(fold, d, key, name)
    ensures ForeignKeys(fold, c, LastChoice(c, [key]))
  {
    hide ForeignKeys, ForeignPlan, BoardBeforeApps, ForecastleKeys, Matches, AppAnswers;
    MayResolve(fold, "", BoardBeforeApps(c), PlainApp("", name), key);
    ForecastleKeysIff(fold, "", BoardBeforeApps(c), [PlainApp("", name)], [key]);
    ForeignKeysIff(fold, c, LastChoice(c, [key]));
  }

  // ------------------------------------------------ what a cluster may and must supply

  predicate Replicable(p: Placement, key: string) {
    p.At? && p.key == key && p.link.replicate
  }

  /** The board has links to replicate under the key. */
  predicate Supplies(b: Board, key: string) {
    ReplicableAt(b, key) != []
  }

  lemma SuppliesForeign(endpoint: string, b: Board, key: string)
    ensures ForeignLinks(endpoint, b, key) != [] <==> Supplies(b, key)
  {
    assert |ForeignLinks(endpoint, b, key)| == |ReplicableAt(b, key)|;
  }

  lemma {:induction false} PickedReplicable(ps: seq<Placement>, key: string)
    ensures Filter(Replicates(), Picked(ps, key)) != [] <==> SomeReplicable(ps, key)
  {
    if ps != [] {
      var n := |ps| - 1;
      PickedReplicable(ps[..n], key);
      Snoc(ps);
      PickedConcat(ps[..n], [ps[n]], key);
      OnePicked(ps[n], key);
      FilterConcat(Replicates(), Picked(ps[..n], key), Picked([ps[n]], key));
      OneReplicable(ps[n], key);
      hide Picked, Filter, Replicable, SomeReplicable;
      ReplicableConcat(ps[..n], [ps[n]], key);
    }
  }

  lemma OneReplicable(p: Placement, key: string)
    ensures Filter(Replicates(), Picked([p], key)) != [] <==> SomeReplicable([p], key)
  {
    OnePicked(p, key);
    assert Replicable([p][0], key) <==> Replicable(p, key);
  }

  lemma SuppliesIff(fold: char -> char, c: Cluster, keys: seq<seq<string>>, key: string)
    requires ForeignKeys(fold, c, keys)
    ensures |keys| == |ForeignPlan(c)| && |AppKeys(c, keys)| == |AppsOf(c)|
    ensures Supplies(ForeignBoard(c, keys), key)
       <==> SuppliesFixed(c, key) || exists j :: 0 <= j < |AppsOf(c)| && Replicable(ForecastlePlacement("", AppsOf(c)[j], AppKeys(c, keys)[j]), key)
  {
    ForeignPlaced(fold, c, keys);
    ForeignReplicable(c, keys, key);
    var fixed, ps := PlacedBeforeApps(c), ForecastlePlacements("", AppsOf(c), AppKeys(c, keys));
    hide ForeignKeys, ForeignPlan, ForeignBoard, RunPlacements, PlacedBeforeApps, ForecastlePlacement, Picked, Filter, Replicable, AppsOf, AppKeys;
    hide ReplicableAt;
    PickedReplicable(fixed + ps, key);
    ReplicableConcat(fixed, ps, key);
    hide SomeReplicable;
    AppsReplicable(AppsOf(c), AppKeys(c, keys), key);
  }

  lemma AppsReplicable(apps: seq<ForecastleApp>, keys: seq<string>, key: string)
    requires |keys| == |apps|
    ensures SomeReplicable(ForecastlePlacements("", apps, keys), key)
       <==> exists j :: 0 <= j < |apps| && Replicable(ForecastlePlacement("", apps[j], keys[j]), key)
  {
    hide Replicable, ForecastlePlacement;
    var ps := ForecastlePlacements("", apps, keys);
    assert forall j :: 0 <= j < |apps| ==> ps[j] == ForecastlePlacement("", apps[j], keys[j]);
  }

  ghost predicate SomeReplicable(ps: seq<Placement>, key: string) {
    exists i :: 0 <= i < |ps| && Replicable(ps[i], key)
  }

  lemma ReplicableConcat(ps: seq<Placement>, qs: seq<Placement>, key: string)
    ensures SomeReplicable(ps + qs, key) <==> SomeReplicable(ps, key) || SomeReplicable(qs, key)
  {
    hide Replicable;
    var all := ps + qs;
    forall i | 0 <= i < |ps| && Replicable(ps[i], key) ensures SomeReplicable(all, key) {
      assert all[i] == ps[i];
    }
    forall i | 0 <= i < |qs| && Replicable(qs[i], key) ensures SomeReplicable(all, key) {
      assert all[|ps| + i] == qs[i];
    }
    forall i | 0 <= i < |all| && Replicable(all[i], key) ensures SomeReplicable(ps, key) || SomeReplicable(qs, key) {
      assert all[i] == if i < |ps| then ps[i] else qs[i - |ps|];
    }
  }

  /** An annotated resource is filed under the key and marked for replication. */
  ghost predicate SuppliesFixed(c: Cluster, key: string) {
    SomeReplicable(PlacedBeforeApps(c), key)
  }

  /** The groups there are before the cluster's j-th app. */
  ghost function GroupsBefore(fold: char -> char, c: Cluster, j: nat): Details
    requires j <= |AppsOf(c)|
  {
    AppDetails(fold, "", BoardBeforeApps(c).details, AppsOf(c)[..j])
  }

  /** The j-th app is marked for replication and may land under the key. */
  ghost predicate AppMaySupply(fold: char -> char, c: Cluster, j: nat, key: string)
    requires j < |AppsOf(c)|
  {
    Replicable(ForecastlePlacement("", AppsOf(c)[j], key), key) && Resolves(fold, AppsOf(c)[j].group, GroupsBefore(fold, c, j), key)
  }

  /** It can land nowhere else. */
  ghost predicate AppMustSupply(fold: char -> char, c: Cluster, j: nat, key: string)
    requires j < |AppsOf(c)|
  {
    Replicable(ForecastlePlacement("", AppsOf(c)[j], key), key) && OnlyAnswer(fold, AppsOf(c)[j].group, GroupsBefore(fold, c, j), key)
  }

  ghost predicate MaySupply(fold: char -> char, c: Cluster, key: string) {
    SuppliesFixed(c, key) || exists j :: 0 <= j < |AppsOf(c)| && AppMaySupply(fold, c, j, key)
  }

  ghost predicate MustSupply(fold: char -> char, c: Cluster, key: string) {
    SuppliesFixed(c, key) || exists j :: 0 <= j < |AppsOf(c)| && AppMustSupply(fold, c, j, key)
  }

  lemma PlacedUnder(app: ForecastleApp, r: string, key: string)
    requires Replicable(ForecastlePlacement("", app, r), key)
    ensures r == key
  {
    hide Normalized, TrimSpace;
  }

  /** Every run supplies what it must and nothing but what it may. */
  lemma SupplyBounds(fold: char -> char, c: Cluster, keys: seq<seq<string>>, key: string)
    requires ForeignKeys(fold, c, keys)
    ensures |keys| == |ForeignPlan(c)|
    ensures MustSupply(fold, c, key) ==> Supplies(ForeignBoard(c, keys), key)
    ensures Supplies(ForeignBoard(c, keys), key) ==> MaySupply(fold, c, key)
  {
    SuppliesIff(fold, c, keys, key);
    ForeignKeysIff(fold, c, keys);
    hide ForeignKeys, ForeignPlan, SuppliesFixed, Supplies, ForeignBoard, ForecastlePlacement, Replicable, Resolves, AppDetails, BoardBeforeApps;
    hide AppsOf, AppKeys;
    forall j | 0 <= j < |AppsOf(c)| ensures Resolves(fold, AppsOf(c)[j].group, GroupsBefore(fold, c, j), AppKeys(c, keys)[j]) {
      NoInstance(AppsOf(c)[j]);
    }
    forall j | 0 <= j < |AppsOf(c)| && Replicable(ForecastlePlacement("", AppsOf(c)[j], AppKeys(c, keys)[j]), key)
      ensures AppMaySupply(fold, c, j, key)
    {
      PlacedUnder(AppsOf(c)[j], AppKeys(c, keys)[j], key);
    }
    forall j | 0 <= j < |AppsOf(c)| && AppMustSupply(fold, c, j, key)
      ensures Replicable(ForecastlePlacement("", AppsOf(c)[j], AppKeys(c, keys)[j]), key)
    {
    }
  }

  lemma NoInstance(app: ForecastleApp)
    ensures !OtherInstance("", app)
  {
  }

  /** Some run that supplies the key, where one may. */
  ghost function SupplyKeys(fold: char -> char, c: Cluster, key: string): (keys: seq<seq<string>>)
    requires MaySupply(fold, c, key)
    ensures ForeignKeys(fold, c, keys) && |keys| == |ForeignPlan(c)| && Supplies(ForeignBoard(c, keys), key)
  {
    hide *;
    var apps := AppsOf(c);
    var choice := seq(|apps|, j requires 0 <= j < |apps| =>
      if AppMaySupply(fold, c, j, key) then key else Answer(fold, apps[j].group, GroupsBefore(fold, c, j)));
    SupplyKeysLegal(fold, c, key, choice);
    LastChoice(c, choice)
  }

  lemma SupplyKeysLegal(fold: char -> char, c: Cluster, key: string, choice: seq<string>)
    requires MaySupply(fold, c, key) && |choice| == |AppsOf(c)|
    requires forall j :: 0 <= j < |choice| ==>
      choice[j] == if AppMaySupply(fold, c, j, key) then key else Answer(fold, AppsOf(c)[j].group, GroupsBefore(fold, c, j))
    ensures ForeignKeys(fold, c, LastChoice(c, choice)) && Supplies(ForeignBoard(c, LastChoice(c, choice)), key)
  {
    forall j | 0 <= j < |choice| ensures Resolves(fold, AppsOf(c)[j].group, GroupsBefore(fold, c, j), choice[j]) {
      hide Resolves, GroupsBefore, Replicable;
    }
    ChoiceLegal(fold, c, choice);
    hide ForeignKeys, ForeignPlan, SuppliesFixed, Supplies, ForeignBoard, ForecastlePlacement, Replicable, Resolves, GroupsBefore, Answer;
    SuppliesIff(fold, c, LastChoice(c, choice), key);
    LastAppKeys(c, choice);
  }

  lemma LastAppKeys(c: Cluster, choice: seq<string>)
    requires |choice| == |AppsOf(c)|
    ensures AppKeys(c, LastChoice(c, choice)) == choice
  {
  }

  lemma ChoiceLegal(fold: char -> char, c: Cluster, choice: seq<string>)
    requires |choice| == |AppsOf(c)|
    requires forall j :: 0 <= j < |choice| ==> Resolves(fold, AppsOf(c)[j].group, GroupsBefore(fold, c, j), choice[j])
    ensures ForeignKeys(fold, c, LastChoice(c, choice))
  {
    hide ForeignKeys, ForeignPlan, Resolves, AppDetails, BoardBeforeApps, AppsOf, AppKeys;
    LastAppKeys(c, choice);
    assert AppAnswers(fold, "", BoardBeforeApps(c).details, AppsOf(c), choice);
    ForeignKeysIff(fold, c, LastChoice(c, choice));
  }

  /** Some run that does not supply the key, unless every run does. */
  ghost function AvoidKeys(fold: char -> char, c: Cluster, key: string): (keys: seq<seq<string>>)
    ensures ForeignKeys(fold, c, keys) && |keys| == |ForeignPlan(c)|
    ensures !MustSupply(fold, c, key) ==> !Supplies(ForeignBoard(c, keys), key)
  {
    hide *;
    var apps := AppsOf(c);
    var choice := seq(|apps|, j requires 0 <= j < |apps| => AnswerBut(fold, apps[j].group, GroupsBefore(fold, c, j), key));
    AvoidKeysLegal(fold, c, key, choice);
    LastChoice(c, choice)
  }

  lemma AvoidKeysLegal(fold: char -> char, c: Cluster, key: string, choice: seq<string>)
    requires |choice| == |AppsOf(c)|
    requires forall j :: 0 <= j < |choice| ==> choice[j] == AnswerBut(fold, AppsOf(c)[j].group, GroupsBefore(fold, c, j), key)
    ensures ForeignKeys(fold, c, LastChoice(c, choice))
    ensures !MustSupply(fold, c, key) ==> !Supplies(ForeignBoard(c, LastChoice(c, choice)), key)
  {
    hide ForeignKeys, ForeignPlan, SuppliesFixed, Supplies, ForeignBoard, ForecastlePlacement, Replicable, Resolves, GroupsBefore, AnswerBut, OnlyAnswer;
    ChoiceLegal(fold, c, choice);
    SuppliesIff(fold, c, LastChoice(c, choice), key);
    LastAppKeys(c, choice);
    forall j | 0 <= j < |choice| && Replicable(ForecastlePlacement("", AppsOf(c)[j], choice[j]), key) ensures AppMustSupply(fold, c, j, key) {
      PlacedUnder(AppsOf(c)[j], choice[j], key);
    }
  }

  // ---------------------------------------------------------- the whole fleet

  /** The endpoint of the first cluster that supplies the key; all of a new group's
      record that the clusters' lists can influence. */
  function SupplierEndpoint(actives: seq<Active>, boards: seq<Board>, key: string): Option<string>
    requires |boards| == |actives|
  {
    match FirstSupplier(actives, boards, key)
    case None => None
    case Some(i) => Some(actives[i].endpoint)
  }

  lemma ForeignRecord(c: Cluster, keys: seq<seq<string>>, endpoint: string, key: string)
    requires |keys| == |ForeignPlan(c)| && ForeignLinks(endpoint, ForeignBoard(c, keys), key) != []
    ensures ForeignEntry(endpoint, ForeignBoard(c, keys), key) == LinkGroup(key, 0, "", key, "foreign:" + endpoint, map[], false)
  {
    var ps := RunPlacements("", ForeignPlan(c), keys);
    PlaceAllExact(EMPTY_BOARD, ps, key);
    hide ForeignPlan, RunPlacements, PlaceAll, Picked;
  }

  /** Cluster m is the first that must supply the key. */
  ghost predicate FirstMust(fold: char -> char, actives: seq<Active>, key: string, m: nat) {
    m < |actives| && MustSupply(fold, actives[m].cluster, key) && forall j :: 0 <= j < m ==> !MustSupply(fold, actives[j].cluster, key)
  }

  ghost predicate MustBy(fold: char -> char, actives: seq<Active>, key: string, endpoint: string) {
    exists m: nat :: FirstMust(fold, actives, key, m) && actives[m].endpoint == endpoint
  }

  lemma MustByUnique(fold: char -> char, actives: seq<Active>, key: string, e1: string, e2: string)
    requires MustBy(fold, actives, key, e1) && MustBy(fold, actives, key, e2)
    ensures e1 == e2 && exists i :: 0 <= i < |actives| && MustSupply(fold, actives[i].cluster, key)
  {
    hide MustSupply;
    var m: nat :| FirstMust(fold, actives, key, m) && actives[m].endpoint == e1;
    var n: nat :| FirstMust(fold, actives, key, n) && actives[n].endpoint == e2;
  }

  /** No cluster that may supply the key comes before all that must, unless the first that
      must has the same endpoint. */
  ghost predicate Settled(fold: char -> char, actives: seq<Active>, key: string) {
    forall i :: 0 <= i < |actives| && MaySupply(fold, actives[i].cluster, key)
             && (forall j :: 0 <= j < i ==> !MustSupply(fold, actives[j].cluster, key))
      ==> MustBy(fold, actives, key, actives[i].endpoint)
  }

  ghost predicate EndpointDetermined(fold: char -> char, actives: seq<Active>, key: string) {
    forall f, g :: FleetKeys(fold, actives, f) && FleetKeys(fold, actives, g)
      ==> SupplierEndpoint(actives, FleetBoards(fold, actives, f), key) == SupplierEndpoint(actives, FleetBoards(fold, actives, g), key)
  }

  lemma FleetSupplies(fold: char -> char, actives: seq<Active>, keys: seq<seq<seq<string>>>, key: string, i: nat)
    requires FleetKeys(fold, actives, keys) && i < |actives|
    ensures ForeignLinks(actives[i].endpoint, FleetBoards(fold, actives, keys)[i], key) != []
       <==> Supplies(FleetBoards(fold, actives, keys)[i], key)
    ensures MustSupply(fold, actives[i].cluster, key) ==> Supplies(FleetBoards(fold, actives, keys)[i], key)
    ensures Supplies(FleetBoards(fold, actives, keys)[i], key) ==> MaySupply(fold, actives[i].cluster, key)
  {
    hide RunKeys, ForeignPlan, ForeignBoard, Supplies, MustSupply, MaySupply, ForeignLinks;
    SuppliesForeign(actives[i].endpoint, FleetBoards(fold, actives, keys)[i], key);
    SupplyBounds(fold, actives[i].cluster, keys[i], key);
  }

  /** In a settled fleet every run has the endpoint of the first cluster that must
      supply the key, or none has any. */
  lemma SettledEndpoint(fold: char -> char, actives: seq<Active>, keys: seq<seq<seq<string>>>, key: string)
    requires FleetKeys(fold, actives, keys) && Settled(fold, actives, key)
    ensures var e := SupplierEndpoint(actives, FleetBoards(fold, actives, keys), key);
      if e.Some? then MustBy(fold, actives, key, e.value)
      else forall i :: 0 <= i < |actives| ==> !MustSupply(fold, actives[i].cluster, key)
  {
    hide FleetKeys, FleetBoards, MustSupply, MaySupply, Supplies, FirstSupplier, ForeignLinks, MustBy;
    var boards := FleetBoards(fold, actives, keys);
    var first := FirstSupplier(actives, boards, key);
    forall i | 0 <= i < |actives|
      ensures ForeignLinks(actives[i].endpoint, boards[i], key) == [] ==> !MustSupply(fold, actives[i].cluster, key)
      ensures ForeignLinks(actives[i].endpoint, boards[i], key) != [] ==> MaySupply(fold, actives[i].cluster, key)
    {
      FleetSupplies(fold, actives, keys, key, i);
    }
  }

  /** The run in which every cluster before i avoids the key, and cluster i supplies it. */
  ghost function FirstKeys(fold: char -> char, actives: seq<Active>, key: string, i: nat): (keys: seq<seq<seq<string>>>)
    requires i < |actives| && MaySupply(fold, actives[i].cluster, key)
    ensures |keys| == |actives|
    ensures forall j :: 0 <= j < |actives| ==>
      keys[j] == if j == i then SupplyKeys(fold, actives[j].cluster, key) else AvoidKeys(fold, actives[j].cluster, key)
    ensures FleetKeys(fold, actives, keys)
  {
    hide ForeignPlan, RunKeys, MaySupply, MustSupply, Supplies, ForeignBoard;
    seq(|actives|, j requires 0 <= j < |actives| =>
      if j == i then SupplyKeys(fold, actives[j].cluster, key) else AvoidKeys(fold, actives[j].cluster, key))
  }

  /** The run in which every cluster avoids the key that can. */
  ghost function NoneKeys(fold: char -> char, actives: seq<Active>, key: string): (keys: seq<seq<seq<string>>>)
    ensures |keys| == |actives| && forall j :: 0 <= j < |actives| ==> keys[j] == AvoidKeys(fold, actives[j].cluster, key)
    ensures FleetKeys(fold, actives, keys)
  {
    hide ForeignPlan, RunKeys, MaySupply, MustSupply, Supplies, ForeignBoard;
    seq(|actives|, j requires 0 <= j < |actives| => AvoidKeys(fold, actives[j].cluster, key))
  }

  lemma FirstIsSupplier(actives: seq<Active>, boards: seq<Board>, key: string, i: nat)
    requires |boards| == |actives| && i < |actives| && ForeignLinks(actives[i].endpoint, boards[i], key) != []
    requires forall j :: 0 <= j < i ==> ForeignLinks(actives[j].endpoint, boards[j], key) == []
    ensures FirstSupplier(actives, boards, key) == Some(i)
  {
    hide ForeignLinks;
  }

  lemma FirstKeysEndpoint(fold: char -> char, actives: seq<Active>, key: string, i: nat)
    requires i < |actives| && MaySupply(fold, actives[i].cluster, key)
    requires forall j :: 0 <= j < i ==> !MustSupply(fold, actives[j].cluster, key)
    ensures SupplierEndpoint(actives, FleetBoards(fold, actives, FirstKeys(fold, actives, key, i)), key) == Some(actives[i].endpoint)
  {
    var keys := FirstKeys(fold, actives, key, i);
    var boards := FleetBoards(fold, actives, keys);
    hide FirstKeys, FleetKeys, FleetBoards, ForeignKeys, ForeignPlan, ForeignBoard, MustSupply, MaySupply, Supplies, FirstSupplier, ForeignLinks;
    hide SupplyKeys, AvoidKeys;
    forall j | 0 <= j <= i ensures ForeignLinks(actives[j].endpoint, boards[j], key) != [] <==> j == i {
      FleetSupplies(fold, actives, keys, key, j);
    }
    FirstIsSupplier(actives, boards, key, i);
  }

  lemma NoneKeysEndpoint(fold: char -> char, actives: seq<Active>, key: string)
    ensures var e := SupplierEndpoint(actives, FleetBoards(fold, actives, NoneKeys(fold, actives, key)), key);
      e.Some? ==> MustBy(fold, actives, key, e.value)
  {
    var keys := NoneKeys(fold, actives, key);
    var boards := FleetBoards(fold, actives, keys);
    var first := FirstSupplier(actives, boards, key);
    hide NoneKeys, FleetKeys, FleetBoards, ForeignKeys, ForeignPlan, ForeignBoard, MustSupply, MaySupply, Supplies, FirstSupplier, ForeignLinks, AvoidKeys;
    if first.Some? {
      forall j | 0 <= j < |actives| ensures ForeignLinks(actives[j].endpoint, boards[j], key) != [] <==> MustSupply(fold, actives[j].cluster, key) {
        FleetSupplies(fold, actives, keys, key, j);
      }
      assert FirstMust(fold, actives, key, first.value) && MustBy(fold, actives, key, actives[first.value].endpoint);
    }
  }

  lemma UnsettledDiffers(fold: char -> char, actives: seq<Active>, key: string, i: nat)
    requires i < |actives| && MaySupply(fold, actives[i].cluster, key)
    requires forall j :: 0 <= j < i ==> !MustSupply(fold, actives[j].cluster, key)
    requires !MustBy(fold, actives, key, actives[i].endpoint)
    ensures !EndpointDetermined(fold, actives, key)
  {
    hide FleetKeys, FleetBoards, MustSupply, MaySupply, MustBy, SupplierEndpoint, FirstKeys, NoneKeys;
    FirstKeysEndpoint(fold, actives, key, i);
    NoneKeysEndpoint(fold, actives, key);
    var f, g := FirstKeys(fold, actives, key, i), NoneKeys(fold, actives, key);
    assert SupplierEndpoint(actives, FleetBoards(fold, actives, f), key) != SupplierEndpoint(actives, FleetBoards(fold, actives, g), key);
  }

  lemma SettledDetermined(fold: char -> char, actives: seq<Active>, key: string)
    requires Settled(fold, actives, key)
    ensures EndpointDetermined(fold, actives, key)
  {
    hide FleetKeys, FleetBoards, MustSupply, MaySupply, Settled, SupplierEndpoint, MustBy;
    forall f, g | FleetKeys(fold, actives, f) && FleetKeys(fold, actives, g)
      ensures SupplierEndpoint(actives, FleetBoards(fold, actives, f), key) == SupplierEndpoint(actives, FleetBoards(fold, actives, g), key)
    {
      SettledEndpoint(fold, actives, f, key);
      SettledEndpoint(fold, actives, g, key);
      var e, e' := SupplierEndpoint(actives, FleetBoards(fold, actives, f), key), SupplierEndpoint(actives, FleetBoards(fold, actives, g), key);
      if e.Some? {
        MustByUnique(fold, actives, key, e.value, if e'.Some? then e'.value else e.value);
      } else if e'.Some? {
        MustByUnique(fold, actives, key, e'.value, e'.value);
      }
    }
  }

  /** Which endpoint supplies a key is the same for all runs exactly when the key is settled. */
  lemma SettledIff(fold: char -> char, actives: seq<Active>, key: string)
    ensures EndpointDetermined(fold, actives, key) <==> Settled(fold, actives, key)
  {
    hide MustSupply, MaySupply, MustBy, EndpointDetermined;
    if Settled(fold, actives, key) {
      SettledDetermined(fold, actives, key);
    } else {
      var i :| 0 <= i < |actives| && MaySupply(fold, actives[i].cluster, key)
               && (forall j :: 0 <= j < i ==> !MustSupply(fold, actives[j].cluster, key))
               && !MustBy(fold, actives, key, actives[i].endpoint);
      UnsettledDiffers(fold, actives, key, i);
    }
  }

  /** Where every cluster's groups before its apps leave every label one place to land in,
      all runs over the fleet give the same boards. */
  lemma FleetBoardsUnique(fold: char -> char, actives: seq<Active>, f: seq<seq<seq<string>>>, g: seq<seq<seq<string>>>)
    requires FleetKeys(fold, actives, f) && FleetKeys(fold, actives, g)
    requires forall i :: 0 <= i < |actives| ==> Decided(fold, BoardBeforeApps(actives[i].cluster).details)
    ensures FleetBoards(fold, actives, f) == FleetBoards(fold, actives, g)
  {
    hide RunKeys, ForeignPlan, ForeignBoard, Decided, BoardBeforeApps;
    forall i | 0 <= i < |actives| ensures FleetBoards(fold, actives, f)[i] == FleetBoards(fold, actives, g)[i] {
      ForeignBoardUnique(fold, actives[i].cluster, f[i], g[i]);
    }
  }
}
