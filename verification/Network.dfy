/**
 A network of nodes polling one another, as a transition system. Any peer graph is
 allowed, cycles and self-references included. A node's poller is one goroutine:
 it takes one peer at a time, and what a peer served may be stored much later,
 after any number of steps elsewhere.
 */
module Network {
  import opened Wrappers
  import opened Text
  import opened Sequences
  import opened Boards
  import opened Collect
  import opened Sources
  import opened Collection
  import opened Kinds
  import opened PeerCache
  import opened Fleet
  import opened Aggregator
  import opened Export
  import opened Rounds

  /** Where each peer URL leads; what the string operations are. */
  datatype Config = Config(fold: char -> char, lower: string -> string, address: map<string, nat>)

  /** Everything a node's own collection reads: its configuration and its cluster's lists. */
  datatype Store = Store(forecastleInstance: string, linkGroups: seq<GroupConfig>, staticLinks: seq<StaticLink>, cluster: Cluster)

  function SettingsOf(c: Config, store: Store): Settings {
    Settings(c.fold, c.lower, store.forecastleInstance, store.linkGroups, store.staticLinks)
  }

  /** Kubernetes objects have names. */
  predicate ProperStore(store: Store) {
    store.cluster.bookmarkGroups.Listed? ==>
      forall i :: 0 <= i < |store.cluster.bookmarkGroups.items| ==> store.cluster.bookmarkGroups.items[i].name != ""
  }

  /** b is what a collection of the store may give: every request collects anew, and
      ranges over maps anew. */
  ghost predicate Collected(c: Config, store: Store, b: Board) {
    && !LocalFails(store.cluster)
    && exists ch :: CollectsBoard(SettingsOf(c, store), store.cluster, ch, b)
  }

  lemma CollectedWellFormed(c: Config, store: Store, b: Board)
    requires ProperStore(store) && Collected(c, store, b)
    ensures WellFormed(b) && OwnSources(b) && EmptyKeyPlain(b)
  {
    hide LegalChoices, LocalBoard, WellFormed, OwnSources, EmptyKeyPlain, SomeFails;
    var st := SettingsOf(c, store);
    var ch :| CollectsBoard(st, store.cluster, ch, b);
    LocalBoardWellFormed(st, store.cluster, ch);
    LocalBoardEmptyKey(st, store.cluster, ch);
  }

  /** The poller: idle, or part-way through a round that began with cache `start`.
      `reply` is what the current peer has served and is not stored yet. */
  datatype Round =
    | Idle
    | Fetching(start: Remote, peers: seq<string>, outcomes: seq<Option<Response>>, reply: Option<Response>)

  /** `past` holds every store the node has had so far. */
  datatype Node = Node(store: Store, past: set<Store>, actives: seq<Active>, cache: Remote, round: Round)

  type Net = map<nat, Node>

  function Around(node: Node): Surroundings {
    Surroundings(Some(node.cache), Some(node.actives))
  }

  datatype Step =
    | LocalChange(store: Store)
    | FleetChange(actives: seq<Active>)
    | StartRound(peers: seq<string>)
    | Serve(trace: Trace, sent: Response)
    | Store
    | FetchFail
    | Finish
    | Read(users: seq<string>, readTrace: Trace, shown: Response)

  predicate Waiting(r: Round) {
    r.Fetching? && |r.outcomes| < |r.peers|
  }

  /** What the node may answer a request with. */
  ghost predicate MayAnswer(c: Config, node: Node, users: seq<string>, localOnly: bool, trace: Trace, sent: Response) {
    Collects(SettingsOf(c, node.store), node.store.cluster, Around(node), users, localOnly, trace, Ok(sent))
  }

  /** The node behind url may answer the sync request with `sent`. */
  ghost predicate Answers(c: Config, s: Net, url: string, trace: Trace, sent: Response) {
    url in c.address && c.address[url] in s && MayAnswer(c, s[c.address[url]], [WILDCARD], true, trace, sent)
  }

  /** Node n takes a step. */
  ghost predicate Does(c: Config, s: Net, n: nat, step: Step, s': Net) {
    n in s && var node, round := s[n], s[n].round;
    match step
    case LocalChange(store) =>
      ProperStore(store) && s' == s[n := node.(store := store, past := node.past + {store})]
    case FleetChange(actives) =>
      s' == s[n := node.(actives := actives)]
    case StartRound(peers) =>
      round.Idle? && NoDuplicates(peers) && s' == s[n := node.(round := Fetching(node.cache, peers, [], None))]
    case Serve(trace, sent) =>
      && Waiting(round) && round.reply.None?
      && Answers(c, s, round.peers[|round.outcomes|], trace, sent)
      && s' == s[n := node.(round := round.(reply := Some(Erase(sent))))]
    case Store =>
      && Waiting(round) && round.reply.Some?
      && s' == s[n := node.(cache := node.cache[round.peers[|round.outcomes|] := round.reply.value],
                            round := round.(outcomes := round.outcomes + [round.reply], reply := None))]
    case FetchFail =>
      Waiting(round) && s' == s[n := node.(round := round.(outcomes := round.outcomes + [None], reply := None))]
    case Finish =>
      && round.Fetching? && |round.outcomes| == |round.peers|
      && s' == s[n := node.(cache := Evicted(node.cache, round.peers), round := Idle)]
    case Read(users, trace, shown) =>
      MayAnswer(c, node, users, false, trace, shown) && s' == s
  }

  ghost predicate Next(c: Config, s: Net, s': Net) {
    exists n, step :: Does(c, s, n, step, s')
  }

  ghost predicate Init(s: Net) {
    forall n :: n in s ==> s[n].cache == map[] && s[n].round.Idle? && s[n].past == {s[n].store} && ProperStore(s[n].store)
  }

  ghost predicate Run(c: Config, run: seq<Net>) {
    && run != [] && Init(run[0])
    && forall i :: 0 <= i < |run| - 1 ==> Next(c, run[i], run[i + 1])
  }

  // ------------------------------------------------------------- the invariant

  ghost predicate BoardExport(c: Config, b: Board, r: Response) {
    exists s, t :: Exports(c.fold, c.lower, b, s, t, r)
  }

  /** r is an export of what some collection of the store gives. */
  ghost predicate IsExport(c: Config, store: Store, r: Response) {
    exists b :: Collected(c, store, b) && BoardExport(c, b, r)
  }

  /** r is an export of some store that the node behind url once had. */
  ghost predicate Served(c: Config, s: Net, url: string, r: Response) {
    && url in c.address && c.address[url] in s
    && exists store :: store in s[c.address[url]].past && IsExport(c, store, r)
  }

  ghost predicate NodeInv(c: Config, s: Net, node: Node) {
    && node.store in node.past
    && (forall store :: store in node.past ==> ProperStore(store))
    && (forall u :: u in node.cache ==> Served(c, s, u, node.cache[u]))
    && RoundInv(c, s, node)
  }

  ghost predicate RoundInv(c: Config, s: Net, node: Node) {
    var r := node.round;
    r.Fetching? ==>
      && NoDuplicates(r.peers) && |r.outcomes| <= |r.peers|
      && node.cache == Tried(r.start, r.peers, r.outcomes)
      && (r.reply.Some? ==> |r.outcomes| < |r.peers| && Served(c, s, r.peers[|r.outcomes|], r.reply.value))
  }

  ghost predicate Inv(c: Config, s: Net) {
    forall n :: n in s ==> NodeInv(c, s, s[n])
  }

  /** Stores are only ever added to a node's past. */
  ghost predicate Grows(s: Net, s': Net) {
    s'.Keys == s.Keys && forall n :: n in s ==> s[n].past <= s'[n].past
  }

  lemma ServedGrows(c: Config, s: Net, s': Net, url: string, r: Response)
    requires Grows(s, s') && Served(c, s, url, r)
    ensures Served(c, s', url, r)
  {
  }

  lemma NodeInvGrows(c: Config, s: Net, s': Net, node: Node)
    requires Grows(s, s') && NodeInv(c, s, node)
    ensures NodeInv(c, s', node)
  {
    hide Served, ProperStore, Tried, Grows;
    forall u | u in node.cache ensures Served(c, s', u, node.cache[u]) {
      ServedGrows(c, s, s', u, node.cache[u]);
    }
    var r := node.round;
    if r.Fetching? && r.reply.Some? {
      ServedGrows(c, s, s', r.peers[|r.outcomes|], r.reply.value);
    }
  }

  lemma StepGrows(c: Config, s: Net, n: nat, step: Step, s': Net)
    requires Does(c, s, n, step, s')
    ensures Grows(s, s') && n in s && s'.Keys == s.Keys && forall m :: m in s && m != n ==> s'[m] == s[m]
  {
    hide Answers, MayAnswer, ProperStore;
  }

  /** What the current peer's try ends with is recorded, and cached if it is a response. */
  lemma TryNode(c: Config, s: Net, node: Node, outcome: Option<Response>, cache: Remote)
    requires NodeInv(c, s, node) && Waiting(node.round) && (outcome.Some? ==> outcome == node.round.reply)
    requires cache == if outcome.Some? then node.cache[node.round.peers[|node.round.outcomes|] := outcome.value] else node.cache
    ensures NodeInv(c, s, node.(cache := cache, round := node.round.(outcomes := node.round.outcomes + [outcome], reply := None)))
  {
    hide ProperStore, Served, Tried;
    TriedSnoc(node.round.start, node.round.peers, node.round.outcomes, outcome);
  }

  lemma ChangeNode(c: Config, s: Net, node: Node, store: Store)
    requires NodeInv(c, s, node) && ProperStore(store)
    ensures NodeInv(c, s, node.(store := store, past := node.past + {store}))
  {
    hide ProperStore, Served, Tried;
  }

  lemma FleetNode(c: Config, s: Net, node: Node, actives: seq<Active>)
    requires NodeInv(c, s, node)
    ensures NodeInv(c, s, node.(actives := actives))
  {
    hide ProperStore, Served, Tried;
  }

  lemma StartNode(c: Config, s: Net, node: Node, peers: seq<string>)
    requires NodeInv(c, s, node) && NoDuplicates(peers)
    ensures NodeInv(c, s, node.(round := Fetching(node.cache, peers, [], None)))
  {
    hide ProperStore, Served;
  }

  lemma ReplyNode(c: Config, s: Net, node: Node, r: Response)
    requires NodeInv(c, s, node) && Waiting(node.round) && Served(c, s, node.round.peers[|node.round.outcomes|], r)
    ensures NodeInv(c, s, node.(round := node.round.(reply := Some(r))))
  {
    hide ProperStore, Served, Tried;
  }

  lemma FinishNode(c: Config, s: Net, node: Node)
    requires NodeInv(c, s, node) && node.round.Fetching?
    ensures NodeInv(c, s, node.(cache := Evicted(node.cache, node.round.peers), round := Idle))
  {
    hide ProperStore, Served, Tried;
  }

  /** The moving node keeps the invariant, judged in the old network. */
  lemma StepNode(c: Config, s: Net, n: nat, step: Step, s': Net)
    requires Inv(c, s) && Does(c, s, n, step, s')
    ensures n in s' && NodeInv(c, s, s'[n])
  {
    var node := s[n];
    assert NodeInv(c, s, node);
    hide Inv, NodeInv, Served, Answers, MayAnswer, Tried, Evicted, ProperStore;
    match step
    case LocalChange(store) => ChangeNode(c, s, node, store);
    case FleetChange(actives) => FleetNode(c, s, node, actives);
    case StartRound(peers) => StartNode(c, s, node, peers);
    case Serve(trace, sent) =>
      ServeServed(c, s, node.round.peers[|node.round.outcomes|], trace, sent);
      ReplyNode(c, s, node, Erase(sent));
    case Store => TryNode(c, s, node, node.round.reply, s'[n].cache);
    case FetchFail => TryNode(c, s, node, None, node.cache);
    case Finish => FinishNode(c, s, node);
    case Read(_, _, _) =>
  }

  lemma ServeServed(c: Config, s: Net, url: string, trace: Trace, sent: Response)
    requires Inv(c, s) && Answers(c, s, url, trace, sent)
    ensures url in c.address && c.address[url] in s
    ensures IsExport(c, s[c.address[url]].store, Erase(sent)) && Served(c, s, url, Erase(sent))
  {
    var a := s[c.address[url]];
    assert NodeInv(c, s, a);
    AnswerExports(c, a, trace, sent);
  }

  lemma AnswerExports(c: Config, node: Node, trace: Trace, sent: Response)
    requires MayAnswer(c, node, [WILDCARD], true, trace, sent)
    ensures IsExport(c, node.store, Erase(sent))
  {
    hide Responds, LegalChoices, LocalBoard, LocalFails;
    var st := SettingsOf(c, node.store);
    LegalLengths(st, node.store.cluster, trace.local);
    var b := LocalBoard(st, node.store.cluster, trace.local);
    assert CollectsBoard(st, node.store.cluster, trace.local, b) && Collected(c, node.store, b);
    assert Exports(c.fold, c.lower, b, Around(node), trace, Erase(sent));
    assert BoardExport(c, b, Erase(sent));
  }

  lemma InvStep(c: Config, s: Net, s': Net)
    requires Inv(c, s) && Next(c, s, s')
    ensures Inv(c, s') && Grows(s, s')
  {
    hide NodeInv, Does, Grows;
    var n, step :| Does(c, s, n, step, s');
    StepGrows(c, s, n, step, s');
    StepNode(c, s, n, step, s');
    forall m | m in s' ensures NodeInv(c, s', s'[m]) {
      NodeInvGrows(c, s, s', s'[m]);
    }
  }

  lemma {:induction false} InvRun(c: Config, run: seq<Net>, i: nat)
    requires Run(c, run) && i < |run|
    ensures Inv(c, run[i])
  {
    if i > 0 {
      InvRun(c, run, i - 1);
      InvStep(c, run[i - 1], run[i]);
    }
  }

  // ------------------------------------------------------------ one-hop safety

  /** l is what arrives at a peer of a link m in the list that is marked for
      replication and was collected, not merged. */
  ghost predicate LeftFor(links: seq<Link>, m: Link, l: Link) {
    m in links && m.replicate && ':' !in m.source && l == EraseLink()(m)
  }

  lemma EraseGroupFrom(g: Group, own: Group, b: Board)
    requires OwnReplicable(b, own) && g == EraseGroup()(own) && OwnSources(b)
    ensures forall l :: l in g.links ==> exists m :: LeftFor(LinksAt(b, g.linkGroup), m, l)
    ensures forall l :: l in g.tiles ==> exists m :: m in TilesAt(b, g.linkGroup) && m.replicate && l == EraseTile()(m)
  {
    forall l | l in g.links ensures exists m :: LeftFor(LinksAt(b, g.linkGroup), m, l) {
      var j :| 0 <= j < |g.links| && g.links[j] == l;
      assert LeftFor(LinksAt(b, g.linkGroup), own.links[j], l);
    }
    forall l | l in g.tiles ensures exists m :: m in TilesAt(b, g.linkGroup) && m.replicate && l == EraseTile()(m) {
      var j :| 0 <= j < |g.tiles| && g.tiles[j] == l;
      assert own.tiles[j] in TilesAt(b, g.linkGroup) && own.tiles[j].replicate && l == EraseTile()(own.tiles[j]);
    }
  }

  /** The tile t is what leaves of a tile in the list that is marked for replication and
      filed under the key. */
  ghost predicate LeftTile(items: seq<InfoTile>, key: string, item: InfoTile, t: Tile) {
    item in items && Filed(key)(item) && item.tile.replicate && t == TileShown()(item).(replicate := false)
  }

  /** Each link and tile of g comes from an object in the store's own lists that is filed
      under the group and marked for replication. */
  ghost predicate FromStore(c: Config, store: Store, ch: Choices, g: Group) {
    && (forall l :: l in g.links ==> !l.replicate && Stems(SettingsOf(c, store), store.cluster, ch, g.linkGroup, l.(replicate := true)))
    && (forall t :: t in g.tiles ==> exists item :: LeftTile(ItemsOf(store.cluster.infoTiles), g.linkGroup, item, t))
  }

  lemma GroupFromStore(c: Config, store: Store, ch: Choices, b: Board, own: Group)
    requires !LocalFails(store.cluster) && CollectsBoard(SettingsOf(c, store), store.cluster, ch, b)
    requires OwnReplicable(b, own) && OwnSources(b)
    ensures FromStore(c, store, ch, EraseGroup()(own))
  {
    hide LegalChoices, LocalBoard, LocalFails, OwnReplicable, Stems, OwnSources, PickedTiles, Filed;
    ListedTiles(store.cluster);
    var st, g, items := SettingsOf(c, store), EraseGroup()(own), ItemsOf(store.cluster.infoTiles);
    EraseGroupFrom(g, own, b);
    LocalBoardExact(st, store.cluster, ch, g.linkGroup);
    forall l | l in g.links ensures !l.replicate && Stems(st, store.cluster, ch, g.linkGroup, l.(replicate := true)) {
      var m :| LeftFor(LinksAt(b, g.linkGroup), m, l);
      assert m == l.(replicate := true);
      CollectedIff(st, store.cluster, ch, g.linkGroup, m);
    }
    forall t | t in g.tiles ensures exists item :: LeftTile(items, g.linkGroup, item, t) {
      var m :| m in TilesAt(b, g.linkGroup) && m.replicate && t == EraseTile()(m);
      TileItem(items, g.linkGroup, m);
    }
  }

  lemma ListedTiles(c: Cluster)
    requires !LocalFails(c)
    ensures c.infoTiles.Listed?
  {
  }

  lemma TileItem(items: seq<InfoTile>, key: string, m: Tile)
    requires m in PickedTiles(items, key) && m.replicate
    ensures exists item :: LeftTile(items, key, item, m.(replicate := false))
  {
    PickedTilesExact(items, key);
    FilterMembers(Filed(key), items);
    hide Filed;
    var kept := Filter(Filed(key), items);
    var i :| 0 <= i < |kept| && Map(TileShown(), kept)[i] == m;
    assert kept[i] in kept;
    assert LeftTile(items, key, kept[i], m.(replicate := false));
  }

  lemma ExportFromStore(c: Config, store: Store, r: Response, k: nat)
    requires ProperStore(store) && IsExport(c, store, r) && k < |r.groups|
    ensures !LocalFails(store.cluster)
    ensures exists ch :: LegalChoices(SettingsOf(c, store), store.cluster, ch) && FromStore(c, store, ch, r.groups[k])
  {
    hide LegalChoices, LocalBoard, LocalFails, Exports, OwnReplicable, WellFormed, EmptyKeyPlain, OwnSources, FromStore, ProperStore;
    var st := SettingsOf(c, store);
    var b :| Collected(c, store, b) && BoardExport(c, b, r);
    CollectedWellFormed(c, store, b);
    var ch :| CollectsBoard(st, store.cluster, ch, b);
    var sur, t :| Exports(c.fold, c.lower, b, sur, t, r);
    ExportedFrom(c.fold, c.lower, b, sur, t, r, k);
    var own :| OwnReplicable(b, own) && r.groups[k] == EraseGroup()(own);
    GroupFromStore(c, store, ch, b, own);
  }

  /** In every reachable state of every network, each link a node caches under a
      peer's URL was at some moment a replicable link that the peer itself collected
      from its own lists, under the same group, and so was each tile. So nothing
      unmarked leaves its node and nothing travels two hops. */
  lemma OneHop(c: Config, run: seq<Net>, i: nat, n: nat, url: string, k: nat)
    requires Run(c, run) && i < |run| && n in run[i] && url in run[i][n].cache
    requires k < |run[i][n].cache[url].groups|
    ensures url in c.address && c.address[url] in run[i]
    ensures exists store :: (
      && store in run[i][c.address[url]].past && !LocalFails(store.cluster)
      && exists ch :: LegalChoices(SettingsOf(c, store), store.cluster, ch) && FromStore(c, store, ch, run[i][n].cache[url].groups[k]))
  {
    hide Run, IsExport, FromStore, LegalChoices, LocalFails, ProperStore;
    InvRun(c, run, i);
    var s := run[i];
    var r := s[n].cache[url];
    assert NodeInv(c, s, s[n]);
    assert Served(c, s, url, r);
    var store :| store in s[c.address[url]].past && IsExport(c, store, r);
    assert NodeInv(c, s, s[c.address[url]]);
    ExportFromStore(c, store, r, k);
  }

  /** A cached link of a labelled kind is, in every field, what a resource of that very
      kind in a list of the peer's own becomes; and that resource is annotated "true". */
  lemma MarkedAtHome(c: Config, run: seq<Net>, i: nat, n: nat, url: string, k: nat, l: Link)
    requires Run(c, run) && i < |run| && n in run[i] && url in run[i][n].cache
    requires k < |run[i][n].cache[url].groups| && l in run[i][n].cache[url].groups[k].links && l.source in KINDS
    ensures url in c.address && c.address[url] in run[i]
    ensures exists store, r :: store in run[i][c.address[url]].past && ShownAtHome(store.cluster, r, run[i][n].cache[url].groups[k].linkGroup, l)
  {
    hide Run, LocalFails, LegalChoices, Stems, AppChoice, ResourcesOf;
    OneHop(c, run, i, n, url, k);
    var g := run[i][n].cache[url].groups[k];
    var store :| store in run[i][c.address[url]].past && !LocalFails(store.cluster)
      && exists ch :: LegalChoices(SettingsOf(c, store), store.cluster, ch) && FromStore(c, store, ch, g);
    var ch :| LegalChoices(SettingsOf(c, store), store.cluster, ch) && FromStore(c, store, ch, g);
    var r := KindStems(SettingsOf(c, store), store.cluster, ch, g.linkGroup, l.(replicate := true));
    assert ShownAtHome(store.cluster, r, g.linkGroup, l);
  }

  predicate ShownAtHome(c: Cluster, r: Resource, key: string, l: Link) {
    && r in ResourcesOf(c)(l.source) && ResourceShown(l.source, r, key, l.(replicate := true))
    && Annotated(r, "cupboard.netztronaut.de/replicate", "true")
  }

  /** What a reader may see in the middle of a round, in any reachable state: for
      peers tried successfully the new response, for all others the old entry. */
  lemma ReaderSeesPrefix(c: Config, run: seq<Net>, i: nat, n: nat)
    requires Run(c, run) && i < |run| && n in run[i] && run[i][n].round.Fetching?
    ensures var cache, r := run[i][n].cache, run[i][n].round;
      && |r.outcomes| <= |r.peers|
      && (forall j :: 0 <= j < |r.outcomes| && r.outcomes[j].Some? ==>
            r.peers[j] in cache && cache[r.peers[j]] == r.outcomes[j].value)
      && (forall j :: 0 <= j < |r.peers| && (j >= |r.outcomes| || r.outcomes[j].None?) ==> SameEntry(cache, r.start, r.peers[j]))
      && (forall p :: p !in r.peers ==> SameEntry(cache, r.start, p))
  {
    hide Run, Tried, Served;
    InvRun(c, run, i);
    var node := run[i][n];
    assert NodeInv(c, run[i], node);
    TriedExact(node.round.start, node.round.peers, node.round.outcomes);
  }
}
