/**
 Convergence: once the nodes' stores stop changing, one complete round makes a
 node's cache hold its peers' current exports, and later rounds keep it so. Where
 labels are decided, a quiet store has one board however often it is collected.
 */
module Convergence {
  import opened Wrappers
  import Text
  import opened Sequences
  import opened Enumeration
  import opened Boards
  import opened Labels
  import opened Collect
  import opened Collection
  import opened GroupOrder
  import opened PeerCache
  import opened Dashboard
  import opened Aggregator
  import opened Export
  import opened Visibility
  import opened Rounds
  import opened Network

  /** No node's store changes in this step. */
  ghost predicate Quiet(s: Net, s': Net) {
    s'.Keys == s.Keys && forall n :: n in s ==> s'[n].store == s[n].store
  }

  /** r is an export of what the node behind url may collect now. */
  ghost predicate CurrentExport(c: Config, s: Net, url: string, r: Response) {
    && url in c.address && c.address[url] in s
    && IsExport(c, s[c.address[url]].store, r)
  }

  /** Everything the round in progress has fetched is current. */
  ghost predicate FreshRound(c: Config, s: Net, r: Round) {
    r.Fetching? ==>
      && |r.outcomes| <= |r.peers|
      && (forall k :: 0 <= k < |r.outcomes| && r.outcomes[k].Some? ==> CurrentExport(c, s, r.peers[k], r.outcomes[k].value))
      && (r.reply.Some? && |r.outcomes| < |r.peers| ==> CurrentExport(c, s, r.peers[|r.outcomes|], r.reply.value))
  }

  ghost predicate CacheCurrent(c: Config, s: Net, cache: Remote) {
    forall u :: u in cache ==> CurrentExport(c, s, u, cache[u])
  }

  lemma QuietRound(c: Config, s: Net, s': Net, r: Round)
    requires Quiet(s, s') && FreshRound(c, s, r)
    ensures FreshRound(c, s', r)
  {
    hide IsExport;
  }

  lemma QuietCache(c: Config, s: Net, s': Net, cache: Remote)
    requires Quiet(s, s') && CacheCurrent(c, s, cache)
    ensures CacheCurrent(c, s', cache)
  {
    hide IsExport;
  }

  /** One step of the poller keeps what it has fetched current. */
  lemma FreshStep(c: Config, s: Net, n: nat, step: Step, s': Net)
    requires Inv(c, s) && Does(c, s, n, step, s') && FreshRound(c, s, s[n].round)
    ensures n in s' && FreshRound(c, s, s'[n].round)
    ensures s[n].round.Fetching? && s'[n].round.Fetching? ==> s'[n].round.peers == s[n].round.peers
    ensures CacheCurrent(c, s, s[n].cache) ==> CacheCurrent(c, s, s'[n].cache)
    ensures s[n].round.Fetching? && s'[n].round.Idle? ==> step.Finish?
  {
    hide ProperStore, Answers, MayAnswer, IsExport, NodeInv;
    match step
    case LocalChange(_) =>
    case FleetChange(_) =>
    case StartRound(_) =>
    case Serve(trace, sent) => ServeServed(c, s, s[n].round.peers[|s[n].round.outcomes|], trace, sent);
    case Store =>
    case FetchFail =>
    case Finish =>
    case Read(_, _, _) =>
  }

  /** The same over a step of any node that changes no store. */
  lemma FreshNext(c: Config, s: Net, s': Net, n: nat)
    requires Inv(c, s) && Next(c, s, s') && Quiet(s, s') && n in s && FreshRound(c, s, s[n].round)
    ensures FreshRound(c, s', s'[n].round)
    ensures s[n].round.Fetching? && s'[n].round.Fetching? ==> s'[n].round.peers == s[n].round.peers
    ensures CacheCurrent(c, s, s[n].cache) ==> CacheCurrent(c, s', s'[n].cache)
    ensures s[n].round.Fetching? && s'[n].round.Idle? ==> Does(c, s, n, Finish, s')
  {
    hide Does, FreshRound, CacheCurrent, Inv;
    var m, step :| Does(c, s, m, step, s');
    StepGrows(c, s, m, step, s');
    if m == n {
      FreshStep(c, s, n, step, s');
    }
    QuietRound(c, s, s', s'[n].round);
    if CacheCurrent(c, s, s'[n].cache) {
      QuietCache(c, s, s', s'[n].cache);
    }
  }

  /** No store changes between the i-th and the j-th state. */
  ghost predicate QuietBetween(run: seq<Net>, i: nat, j: nat) {
    forall k :: i <= k < j && k + 1 < |run| ==> Quiet(run[k], run[k + 1])
  }

  /** Node n is in the middle of one round from state i + 1 through state j. */
  ghost predicate InRound(run: seq<Net>, n: nat, i: nat, j: nat) {
    forall k :: i < k <= j && k < |run| ==> n in run[k] && run[k][n].round.Fetching?
  }

  lemma NextAt(c: Config, run: seq<Net>, k: nat)
    requires Run(c, run) && k + 1 < |run|
    ensures Inv(c, run[k]) && Next(c, run[k], run[k + 1])
  {
    hide Inv, Next;
    InvRun(c, run, k);
  }

  lemma {:induction false} FreshRun(c: Config, run: seq<Net>, n: nat, i: nat, j: nat)
    requires Run(c, run) && i < j < |run| && QuietBetween(run, i, j) && InRound(run, n, i, j)
    requires n in run[i] && run[i][n].round.Idle?
    ensures FreshRound(c, run[j], run[j][n].round)
  {
    hide Run, FreshRound, Inv, Next;
    NextAt(c, run, j - 1);
    if j == i + 1 {
      IdleFresh(c, run[i], run[i][n].round);
    } else {
      FreshRun(c, run, n, i, j - 1);
    }
    FreshNext(c, run[j - 1], run[j], n);
  }

  lemma IdleFresh(c: Config, s: Net, r: Round)
    requires r.Idle?
    ensures FreshRound(c, s, r)
  {
  }

  /** The cache of a node that has just finished a complete round. */
  lemma FinishComplete(c: Config, s: Net, n: nat, s': Net)
    requires Inv(c, s) && Does(c, s, n, Finish, s') && Quiet(s, s') && FreshRound(c, s, s[n].round)
    requires forall k :: 0 <= k < |s[n].round.outcomes| ==> s[n].round.outcomes[k].Some?
    ensures forall p :: p in s'[n].cache <==> p in s[n].round.peers
    ensures CacheCurrent(c, s', s'[n].cache)
  {
    hide IsExport, Tried, Served;
    var r := s[n].round;
    assert NodeInv(c, s, s[n]);
    RoundExact(r.start, r.peers, r.outcomes);
    forall u | u in s'[n].cache ensures CurrentExport(c, s', u, s'[n].cache[u]) {
      var k :| 0 <= k < |r.peers| && r.peers[k] == u;
      assert CurrentExport(c, s, r.peers[k], r.outcomes[k].value);
    }
  }

  /** Convergence: if no store changes while node n goes through one complete
      successful round, from idle at state i to idle at state j + 1, its cache
      then holds a current export for exactly the peers it discovered. */
  lemma Converges(c: Config, run: seq<Net>, n: nat, i: nat, j: nat)
    requires Run(c, run) && i < j && j + 1 < |run| && QuietBetween(run, i, j + 1) && InRound(run, n, i, j)
    requires n in run[i] && run[i][n].round.Idle? && n in run[j + 1] && run[j + 1][n].round.Idle?
    requires forall k :: 0 <= k < |run[j][n].round.outcomes| ==> run[j][n].round.outcomes[k].Some?
    ensures forall p :: p in run[j + 1][n].cache <==> p in run[j][n].round.peers
    ensures CacheCurrent(c, run[j + 1], run[j + 1][n].cache)
  {
    hide Run, FreshRound, Inv, Next, CacheCurrent, Does;
    FreshRun(c, run, n, i, j);
    NextAt(c, run, j);
    FreshNext(c, run[j], run[j + 1], n);
    FinishComplete(c, run[j], n, run[j + 1]);
  }

  /** From then on the cache stays current through every step that leaves the
      stores alone: further rounds, failed fetches and evictions included. */
  lemma {:induction false} StaysCurrent(c: Config, run: seq<Net>, n: nat, i: nat, j: nat)
    requires Run(c, run) && i <= j < |run| && QuietBetween(run, i, j)
    requires n in run[i] && run[i][n].round.Idle? && CacheCurrent(c, run[i], run[i][n].cache)
    ensures n in run[j] && CacheCurrent(c, run[j], run[j][n].cache) && FreshRound(c, run[j], run[j][n].round)
  {
    hide Run, FreshRound, Inv, Next, CacheCurrent;
    if i == j {
      IdleFresh(c, run[i], run[i][n].round);
    } else {
      StaysCurrent(c, run, n, i, j - 1);
      NextAt(c, run, j - 1);
      FreshNext(c, run[j - 1], run[j], n);
    }
  }

  // ------------------------------------------------ what converged nodes agree on

  lemma ExportRenders(c: Config, b: Board, r: Response) returns (order: seq<string>)
    requires WellFormed(b) && BoardExport(c, b, r)
    ensures WellFormed(ReplicatedBoard(b)) && ReplicatedBoard(b).details == b.details && Enumerates(order, b.details.Keys)
    ensures (forall k :: k in order ==> k in b.details) && r == Erase(Render(c.lower, ReplicatedBoard(b), order, [WILDCARD], true))
  {
    hide WellFormed, Render;
    var s, t :| Exports(c.fold, c.lower, b, s, t, r);
    ReplicatedWellFormed(b);
    order := t.groups;
  }

  lemma ErasedGroups(lower: string -> string, p: Board, order: seq<string>, key: string)
    requires WellFormed(p) && Enumerates(order, p.details.Keys) && forall k :: k in order ==> k in p.details
    ensures Filter(Under(key), Erase(Render(lower, p, order, [WILDCARD], true)).groups)
         == if key in p.details && !Dropped(p, p.details[key], [WILDCARD], true)
            then [EraseGroup()(ShownGroup(lower, p, p.details[key], [WILDCARD]))] else []
  {
    hide Dropped, ShownGroup, Filter, WellFormed, Enumerates, Render;
    RenderExact(lower, p, order, [WILDCARD], true, key);
    FilterMap(Under(key), EraseGroup(), Render(lower, p, order, [WILDCARD], true).groups);
  }

  lemma ErasedRecords(lower: string -> string, p: Board, order: seq<string>, key: string)
    requires WellFormed(p) && Enumerates(order, p.details.Keys) && forall k :: k in order ==> k in p.details
    ensures Filter(Named(key), Erase(Render(lower, p, order, [WILDCARD], true)).linkGroups)
         == if key in p.details then [EraseLinkGroup()(p.details[key])] else []
  {
    hide Filter, Enumerates, ShownGroups, SortedGroups;
    SortedNamed(lower, p.details, order, key);
    FilterMap(Named(key), EraseLinkGroup(), SortedGroups(lower, p.details, order));
  }

  /** What an export holds under a key: at most one group and one record, as functions of the board. */
  lemma ExportUnder(c: Config, b: Board, r: Response, key: string)
    requires WellFormed(b) && BoardExport(c, b, r)
    ensures Filter(Under(key), r.groups)
         == var p := ReplicatedBoard(b);
            if key in b.details && !Dropped(p, b.details[key], [WILDCARD], true)
            then [EraseGroup()(ShownGroup(c.lower, p, b.details[key], [WILDCARD]))] else []
    ensures Filter(Named(key), r.linkGroups) == if key in b.details then [EraseLinkGroup()(b.details[key])] else []
  {
    var order := ExportRenders(c, b, r);
    hide Dropped, ShownGroup, Filter, BoardExport, ReplicatedBoard, WellFormed, Enumerates, Render, Erase;
    ErasedGroups(c.lower, ReplicatedBoard(b), order, key);
    ErasedRecords(c.lower, ReplicatedBoard(b), order, key);
  }

  /** Two exports of one board hold the same groups and the same group details,
      record for record; they can differ in the order of the groups alone. */
  lemma ExportsAlike(c: Config, b: Board, r1: Response, r2: Response, key: string)
    requires WellFormed(b) && BoardExport(c, b, r1) && BoardExport(c, b, r2)
    ensures Filter(Under(key), r1.groups) == Filter(Under(key), r2.groups)
    ensures Filter(Named(key), r1.linkGroups) == Filter(Named(key), r2.linkGroups)
  {
    hide BoardExport, Filter, Dropped, ShownGroup;
    ExportUnder(c, b, r1, key);
    ExportUnder(c, b, r2, key);
  }

  /** Without ties among the groups they are equal outright: a later round stores
      just what is there already. */
  lemma ExportsEqual(c: Config, b: Board, r1: Response, r2: Response)
    requires WellFormed(b) && BoardExport(c, b, r1) && BoardExport(c, b, r2)
    requires AllFit(c.lower, b.details) && NoTies(c.lower, b.details)
    ensures r1 == r2
  {
    hide AllFit, NoTies, SortedGroups, ShownGroups;
    var s1, t1 :| Exports(c.fold, c.lower, b, s1, t1, r1);
    var s2, t2 :| Exports(c.fold, c.lower, b, s2, t2, r2);
    SameSorted(c.lower, b.details, t1.groups, t2.groups);
  }

  // ------------------------------------------------------- one board per store

  /** Every label that is looked up during a collection has one answer. */
  ghost predicate Decidable(c: Config, store: Store) {
    !LocalFails(store.cluster) && LabelsDecided(SettingsOf(c, store), store.cluster)
  }

  /** A quiet store has one board: any two collections of it give the same maps. */
  lemma OneBoard(c: Config, store: Store, b1: Board, b2: Board)
    requires Decidable(c, store) && Collected(c, store, b1) && Collected(c, store, b2)
    ensures b1 == b2
  {
    hide LegalChoices, LocalBoard, LocalFails, LabelsDecided;
    var st := SettingsOf(c, store);
    var ch1 :| CollectsBoard(st, store.cluster, ch1, b1);
    var ch2 :| CollectsBoard(st, store.cluster, ch2, b2);
    LocalBoardUnique(st, store.cluster, ch1, ch2);
  }

  /** Labels decided, priorities that do not wrap, and no ties in what is collected. */
  ghost predicate Orderly(c: Config, store: Store) {
    Decidable(c, store) && forall b :: Collected(c, store, b) ==> AllFit(c.lower, b.details) && NoTies(c.lower, b.details)
  }

  lemma OneExport(c: Config, store: Store, r1: Response, r2: Response)
    requires ProperStore(store) && Orderly(c, store) && IsExport(c, store, r1) && IsExport(c, store, r2)
    ensures r1 == r2
  {
    hide Collected, BoardExport, Decidable, AllFit, NoTies, ProperStore, WellFormed, OwnSources, EmptyKeyPlain;
    var b1 :| Collected(c, store, b1) && BoardExport(c, b1, r1);
    var b2 :| Collected(c, store, b2) && BoardExport(c, b2, r2);
    OneBoard(c, store, b1, b2);
    CollectedWellFormed(c, store, b1);
    ExportsEqual(c, b1, r1, r2);
  }

  /** Later rounds change nothing: in a quiet period an entry that is current and is
      cached at two moments is the same at both, where labels are decided, priorities
      do not wrap and no groups tie. */
  lemma LaterRoundsChangeNothing(c: Config, run: seq<Net>, n: nat, i: nat, j: nat, url: string)
    requires Run(c, run) && i <= j < |run| && QuietBetween(run, i, j)
    requires n in run[i] && run[i][n].round.Idle? && CacheCurrent(c, run[i], run[i][n].cache)
    requires n in run[j] && url in run[i][n].cache && url in run[j][n].cache
    requires url in c.address && c.address[url] in run[i] && Orderly(c, run[i][c.address[url]].store)
    ensures run[j][n].cache[url] == run[i][n].cache[url]
  {
    hide Run, FreshRound, Orderly, IsExport, Inv, ProperStore;
    StaysCurrent(c, run, n, i, j);
    QuietStores(c, run, i, j);
    InvRun(c, run, i);
    var a := c.address[url];
    assert CurrentExport(c, run[i], url, run[i][n].cache[url]) && CurrentExport(c, run[j], url, run[j][n].cache[url]);
    NamedStore(c, run[i], a);
    OneExport(c, run[i][a].store, run[i][n].cache[url], run[j][n].cache[url]);
  }

  lemma NamedStore(c: Config, s: Net, a: nat)
    requires Inv(c, s) && a in s
    ensures ProperStore(s[a].store)
  {
    hide Served, RoundInv;
    assert NodeInv(c, s, s[a]);
  }

  lemma {:induction false} QuietStores(c: Config, run: seq<Net>, i: nat, j: nat)
    requires i <= j < |run| && QuietBetween(run, i, j)
    ensures run[j].Keys == run[i].Keys && forall a :: a in run[i] ==> run[j][a].store == run[i][a].store
  {
    if i < j {
      QuietStores(c, run, i, j - 1);
      assert Quiet(run[j - 1], run[j]);
    }
  }

  lemma SomeExport(c: Config, b: Board, key: string) returns (r: Response)
    requires WellFormed(b)
    ensures BoardExport(c, b, r) && |LinksUnder(r.groups, key)| == |ReplicableAt(b, key)|
  {
    hide WellFormed, Render, LinksUnder, AnyOrder;
    var p := ReplicatedBoard(b);
    var s, t := Surroundings(None, None), Trace(Choices([], []), [], [], AnyOrder(p.details.Keys));
    var sent := Render(c.lower, p, t.groups, [WILDCARD], true);
    assert Responds(c.fold, c.lower, b, s, [WILDCARD], true, t, sent);
    r := Erase(sent);
    assert Exports(c.fold, c.lower, b, s, t, r);
    ExportExact(c.fold, c.lower, b, s, t, r, key);
  }

  /** Where labels are not decided, a quiet store may export an app now under one
      group and now under another: there are ForecastleApps and two exports of one
      store that hold different numbers of links under a key. */
  lemma UndecidedStoreWavers(c: Config, store: Store)
    requires ProperStore(store) && !LocalFails(store.cluster) && Text.Trimmed(store.forecastleInstance)
    requires Uncontested(c.fold, InitialDetails(store.linkGroups)) && !LabelsDecided(SettingsOf(c, store), store.cluster)
    ensures exists apps, r1, r2, key ::
              && IsExport(c, store.(cluster := WithApps(store.cluster, apps)), r1)
              && IsExport(c, store.(cluster := WithApps(store.cluster, apps)), r2)
              && |LinksUnder(r1.groups, key)| != |LinksUnder(r2.groups, key)|
  {
    hide LegalChoices, LocalBoard, LocalFails, LabelsDecided, Uncontested, InitialDetails, LinksUnder, ReplicableAt, IsExport;
    var st := SettingsOf(c, store);
    var app, ch1, ch2, key := UndecidedApp(st, store.cluster);
    var more := store.(cluster := WithApps(store.cluster, [app]));
    assert SettingsOf(c, more) == st;
    var r1 := ExportOfChoice(c, more, ch1, key);
    var r2 := ExportOfChoice(c, more, ch2, key);
  }

  lemma ExportOfChoice(c: Config, store: Store, ch: Choices, key: string) returns (r: Response)
    requires ProperStore(store) && !LocalFails(store.cluster) && LegalChoices(SettingsOf(c, store), store.cluster, ch)
    ensures IsExport(c, store, r)
    ensures |LinksUnder(r.groups, key)| == |ReplicableAt(LocalBoard(SettingsOf(c, store), store.cluster, ch), key)|
  {
    LegalLengths(SettingsOf(c, store), store.cluster, ch);
    hide LegalChoices, LocalBoard, LocalFails, ProperStore, BoardExport, LinksUnder, ReplicableAt, WellFormed, OwnSources, EmptyKeyPlain;
    var b := LocalBoard(SettingsOf(c, store), store.cluster, ch);
    assert CollectsBoard(SettingsOf(c, store), store.cluster, ch, b);
    assert Collected(c, store, b);
    CollectedWellFormed(c, store, b);
    r := SomeExport(c, b, key);
  }

  // -------------------------------------------------------------- exactly once

  /** What a user sees of peer A's group: the replicable links of A's board a, filtered
      for the user, once each and in A's order; and the node's own links likewise. */
  ghost predicate ShowsOnce(c: Config, a: Board, own: Board, users: seq<string>, shown: Response, url: string, key: string) {
    && Filter(FromPeer(url), LinksUnder(shown.groups, key))
       == Map(Replica(url), Sort(ByName(c.lower), Visible(Filter(Replicates(), LinksAt(a, key)), users)))
    && Filter(Own(), LinksUnder(shown.groups, key)) == Sort(ByName(c.lower), Visible(LinksAt(own, key), users))
  }

  /** Exactly once: on a node whose cache is current, a read shows each replicable link of
      a peer's collection once, under every key at once, and each own link once. */
  lemma ConvergedView(c: Config, s: Net, n: nat, users: seq<string>, t: Trace, shown: Response, url: string)
    requires Inv(c, s) && n in s && CacheCurrent(c, s, s[n].cache) && url in s[n].cache
    requires Does(c, s, n, Read(users, t, shown), s)
    ensures url in c.address && c.address[url] in s
    ensures exists a, own ::
              && Collected(c, s[c.address[url]].store, a) && Collected(c, s[n].store, own)
              && forall key :: ShowsOnce(c, a, own, users, shown, url, key)
  {
    hide Exports, BoardExport, Collected, RoundInv, Served, ProperStore, Inv, MayAnswer, ShowsOnce;
    assert CurrentExport(c, s, url, s[n].cache[url]);
    NamedStore(c, s, c.address[url]);
    NamedStore(c, s, n);
    var a :| Collected(c, s[c.address[url]].store, a) && BoardExport(c, a, s[n].cache[url]);
    var own := ReadCollects(c, s[n], users, t, shown);
    CollectedWellFormed(c, s[c.address[url]].store, a);
    CollectedWellFormed(c, s[n].store, own);
    forall key ensures ShowsOnce(c, a, own, users, shown, url, key) {
      ShownOnce(c, a, s[n], own, users, t, shown, url, key);
    }
  }

  /** With labels decided, the boards are the ones every collection gives. */
  lemma DecidedView(c: Config, s: Net, n: nat, users: seq<string>, t: Trace, shown: Response, url: string, a: Board, own: Board)
    requires Inv(c, s) && n in s && CacheCurrent(c, s, s[n].cache) && url in s[n].cache
    requires Does(c, s, n, Read(users, t, shown), s)
    requires url in c.address && c.address[url] in s
    requires Decidable(c, s[c.address[url]].store) && Collected(c, s[c.address[url]].store, a)
    requires Decidable(c, s[n].store) && Collected(c, s[n].store, own)
    ensures forall key :: ShowsOnce(c, a, own, users, shown, url, key)
  {
    hide Inv, Does, CacheCurrent, Decidable, Collected, ShowsOnce;
    ConvergedView(c, s, n, users, t, shown, url);
    var a', own' :| Collected(c, s[c.address[url]].store, a') && Collected(c, s[n].store, own')
                    && forall key :: ShowsOnce(c, a', own', users, shown, url, key);
    OneBoard(c, s[c.address[url]].store, a, a');
    OneBoard(c, s[n].store, own, own');
  }

  lemma ReadCollects(c: Config, node: Node, users: seq<string>, t: Trace, shown: Response) returns (own: Board)
    requires MayAnswer(c, node, users, false, t, shown)
    ensures Collected(c, node.store, own) && Responds(c.fold, c.lower, own, Around(node), users, false, t, shown)
  {
    hide Responds, LegalChoices, LocalBoard, LocalFails;
    var st := SettingsOf(c, node.store);
    LegalLengths(st, node.store.cluster, t.local);
    own := LocalBoard(st, node.store.cluster, t.local);
    assert CollectsBoard(st, node.store.cluster, t.local, own);
  }

  lemma ShownOnce(c: Config, a: Board, node: Node, own: Board, users: seq<string>, t: Trace, shown: Response, url: string, key: string)
    requires WellFormed(a) && EmptyKeyPlain(a) && WellFormed(own) && OwnSources(own)
    requires url in node.cache && BoardExport(c, a, node.cache[url])
    requires Responds(c.fold, c.lower, own, Around(node), users, false, t, shown)
    ensures ShowsOnce(c, a, own, users, shown, url, key)
  {
    hide Exports, Responds, WellFormed, OwnSources, EmptyKeyPlain;
    var sa, ta :| Exports(c.fold, c.lower, a, sa, ta, node.cache[url]);
    VisibilityPreserved(c.fold, c.lower, a, sa, ta, own, Around(node), t, users, shown, url, key);
  }
}
