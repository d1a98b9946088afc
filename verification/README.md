# Cupboard: a verified model of the federation core

Cupboard is a federated dashboard. Every instance collects links from Kubernetes lists and from its
configuration into three shared maps, exports a filtered view to its peers, polls those peers into a cache,
merges what peers and foreign clusters hold, filters the result for the user and puts it in order. This
project models that behaviour in Dafny and proves what it keeps, in these layers:

* **Collecting and rendering** (`Board`, `Labels`, `Collect`, `Sources`, `Collection`, `Kinds`, `GroupOrder`,
  `Dashboard`, `Aggregator`, `Requests`, `ListingOrder`): the collectors are methods that update the shared maps
  of the class `BoardMaps` step by step. Each is proved against a function of the maps, and the functions carry
  the theorems: which object of which list becomes which link, tile and group record, conservation of links and
  tiles from the lists to the response, well-formedness of the maps, when label resolution and group order depend
  on Go's map order, and when they do not.
* **Merging and exporting** (`PeerCache`, `Merge`, `Fleet`, `FleetLookups`, `Export`, `Visibility`): confluence
  and local precedence of the peer merge, isolation of foreign clusters, what label lookups at a cluster decide,
  non-interference of exports, and the theorem that a user sees of a peer exactly what the peer would show that
  user of its replicable links. Cached link slices are Dafny arrays, so that the aliasing left by `GetRemoteData`
  is part of the model.
* **The network** (`SyncClient`, `Network`, `Convergence`): the cache contract of a polling round, and a
  transition system of any number of nodes with any peer graph, in which a served response may be stored
  much later. One-hop safety is proved of every reachable state, and convergence of every quiet period.
* **Notifier and clients** (`Notifier`, `Registry`): no lost notification and rate limiting over every
  interleaving, and the contract of a broadcast while clients come and go.
* **Sessions, reachability, fleet** (`Base64`, `GroupClaims`, `Session`, `Reachability`, `ClusterList`,
  `FleetManager`): round trips of the session cookie and of the cluster flag, bounded staleness with
  overlapping probes, and the life of the connections to foreign clusters.

Conventions. A Go map is ranged over in an arbitrary order: the order is an existentially chosen sequence
that `Enumeration.Enumerates` ties to the key set, and methods return the order they happened to take as a
ghost result. Case folding and lower-casing are function parameters (`fold`, `lower`), so every theorem holds
for every such function. Go's `int` is `Int64`, with the wrap-around of the one subtraction that can overflow
written out. Kubernetes List calls, HTTP fetches, DNS answers, connection attempts, clocks and the schedule of
goroutines are inputs. The library's stable sorts are the function `Sequences.Sort`: any sorted and
stable arrangement is proved equal to its result.

Where the code and what one might expect of it part ways, the code is followed and the exact condition proved:

* README.md:143 promises that `/api/dashboard` returns its groups in a deterministic order. Where priorities do
  not wrap, any two requests over the same lists, peers and clusters list the same groups in the same order exactly
  when three things hold: no group that the node itself does not have is carried by two peers; every group that
  only clusters can supply is settled, that is, no cluster that may supply it comes before all that must, unless
  it has the endpoint of the first that must; and no two of the merged groups tie on all four sort keys
  (`ListingOrder.ListingDeterminedIff`, `ListingOrder.ResponsesAgreeIff`, `ListingOrder.RequestsAgreeIff`).
  Each of the three can fail alone (`ListingOrder.PeersDecideOrder`, `ListingOrder.ClusterDecidesListing`,
  `ListingOrder.CaseTwinsTie`). What the node's own labels resolve to never matters to the listing
  (`Collection.LocalDetailsSame`).
* Labels are resolved anew at each request, over maps in arbitrary order, so the same lists may give different
  links per group. The node's own maps are determined for all ForecastleApps exactly when every label looked up
  has one place to land in (`Collection.BoardDeterminedIff`, `Convergence.UndecidedStoreWavers`), and so are the
  maps of each foreign cluster (`FleetLookups.ForeignDeterminedIff`). Both together fix the merged maps for every
  order of the peers (`ListingOrder.LookupsMatterNot`).
* The priority subtraction of the comparison wraps around; the comparison is right exactly when it does not
  (`GroupOrder.CompareAgrees`), and otherwise may be cyclic (`GroupOrder.WrappedPrioritiesCycle`).
* A bookmark is listed under the trimmed name of its group but inherits the group's replicate flag under the
  untrimmed one (`Sources.BookmarkInherits`, `Sources.PaddedBookmarkStaysHome`).
* When probes overlap, the one that finishes last is cached, even if another one started later
  (`Reachability.OlderProbeMayWin`, `Reachability.LatestServedIff`); the 30-second bound holds all the same (`Reachability.BoundedStaleness`).
* On export, links and tiles are filtered but group metadata is not (`Export.ExportedFrom`,
  `Requests.PeerShownIff`), and the peer merge ignores the tiles that peers send (`Merge.MergeRemoteLinks`).

`dafny verify dfyconfig.toml` checks the whole project.

## Model

| member | source | states |
|---|---|---|
| Boards.PlaceAllExact | web/dashboard.go:422-440 | A collector's loop appends exactly its own links, in order, each under its key, leaves tiles and existing group details alone, and describes only groups it puts a link into |
| Boards.PlaceAllKeeps | web/dashboard.go:957-966 | Once a group has details, no later link changes them |
| Boards.PlaceAllWellFormed | web/dashboard.go:957-966 | Every group stays filed under its own name, and no link is filed under a group without details |
| Boards.BoardMaps.EnsureLinkGroup | web/dashboard.go:957-966 | The whole new state: an existing group is untouched, a new one gets the default details |
| Boards.WildcardSeesAll | web/sync.go:175 | The sync handler's wildcard user loses no link and no order |
| Boards.VisibleMonotone | web/dashboard.go:980-995 | What a user with fewer groups sees is the same selection from what a user with more groups sees |
| Boards.FilterLinksForReplication | web/dashboard.go:970-978 | Exactly the links marked for replication, in order |
| Boards.FilterTilesForReplication | web/dashboard.go:1071-1079 | Exactly the tiles marked for replication, in order |
| Boards.LinkAllowedForGroups | web/dashboard.go:997-1010 | True iff the link names no group, the user has the wildcard, or at least one of the link's groups is the user's |
| Boards.FilterLinksForGroups | web/dashboard.go:980-995 | The visible links in order: exactly those that name no group, or one that is among the user's trimmed groups, or all of them for a user with the wildcard |
| Boards.VisibleIff | web/dashboard.go:980-1010 | A link is visible iff it names no group, or some trimmed group of the user is the wildcard or one that it names |
| Boards.VisibleUnion | web/dashboard.go:980-1010 | Two lists of groups together see exactly what one of them sees |
| Sequences.SortFilter | web/dashboard.go:245-250 | The stable sort commutes with filtering: what is filtered out leaves no trace in the order of the rest |
| Sequences.SortSorted | web/dashboard.go:245-250 | The sort's output is sorted for every strict weak order |
| Sequences.SortPermutes | web/dashboard.go:245-250 | The sort's output is a permutation of its input |
| Sequences.StableSortIsSort | web/dashboard.go:1017-1038 | For every strict weak order, a list is a sorted and stable arrangement of the input iff it is what `Sort` gives, whatever algorithm produced it |
| Sequences.SortedUnique | web/dashboard.go:1012-1039 | Two sorted permutations without ties among their members are equal |
| GroupOrder.CompareAgrees | web/dashboard.go:1017-1037 | The comparison has the sign of the intended four-key order iff the priority subtraction fits in 64 bits |
| GroupOrder.WrappedPrioritiesCycle | web/dashboard.go:1017-1037 | Three priorities whose comparison is cyclic |
| GroupOrder.IntendedIsOrder | web/dashboard.go:1012-1039 | The intended order is a strict weak order, total up to ties on all four keys |
| GroupOrder.SmallPrioritiesFit | web/dashboard.go:1017-1037 | Priorities below 2^62 in magnitude never wrap |
| GroupOrder.SortLinkGroups | web/dashboard.go:1012-1039 | The result is the sorted list of the map's values for some order of ranging over the map, and is in order, key by key, where nothing wraps around |
| GroupOrder.SortedGroupsCorrect | web/dashboard.go:1012-1039 | Without wrap-around the result holds each value of the map once, with "first" before all else, "last" after all else, and within a class by ascending priority, then lower-cased display name, then lower-cased name |
| GroupOrder.BeforeIff | web/dashboard.go:1012-1039 | The comparison's order is that one, with each key written out and strings compared at their first difference |
| GroupOrder.EitherWayIffTied | web/dashboard.go:1012-1039 | Two groups may be listed either way iff they tie on all four keys |
| GroupOrder.SameSorted | web/dashboard.go:1012-1039 | Without wrap-around and ties, any two map orders give the same list |
| GroupOrder.DeterministicIffNoTies | web/dashboard.go:1012-1039 | Without wrap-around, the sorted list of one map is independent of that map's order iff no two groups tie on all four keys |
| Labels.ResolveLinkGroupName | web/dashboard.go:600-614 | The answer is blank, an exact key, some matching group, or the trimmed label, in that precedence |
| Labels.ResolvesIff | web/dashboard.go:600-614 | The possible answers in terms of folded strings: blank for a blank label, a key for itself, else any group whose key or trimmed display name folds to the same string, else the label itself |
| Labels.ResolveDeterministic | web/dashboard.go:600-614 | The answer is independent of the map's order for every label iff no trimmed label that is no key matches two groups |
| Labels.UnambiguousIff | web/dashboard.go:600-614 | No label matches two groups iff no two groups share a key or trimmed display name up to case |
| Labels.UncontestedIff | web/dashboard.go:600-614 | No trimmed label that is no key matches two groups iff no two groups have a spelling in common, up to case, that some non-key label can take |
| Labels.DecidedIff | web/dashboard.go:600-614 | Every such label has one place to land in iff no two groups that share such a spelling differ after trimming |
| Labels.ResolveIdempotent | web/dashboard.go:600-614 | Resolving an answer gives it back iff the answer has no outer whitespace or is the only group its trimming matches; only an existing key can have outer whitespace |
| Labels.EnsureUnambiguous | web/dashboard.go:600-614 | Creating the group a label resolved to keeps every label unambiguous |
| Labels.EnsureUncontested | web/dashboard.go:600-614 | Nor does it make any label that is no key match two groups |
| Labels.ResolveUnique | web/dashboard.go:600-614 | With labels uncontested there is only one possible answer |
| Collect.InitLinkGroups | web/dashboard.go:400-420 | The initial details, for every list of configured groups |
| Collect.InitialDetailsNamed | web/dashboard.go:400-420 | Each configured group is filed under its own trimmed, non-blank name |
| Collect.InitialDetailsExact | web/dashboard.go:400-420 | Which groups a configuration gives, and each one's whole record, the last one of a name winning |
| Collect.CollectStaticLinks | web/dashboard.go:422-440 | The maps end up as the placements of the links under groups their labels may resolve to, each at its own turn |
| Collect.StaticPlacedIff | web/dashboard.go:422-440 | When a configured link is placed, and every field of the link it becomes |
| Collect.StaticLabelExact | web/dashboard.go:424 | Its label is the trimmed linkGroup, or the trimmed group where that is blank |
| Collect.StaticKeepUnambiguous | web/dashboard.go:422-440 | If no label names two groups before, none does after any list of static links |
| Collect.StaticKeepTrimmed | web/dashboard.go:422-440 | Static links never add a group whose key is blank or has outer whitespace |
| Collect.StaticKeysUnique | web/dashboard.go:422-440 | With labels uncontested, the map's order has no influence on where any link lands |
| Collect.StaticDeterminedIff | web/dashboard.go:422-440 | Every list of static links lands in groups fixed by the configuration iff no trimmed label that is no key matches two of them |
| Collect.LandedMatches | web/dashboard.go:422-440 | The group a link landed in still matches its label at every later point |
| Collect.SameLabelSameGroup | web/dashboard.go:600-614 | Labels that differ only in case or outer whitespace land in one group |
| Sources.DescribeGroups | web/dashboard.go:481-508 | Every BookmarkGroup is described with its own metadata over the defaults, and the exact map of replicate flags |
| Sources.DescribedExact | web/dashboard.go:481-508 | Which groups there are afterwards, and each one's whole record: flag from the last item of its name, title and properties from the last item that has any |
| Sources.BookmarkPlacedIff | web/dashboard.go:510-535 | When a bookmark is placed, and every field of the link it becomes |
| Sources.CollectBookmarkGroups | web/dashboard.go:481-535 | Both list errors, and the exact maps after a successful run |
| Sources.BookmarkInherits | web/dashboard.go:523 | A reachable bookmark of a replicated group is replicated iff it says so or names the group without outer whitespace |
| Sources.PaddedBookmarkStaysHome | web/dashboard.go:523 | A bookmark that is shown in a replicated group and never exported |
| Sources.CollectResources | web/dashboard.go:616-645 | For any annotated kind: the exact maps, the fallback of each field, and which list errors are errors |
| Sources.ResourcePlacedIff | web/dashboard.go:79-98 | When a labelled resource is placed, and every field of the link it becomes, from its own annotations: it is replicated iff the annotation is there with the value "true" |
| Sources.CollectForecastleApps | web/dashboard.go:537-580 | The exact maps, with other instances' apps skipped and labels resolved in turn |
| Sources.AppPlacedIff | web/dashboard.go:537-580 | When an app is placed, and every field of the link it becomes |
| Sources.ForecastleKeysIff | web/dashboard.go:537-580 | The apps' possible groups, step by step over the changing maps, are the free choices of one answer per app over records that do not depend on earlier choices |
| Sources.AppsDeterminedIff | web/dashboard.go:537-580 | Every list of apps adds links fixed by the lists iff every trimmed label that is no key has at most one place to land in |
| Sources.PlaceTilesExact | web/dashboard.go:1041-1069 | Under each key exactly the tiles filed there, in order; a group is new iff a tile comes first, and then has the info-tile record; no link and no existing record changes |
| Sources.PickedTilesExact | web/dashboard.go:1041-1069 | The tiles filed under a key: those whose trimmed group, or resource name where it is blank, is the key, in order |
| Sources.CollectInfoTiles | web/dashboard.go:1041-1069 | The list error, and the exact maps after a successful run |
| Collection.CollectForeignLinks | web/dashboard.go:355-398 | Failing lists are skipped and leave no trace; the others place exactly their links |
| Collection.CollectUntilError | web/dashboard.go:160-215 | The run stops with an error iff some list it needs fails; otherwise it places exactly the links of every source |
| Collection.CollectLocal | web/dashboard.go:150-213 | The local run fails iff one of the lists that it needs, named one by one, fails, and else ends with the specified maps |
| Collection.LocalFailsIff | web/dashboard.go:150-213 | Which lists a run needs: those always read and Ingresses must be listed, of the others on offer one that is not found is no error, and IngressRoutes are read in one version |
| Kinds.LocalLinksByKind | web/dashboard.go:150-213 | Under each key: static links, bookmarks, apps, and then each of nine kinds, every one from its own list, in that order |
| Kinds.EachKindFromItsList | web/dashboard.go:170-213 | For each of the nine kinds, the collected links with that source are those of that kind's own list, once each and in order |
| Kinds.CollectedIff | web/dashboard.go:150-213 | A link is under a key iff some object in some list becomes it, field by field |
| Kinds.RecordExact | web/dashboard.go:150-213 | Which groups a collection ends with, and each one's whole record |
| Kinds.ForeignLinksByKind | web/dashboard.go:355-398 | Under each key of a foreign cluster: seven kinds, every one from its own list, then the apps, in that order |
| Kinds.ContributedIff | web/dashboard.go:308-398 | What a cluster contributes: the links its objects become, field by field, that are marked for replication |
| Collection.LocalBoardExact | web/dashboard.go:150-213 | Conservation: under each key sit exactly the collected links and tiles filed there, once each and in order |
| Collection.LocalBoardWellFormed | web/dashboard.go:150-213 | Every collection ends well formed, with no colon in any source word |
| Collection.LocalBoardEmptyKey | web/dashboard.go:150-213 | When BookmarkGroups have names, a group under the empty key has an empty display name |
| Collection.LocalBoardUnique | web/dashboard.go:150-213 | Where every label looked up has one answer, any two collections of the same lists give the same maps |
| Collection.LocalDetailsSame | web/dashboard.go:150-213 | Any two collections of the same lists leave the same group records, whatever labels resolve to |
| Collection.BoardDeterminedIff | web/dashboard.go:537-614 | With configured labels uncontested, the maps are determined for all lists of ForecastleApps iff the groups there are before them leave every label one place to land in |
| Merge.MergePeerExact | web/dashboard.go:266-302 | One peer's share: what each key gains, which keys appear, existing records untouched, new records from the peer |
| Merge.RemoteEntryExact | web/dashboard.go:268-292 | The record of a new group: the last one that the peer lists for it but for source and flag, or the default one |
| Merge.MergeRemoteLinks | web/dashboard.go:263-302 | Each key has its local links, then each peer's in turn; tiles are untouched |
| Merge.MergeRemoteDetails | web/dashboard.go:263-302 | Local records win; a key is new iff some peer carries it, and then has the record of the first peer that does |
| Merge.MergeRemoteWellFormed | web/dashboard.go:263-302 | The merge keeps every group filed under its own name |
| Merge.MergeConfluence | web/dashboard.go:263-302 | Any two orders of peers give the same keys, the same links per key as multisets, and the same local details |
| Merge.MergeRemoteData | web/dashboard.go:263-302 | The loops over a copy of the cache's outer map compute that merge and leave every cached slice as it was |
| Fleet.MergeFleetLinks | web/dashboard.go:308-350 | Each key has its earlier links, then each cluster's replicable links in order |
| Fleet.MergeFleetDetails | web/dashboard.go:308-350 | Earlier records win; a key is new iff some cluster has links to replicate under it, and then has the record of the first such cluster |
| Fleet.FleetIsolation | web/dashboard.go:308-350 | Whatever one cluster answers, the links of all others are the same |
| Fleet.DownClusterSilent | web/dashboard.go:355-398 | A cluster on which every list fails contributes nothing |
| Fleet.ForeignLinksMarked | web/dashboard.go:327-350 | Every merged link was marked for replication at its cluster and carries "foreign:", the endpoint and its original source |
| Fleet.CollectAndMerge | web/dashboard.go:308-350 | One cluster: collected into maps of its own, then copied, for every map order |
| Fleet.MergeForeignClusterData | web/dashboard.go:308-350 | The loop over the clusters computes that merge |
| FleetLookups.ForeignKeysIff | web/dashboard.go:355-398 | The runs over a cluster's lists are exactly the free choices of one answer per app |
| FleetLookups.ForeignBoardUnique | web/dashboard.go:355-398 | Where a cluster's labels are decided, any two collections of its lists give the same maps |
| FleetLookups.ForeignRecord | web/dashboard.go:327-343 | A group that a cluster brings has the default record, with the cluster in its source |
| FleetLookups.ForeignDeterminedIff | web/dashboard.go:355-398 | A cluster's maps are determined by its lists, for all lists of ForecastleApps, iff the groups there are before the apps leave every label one place to land in |
| FleetLookups.SupplyBounds | web/dashboard.go:308-350 | Every run over a cluster supplies each group that it must and none but those that it may, both told from its lists |
| FleetLookups.SettledIff | web/dashboard.go:308-350 | Under which endpoint the fleet supplies a group, if at all, is the same for all label lookups iff no cluster that may supply it comes before all that must, unless it has the endpoint of the first that must |
| Dashboard.RenderGroups | web/dashboard.go:232-260 | The loop computes the specified response for the order the map was ranged over in |
| Dashboard.RenderExact | web/dashboard.go:232-260 | Under each key there is at most one group, with the visible links and the tiles; it is absent iff unknown or dropped |
| Dashboard.RenderShown | web/dashboard.go:232-260 | A group appears iff it is known and has a visible link, a tile, or is exported and marked for replication; it appears once, under its display name, with links and tiles complete and sorted by name |
| Dashboard.RenderConservesTiles | web/dashboard.go:232-260 | For every key the response holds exactly the tiles filed there, each as often as it was filed, sorted by name |
| Dashboard.ShownInOrder | web/dashboard.go:232-260 | The groups come in the order of their records |
| Dashboard.RenderConserves | web/dashboard.go:232-260 | For every key the response lists exactly the visible links filed there, each as often as it was collected |
| Aggregator.MergedWellFormed | web/dashboard.go:215-220 | Both merges keep the maps well formed |
| Aggregator.MergedLinks | web/dashboard.go:215-220 | Under each key: own links, then peers', then clusters' |
| Aggregator.MergedDetails | web/dashboard.go:215-220 | Own records win; every other group has the record of the first peer that carries it, or else of the first cluster that supplies it |
| Aggregator.ResponseConserves | web/dashboard.go:150-260 | Conservation over the whole run: the response lists exactly the user's visible part of all three shares, sorted by name |
| Requests.RequestFailsIff | web/dashboard.go:150-213 | A request fails iff one of the lists that it needs, named one by one, fails |
| Requests.SeenIff | web/dashboard.go:150-260 | The links of an answer to a user, under any key: exactly those that some object in the node's lists becomes, or a peer sent, or a cluster contributes, and that the user may see |
| Requests.ExportedIff | web/dashboard.go:150-260 | The links of an answer to a peer: exactly those of the node's own objects that are marked for replication |
| Requests.TilesConserved | web/dashboard.go:150-260 | Under any key, the answer holds exactly the tiles filed there, each once and sorted by name; for peers, those marked for replication |
| Requests.UserShownIff | web/dashboard.go:232-260 | A user is shown a group iff the node has a visible link or a tile there |
| Requests.PeerShownIff | web/dashboard.go:221-260 | A peer is sent a group iff it has a replicable link or tile of the node's own, or the last BookmarkGroup of its name is marked for replication |
| Requests.AnswerInOrder | web/dashboard.go:232-260 | Without wrap-around the records of an answer are in order, key by key; links and tiles are sorted by name, and the groups come in the order of their records |
| Aggregator.ExportIgnoresSurroundings | web/dashboard.go:215-230 | What an export may be does not depend on the peer cache or the fleet |
| Aggregator.CollectDashboard | web/dashboard.go:150-260 | The method yields a specified result, or the error, and leaves every cached slice as it was; with localOnly its result is one that any peer cache and any fleet would have allowed |
| Aggregator.Prepare | web/dashboard.go:215-230 | The merges happen only for users, the replication filter only for peers |
| Aggregator.KeepReplicatedLinks | web/dashboard.go:223-226 | Filtering in place under every key, for every map order |
| ListingOrder.ListingDeterminedIff | README.md:143 | Without wrap-around, the listing of the merged groups is the same for all orders of the peers and of the groups and all label lookups at the clusters iff no group the node does not have is carried by two peers, every group only clusters can supply is settled, and no two merged groups tie |
| ListingOrder.ResponsesAgreeIff | README.md:143 | The same for the group records of every two responses to a user over one local collection |
| ListingOrder.GroupsFollowListing | web/dashboard.go:232-260 | Where the clusters' collections come out alike, responses with the same group records show the same groups in the same order, whatever the order of the peers |
| ListingOrder.RequestsAgreeIff | README.md:143 | The same for every two whole requests of a user, each with its own local collection, whatever the node's labels resolve to |
| ListingOrder.RequestsShowAlike | web/dashboard.go:150-260 | Where labels are decided at the node and at every cluster, requests that list the group records alike also show the same groups in the same order |
| ListingOrder.LookupsMatterNot | web/dashboard.go:150-350 | Where labels are decided at the node and at every cluster, any two requests that visit the peers in one order merge the same maps |
| ListingOrder.DecidedSettled | web/dashboard.go:308-350 | Clusters whose labels are decided leave no group unsettled |
| ListingOrder.PeersDecideOrder | web/dashboard.go:263-302 | Two peers with one group of different priorities: no ties and no wrap-around, yet the order of the peers decides where the group is listed |
| ListingOrder.ClusterDecidesListing | web/dashboard.go:308-350 | One cluster with two groups that are not replicated and one replicated app whose label matches both: no peers, no ties and no wrap-around, yet the cluster's map order decides which group is listed at all |
| ListingOrder.CaseTwinsTie | web/dashboard.go:1012-1039 | Two configured groups whose names differ in case alone tie, and the map's order decides |
| Export.ExportExact | web/sync.go:168-183 | An export holds, for every key, exactly the replicable links, with the flag erased |
| Export.EraseExact | web/dashboard.go:100-148 | Transport loses the replication flags of records, links and tiles, and nothing else |
| Export.ExportedFrom | web/sync.go:168-183 | Every exported group is one of the node's own, and every link and tile in it a replicable one filed there |
| Visibility.PeerShare | web/dashboard.go:263-302 | What a peer's export adds to a key: its replicable links, once each, with only flag and source rewritten |
| Visibility.AllLinksBySource | web/dashboard.go:263-350 | The source tells own links and each peer's links apart after the merges |
| Visibility.VisibilityPreserved | web/dashboard.go:980-1010 | A user sees of a peer exactly the peer's replicable links visible to that user, in the peer's order, and the node's own links as if there were no peers |
| Rounds.TriedExact | web/sync.go:65-82 | What a reader finds in the middle of a round: new responses for the peers done with, old entries for all others |
| Rounds.RoundExact | web/sync.go:65-92 | After a round only discovered peers are cached; a success has its new response, a failure exactly its old entry |
| Sync.SyncClient.DiscoverPeers | web/sync.go:94-118 | Configured and looked-up URLs, trimmed, without blanks and duplicates, first occurrence first |
| Sync.SyncClient.FetchAll | web/sync.go:65-92 | The cache after the round, and at each point where the lock is given up |
| Sync.SyncClient.EvictUndiscovered | web/sync.go:83-92 | Deleting while ranging keeps exactly the discovered peers' entries, for every map order |
| Sync.SyncClient.GetRemoteData | web/sync.go:158-164 | A copy of the outer map, sharing the slices |
| Network.InvRun | web/sync.go:51-92 | In every reachable state each cached or fetched response is an export of a store its peer once had |
| Network.OneHop | web/sync.go:166-183 | In every reachable state of any network, each cached link and tile is what an object in the peer's own lists becomes, field by field, filed under that group and marked for replication; so nothing travels two hops and nothing unmarked leaves its node |
| Network.MarkedAtHome | web/dashboard.go:79-98 | In every reachable state, a cached link of a labelled kind stems from a resource of that kind in a list of the peer's own that is annotated "true" |
| Network.ReaderSeesPrefix | web/sync.go:158-164 | In every reachable state a reader sees the old cache updated by a prefix of the round |
| Convergence.Converges | web/sync.go:65-92 | One complete successful round while stores are quiet leaves a current export for exactly the discovered peers |
| Convergence.StaysCurrent | web/sync.go:51-92 | The cache stays current through any further rounds, failures and evictions while stores are quiet |
| Convergence.OneBoard | web/dashboard.go:150-213 | Where labels are decided, a quiet store gives the same maps at every request |
| Convergence.LaterRoundsChangeNothing | web/sync.go:65-92 | In a quiet period, with labels decided and no ties or wrap-around at the peer, an entry cached at two moments is the same at both |
| Convergence.UndecidedStoreWavers | web/dashboard.go:600-614 | Where labels are not decided, some ForecastleApps make two exports of one quiet store hold different numbers of links under a group |
| Convergence.ExportUnder | web/dashboard.go:221-260 | For each key, the one group and the one group record that an export holds, as functions of the collection |
| Convergence.ExportsAlike | web/dashboard.go:221-260 | Two exports of one collection hold the same groups, record for record |
| Convergence.ExportsEqual | web/dashboard.go:221-260 | Without ties and wrap-around they are equal |
| Convergence.ConvergedView | web/dashboard.go:263-302 | A converged node shows each visible replicable link of a peer's collection exactly once, and each own link once, under every key |
| Convergence.DecidedView | web/dashboard.go:263-302 | Where labels are decided, those collections are the ones that any request would make |
| Notifier.NoLostNotification | web/notifier.go:49-80 | In every interleaving, after a Notify the channel is full, or the signal is pending, or a tick has consumed it since it was received |
| Notifier.QuietMeansBroadcast | web/notifier.go:49-80 | Once all is quiet, every notification has been answered by a tick, which broadcasts if it finds clients |
| Notifier.RateLimited | web/notifier.go:65-93 | Broadcasts are at most as many as consuming ticks, those at most as many as ticks, and with those still due at most as many as notifications |
| Notifier.BroadcastsCounted | web/notifier.go:65-93 | There are as many broadcasts as ticks that consume a signal while clients are connected |
| Notifier.MeasureDrops | web/notifier.go:65-93 | Without new notifications every receive and consuming tick brings the loop closer to quiet, from at most three |
| Notifier.DashboardNotifier.Notify | web/notifier.go:49-54 | The whole new state of the non-blocking send |
| Notifier.DashboardNotifier.Start | web/notifier.go:65-93 | Under every schedule the loop follows the state machine, starts exactly its broadcasts and pings, and closes every client when the context is done |
| Registry.BroadcastContract | web/notifier.go:116-146 | After a broadcast, under any interleaving: each client of the snapshot was written to, or is closed and off the set unless registered again; all others are where the handlers alone would have them |
| Registry.ClientSet.BroadcastPing | web/notifier.go:116-136 | The loop, with handlers running between its steps, is a run of that state machine to the end of the snapshot |
| Registry.ClientSet.CloseAll | web/notifier.go:107-114 | Every client is closed and the set is left empty |
| Registry.ClientSet.TakeSnapshot | web/notifier.go:138-146 | The snapshot lists each client once |
| Base64.RoundTrip | web/auth.go:392-398 | Decoding an encoding gives the bytes back, and no encoding contains a dot (sections 3.2 and 5 of RFC 4648) |
| Base64.EncodeBits | web/auth.go:392-398 | Bit for bit, an encoding carries the bytes in order, and is as short as that allows |
| Base64.EncodedExact | web/auth.go:392-398 | The alphabet of section 5 of RFC 4648 |
| Base64.DecodeIff | web/auth.go:400-416 | Exactly which strings decode |
| Base64.EncodeInjective | web/auth.go:392-398 | No two payloads have the same encoding |
| GroupClaims.NormalizedGroups | web/auth.go:130-162 | The groups of each form of claim: trimmed, not blank, first of equal ones, others ignored |
| GroupClaims.GroupsOf | web/auth.go:130-162 | Groups are distinct, trimmed and not blank |
| Text.NormalizedInOrder | web/auth.go:130-162 | Groups keep the order in which they first occur |
| GroupClaims.ClaimFormsAgree | web/auth.go:148-161 | A list of strings, a JSON array and a comma-separated string name the same groups |
| GroupClaims.OtherClaimsSkipped | web/auth.go:148-154 | Members of an array that are no strings are passed over |
| Session.SignedVerifies | web/auth.go:392-416 | For all payloads, secrets and codes, a signed value verifies and yields its payload |
| Session.VerifiesIffAuthentic | web/auth.go:400-416 | A value verifies with a payload iff it is an encoding of it, a dot, and an encoding of the code of the characters before the dot |
| Session.GroupsSurviveTransport | web/auth.go:263-266 | Groups recomputed from claims that went through JSON are the original ones |
| Session.LoginGroups | web/auth.go:116-128 | A session has the groups that the "groups" claim names |
| Session.SessionRoundTrip | web/auth.go:247-268 | A session is read back with exactly its groups until 24 hours after the second of its issue, and refused afterwards |
| Session.ReadIffAuthentic | web/auth.go:247-268 | Exactly when a session is read and which one: from an authentic cookie whose payload has not expired, with the payload's groups, or those of its "groups" claim where it has none |
| Reachability.ReachabilityCache.IssuerAndDiscoveryReachable | web/auth.go:427-449 | A hit returns the cached value and changes nothing; a miss returns and stores the call's own probe, over whatever finished in between |
| Reachability.ProbesTruthful | web/auth.go:427-449 | In every interleaving each finished probe stands for one call: its URLs, the time that it read, and a result that is good iff both URLs answered |
| Reachability.BoundedStaleness | web/auth.go:427-449 | In every interleaving an answer about a configured issuer is the value of one finished probe of the same URLs that started at most 30 s before the call |
| Reachability.ServedIffLastFresh | web/auth.go:427-449 | A call is served from the cache iff the probe that finished last was of its URLs and started at most 30 s before |
| Reachability.OlderProbeMayWin | web/auth.go:427-449 | A run in which the answer contradicts a more recent probe |
| Reachability.LatestServedIff | web/auth.go:427-449 | A call served from the cache gets the most recently started finished probe of its URLs iff no call about them that read a later time than the one to finish last finished before it |
| Reachability.OvertakerEntersLater | web/auth.go:427-449 | Where calls read the clock in the order they enter, the overtaking call entered later |
| Reachability.LatestServedAlone | web/auth.go:427-449 | Without overlaps it always does |
| Reachability.ProbesRateLimited | web/auth.go:427-449 | Without overlaps, probes of an issuer start more than 30 s apart |
| ClusterList.SplitCommaFlag | cmd/main.go:211-219 | The trimmed, non-blank parts, in order |
| ClusterList.ParseClusterList | internal/foreigncluster/config.go:50-75 | Fails iff some non-blank entry lacks "=" or has nothing on one side of it, and otherwise gives the configuration of each non-blank entry in order |
| ClusterList.ConfigExact | internal/foreigncluster/config.go:50-75 | What an entry denotes, with whitespace anywhere around its two parts |
| ClusterList.CredentialsExact | internal/foreigncluster/config.go:65-72 | Azure's method with or without a scope, the default scope, and kubeconfig contexts |
| ClusterList.ParsedWellFormed | internal/foreigncluster/config.go:50-75 | Everything parsed is well formed; there is a scope iff the method is Azure's, that is, iff there is no kubeconfig context |
| ClusterList.WellFormedIffDenoted | internal/foreigncluster/config.go:50-75 | The well-formed configurations are exactly those that some entry denotes |
| ClusterList.FlagRoundTrip | internal/foreigncluster/config.go:43-75 | Printing any list of well-formed configurations without commas and reading it back gives the list |
| ClusterList.FlagStable | cmd/main.go:211-219 | Reading any accepted flag, printing it and reading it again changes nothing |
| FleetManager.ClusterHandle.Connect | internal/foreigncluster/manager.go:158-197 | Succeeds iff every step does, and a failure changes no field |
| FleetManager.Manager.ConnectAll | internal/foreigncluster/manager.go:104-120 | The published handles are new, distinct, one per configuration in order, each with the outcome of its attempt |
| FleetManager.Manager.ReconnectDown | internal/foreigncluster/manager.go:122-137 | Ready handles are untouched, the others take the outcome of a new attempt |
| FleetManager.Manager.ActiveClusters | internal/foreigncluster/manager.go:63-77 | The list of the ready handles |
| FleetManager.Manager.Start | internal/foreigncluster/manager.go:86-102 | After any number of ticks the handles are the specified outcome of all rounds of attempts |
| FleetManager.HandleExact | internal/foreigncluster/manager.go:104-137 | After any rounds handle i is for configuration i and has the clients of its first successful attempt, or is as it was made |
| FleetManager.ReadyStays | internal/foreigncluster/manager.go:122-137 | Ready only goes from false to true, and a ready handle keeps its clients |
| FleetManager.ActiveExact | internal/foreigncluster/manager.go:63-77 | A snapshot lists exactly the ready handles, in the order of the configurations |
| FleetManager.SnapshotsGrow | internal/foreigncluster/manager.go:63-77 | Every entry names a configured cluster that was reached, has both clients, and is in every later snapshot |

## Left out

- Kubernetes clients, informers, API discovery, REST configuration, TLS and certificate loading: foreign calls; lists, availability and connection steps are inputs.
- HTTP handlers, the OIDC proxy, the user-info request and DNS SRV lookup: network I/O; their outcomes are inputs. Request and write deadlines are not modelled.
- HMAC-SHA-256: a function parameter; the theorems hold for every such function. The JSON codec is assumed faithful except for the flags it omits, the empty link group, and the Go type of a list.
- The rules by which each resource kind derives a URL from its spec, and the resolution of urlFrom sources: a resource carries the URL its kind's rule found, an app the URL its source gave.
- The nine annotated-resource collectors: one generic collector, told apart by source word and by whether a missing list is an error.
- The list of discovery probes behind resource availability, and the log output it causes.
- Case folding and lower-casing of Unicode: parameters. Strings are sequences of Unicode scalar values; cookie values are ASCII.
- GroupOrder.SortLinkGroups: the library's stable sort is the function `Sequences.Sort`. For a comparison that wraps around, and so is no order, the library's result may differ from that function's.
- In-place sharing of slices outside the peer cache: the maps of a collection hold sequences.
- Notifier.DashboardNotifier.Start: the schedule says whether a tick finds clients connected; what handlers and the writes of a broadcast or ping do to the client set meanwhile is modelled in `Registry`.
- The periodic permission check of the fleet manager: it only logs.
- The user-info endpoint cache, flag resolution, the configuration file loader: first-match code.
- React front end, templates, icons, CRD types, deepcopy code, reconcilers, webhooks, the Azure token cache, leader election.
