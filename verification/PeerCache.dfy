/**
 What a node caches of its peers, in shared memory: the responses' link slices are
 arrays, which copies of the cache's outer map go on sharing.
 */
module PeerCache {
  import opened Boards

  /** Responses by peer URL, as values. */
  type Remote = map<string, Response>

  /** A cached response: GetRemoteData copies the outer map only, so the link slices
      are the cache's own. */
  datatype CachedGroup = CachedGroup(name: string, linkGroup: string, links: array<Link>, tiles: seq<Tile>, source: string)
  datatype CachedResponse = CachedResponse(linkGroups: seq<LinkGroup>, groups: seq<CachedGroup>)

  type Cache = map<string, CachedResponse>

  ghost function Slices(r: CachedResponse): set<array<Link>> {
    set i | 0 <= i < |r.groups| :: r.groups[i].links
  }

  ghost function CacheSlices(cache: Cache): set<array<Link>> {
    set u, i | u in cache && 0 <= i < |cache[u].groups| :: cache[u].groups[i].links
  }

  ghost function SeenGroup(g: CachedGroup): Group
    reads g.links
  {
    Group(g.name, g.linkGroup, g.links[..], g.tiles, g.source)
  }

  ghost function SeenResponse(r: CachedResponse): Response
    reads Slices(r)
  {
    Response(r.linkGroups, seq(|r.groups|, i requires 0 <= i < |r.groups| reads Slices(r) => SeenGroup(r.groups[i])))
  }

  ghost function SeenCache(cache: Cache): (remote: Remote)
    reads CacheSlices(cache)
    ensures remote.Keys == cache.Keys
  {
    map u | u in cache :: SeenResponse(cache[u])
  }

  twostate lemma SlicesFrame(cache: Cache)
    requires forall a :: a in CacheSlices(cache) ==> unchanged(a)
    ensures SeenCache(cache) == old(SeenCache(cache))
  {
    forall u | u in cache ensures SeenResponse(cache[u]) == old(SeenResponse(cache[u])) {
      assert forall i :: 0 <= i < |cache[u].groups| ==> cache[u].groups[i].links in CacheSlices(cache);
      assert forall i :: 0 <= i < |cache[u].groups| ==> cache[u].groups[i].links[..] == old(cache[u].groups[i].links[..]);
    }
  }
}
