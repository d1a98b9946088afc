/**
 Polling the peers. fetchAll writes the cache one peer at a time, giving up the
 lock in between, so readers may see any state from before to after the round.
 */
module Rounds {
  import opened Wrappers
  import opened Text

  /** The cache once the first |outcomes| peers of a round have been tried. */
  function Tried<V>(cache: map<string, V>, peers: seq<string>, outcomes: seq<Option<V>>): map<string, V>
    requires |outcomes| <= |peers|
  {
    if outcomes == [] then cache else
      var i := |outcomes| - 1;
      var before := Tried(cache, peers, outcomes[..i]);
      match outcomes[i]
      case None => before
      case Some(resp) => before[peers[i] := resp]
  }

  lemma TriedSnoc<V>(cache: map<string, V>, peers: seq<string>, outcomes: seq<Option<V>>, outcome: Option<V>)
    requires |outcomes| < |peers|
    ensures var before := Tried(cache, peers, outcomes);
      Tried(cache, peers, outcomes + [outcome])
        == if outcome.Some? then before[peers[|outcomes|] := outcome.value] else before
  {
    assert (outcomes + [outcome])[..|outcomes|] == outcomes;
  }

  function Evicted<V>(cache: map<string, V>, peers: seq<string>): map<string, V> {
    map p | p in cache && p in peers :: cache[p]
  }

  /** What a reader finds for the i-th peer, and for any other URL, in the middle
      of a round: the old cache updated by a prefix of the round's writes. */
  lemma {:induction false} TriedExact<V(!new)>(cache: map<string, V>, peers: seq<string>, outcomes: seq<Option<V>>)
    requires |outcomes| <= |peers| && NoDuplicates(peers)
    ensures var now := Tried(cache, peers, outcomes);
      && (forall i :: 0 <= i < |outcomes| && outcomes[i].Some? ==> peers[i] in now && now[peers[i]] == outcomes[i].value)
      && (forall i :: 0 <= i < |peers| && (i >= |outcomes| || outcomes[i].None?) ==> SameEntry(now, cache, peers[i]))
      && (forall p :: p !in peers ==> SameEntry(now, cache, p))
  {
    if outcomes != [] {
      var i := |outcomes| - 1;
      TriedExact(cache, peers, outcomes[..i]);
      assert forall j :: 0 <= j < i ==> outcomes[..i][j] == outcomes[j];
      assert peers[i] in peers;
    }
  }

  ghost predicate SameEntry<V>(now: map<string, V>, before: map<string, V>, p: string) {
    (p in now <==> p in before) && (p in now ==> now[p] == before[p])
  }

  /** The contract of a whole round: the domain lies within the discovered peers,
      a successful peer has its new response, a failed one keeps exactly what it
      had, and an undiscovered one is gone. */
  lemma RoundExact<V(!new)>(cache: map<string, V>, peers: seq<string>, outcomes: seq<Option<V>>)
    requires |outcomes| == |peers| && NoDuplicates(peers)
    ensures var after := Evicted(Tried(cache, peers, outcomes), peers);
      && (forall p :: p in after ==> p in peers)
      && (forall i :: 0 <= i < |peers| && outcomes[i].Some? ==> peers[i] in after && after[peers[i]] == outcomes[i].value)
      && (forall i :: 0 <= i < |peers| && outcomes[i].None? ==> SameEntry(after, cache, peers[i]))
  {
    hide Tried;
    TriedExact(cache, peers, outcomes);
    assert forall i :: 0 <= i < |peers| ==> peers[i] in peers;
  }
}

module Sync {
  import opened Wrappers
  import opened Text
  import opened PeerCache
  import opened Rounds

  function Flatten(lists: seq<seq<string>>): seq<string> {
    if lists == [] then [] else Flatten(lists[..|lists| - 1]) + lists[|lists| - 1]
  }

  lemma FlattenSnoc(first: seq<string>, lists: seq<seq<string>>, i: nat)
    requires i < |lists|
    ensures first + Flatten(lists[..i + 1]) == first + Flatten(lists[..i]) + lists[i]
  {
    assert lists[..i + 1][..i] == lists[..i];
  }

  class SyncClient {
    const urls: seq<string>
    const srvRecords: seq<string>
    var cache: Cache

    constructor (urls: seq<string>, srvRecords: seq<string>)
      ensures this.urls == urls && this.srvRecords == srvRecords && cache == map[]
    {
      this.urls, this.srvRecords, cache := urls, srvRecords, map[];
    }

    /** discoverPeers; lookups[i] is what the DNS answers for srvRecords[i]. */
    method DiscoverPeers(lookups: seq<seq<string>>) returns (peers: seq<string>)
      requires |lookups| == |srvRecords|
      ensures peers == Normalized(urls + Flatten(lookups))
    {
      var seen: set<string> := {};
      peers := [];
      assert Normalized([]) == [];
      hide Normalized, NoDuplicates, Trimmed, TrimSpace;
      seen, peers := AddAll([], urls, seen, peers);
      assert [] + urls == urls + [] == urls && Flatten(lookups[..0]) == [];
      for i := 0 to |lookups|
        invariant peers == Normalized(urls + Flatten(lookups[..i]))
        invariant forall p :: p in seen <==> p in peers
      {
        FlattenSnoc(urls, lookups, i);
        seen, peers := AddAll(urls + Flatten(lookups[..i]), lookups[i], seen, peers);
      }
      assert lookups[..|lookups|] == lookups;
    }

    /** The closure `add`, applied to a list, after `before` has been added. */
    static method AddAll(ghost before: seq<string>, list: seq<string>, seen: set<string>, peers: seq<string>)
      returns (seen': set<string>, peers': seq<string>)
      requires peers == Normalized(before) && forall p :: p in seen <==> p in peers
      ensures peers' == Normalized(before + list) && forall p :: p in seen' <==> p in peers'
    {
      hide Normalized;
      seen', peers' := seen, peers;
      assert before + list[..0] == before;
      for i := 0 to |list|
        invariant peers' == Normalized(before + list[..i])
        invariant forall p :: p in seen' <==> p in peers'
      {
        NormalizedSnoc(before + list[..i], list[i]);
        assert before + list[..i] + [list[i]] == before + list[..i + 1];
        var u := TrimSpace(list[i]);
        if u == "" {
          continue;
        }
        if u !in seen' {
          seen' := seen' + {u};
          peers' := peers' + [u];
        }
      }
      assert list[..|list|] == list;
    }

    /** One round. fetch(p) is what the request to p yields this time; history[k]
        is the cache as it stands when the lock is given up for the k-th time. */
    method FetchAll(lookups: seq<seq<string>>, fetch: string -> Option<CachedResponse>)
      returns (ghost peers: seq<string>, ghost outcomes: seq<Option<CachedResponse>>, ghost history: seq<Cache>)
      requires |lookups| == |srvRecords|
      modifies this`cache
      ensures peers == Normalized(urls + Flatten(lookups))
      ensures |outcomes| == |peers| && forall i :: 0 <= i < |peers| ==> outcomes[i] == fetch(peers[i])
      ensures |history| == |peers| && forall k :: 0 <= k < |history| ==> history[k] == Tried(old(cache), peers, outcomes[..k + 1])
      ensures cache == Evicted(Tried(old(cache), peers, outcomes), peers)
    {
      hide Tried, Normalized;
      var discovered := DiscoverPeers(lookups);
      peers := discovered;
      var peerSet: set<string> := {};
      for i := 0 to |discovered|
        invariant forall p :: p in peerSet <==> p in discovered[..i]
      {
        assert discovered[..i + 1] == discovered[..i] + [discovered[i]];
        peerSet := peerSet + {discovered[i]};
      }
      assert discovered[..|discovered|] == discovered;
      outcomes, history := FetchPeers(discovered, fetch);
      assert outcomes[..|outcomes|] == outcomes;
      EvictUndiscovered(discovered, peerSet);
    }

    method FetchPeers(peers: seq<string>, fetch: string -> Option<CachedResponse>)
      returns (ghost outcomes: seq<Option<CachedResponse>>, ghost history: seq<Cache>)
      modifies this`cache
      ensures |outcomes| == |peers| && forall i :: 0 <= i < |peers| ==> outcomes[i] == fetch(peers[i])
      ensures |history| == |peers| && forall k :: 0 <= k < |history| ==> history[k] == Tried(old(cache), peers, outcomes[..k + 1])
      ensures cache == Tried(old(cache), peers, outcomes)
    {
      outcomes, history := [], [];
      assert Tried(cache, peers, []) == cache;
      hide Tried;
      ghost var start := cache;
      for i := 0 to |peers|
        invariant |outcomes| == |history| == i
        invariant forall j :: 0 <= j < i ==> outcomes[j] == fetch(peers[j])
        invariant forall k :: 0 <= k < i ==> history[k] == Tried(start, peers, outcomes[..k + 1])
        invariant cache == Tried(start, peers, outcomes)
      {
        var peer := peers[i];
        var resp := fetch(peer);
        TriedSnoc(start, peers, outcomes, resp);
        if resp.Some? {
          cache := cache[peer := resp.value];
        }
        ghost var more := outcomes + [resp];
        assert more[..i + 1] == more;
        forall k | 0 <= k < i ensures history[k] == Tried(start, peers, more[..k + 1]) {
          assert more[..k + 1] == outcomes[..k + 1];
        }
        outcomes, history := more, history + [cache];
      }
    }

    /** The second critical section: one range over the cache, deleting. */
    method EvictUndiscovered(ghost peers: seq<string>, peerSet: set<string>)
      requires forall p :: p in peerSet <==> p in peers
      modifies this`cache
      ensures cache == Evicted(old(cache), peers)
    {
      var unseen := cache.Keys;
      while unseen != {}
        invariant unseen <= cache.Keys <= old(cache).Keys
        invariant forall p :: p in old(cache) ==> (p in cache <==> p in unseen || p in peers)
        invariant forall p :: p in cache ==> cache[p] == old(cache)[p]
        decreases unseen
      {
        var peer :| peer in unseen;
        if peer !in peerSet {
          cache := cache - {peer};
        }
        unseen := unseen - {peer};
      }
    }

    /** GetRemoteData: a copy of the outer map. */
    method GetRemoteData() returns (result: Cache)
      ensures result == cache
    {
      result := cache;
    }
  }
}
