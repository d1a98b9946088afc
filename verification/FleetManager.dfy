/**
 The connections to foreign clusters (internal/foreigncluster/manager.go): connectAll
 publishes one handle per configuration, reconnectDown retries the handles that are
 not ready, and ActiveClusters takes snapshots in between. Both writers hold the lock
 for everything a reader can see of them, so a snapshot falls between two rounds.
 */
module FleetManager {
  import opened ClusterList
  import opened Wrappers

  /** Stands for an API client of either kind. */
  type Client = nat

  /** What the five fallible steps of one connect call come to. */
  datatype Attempt = Attempt(restConfig: bool, httpClient: bool, transportSet: bool, mapper: bool,
                             client: Option<Client>, discovery: Option<Client>)

  predicate Succeeds(a: Attempt) {
    a.restConfig && (a.httpClient || a.transportSet) && a.mapper && a.client.Some? && a.discovery.Some?
  }

  /** The fields of a handle, as a value. */
  datatype Slot = Slot(cfg: ClusterConfig, client: Option<Client>, discovery: Option<Client>, ready: bool)

  function Down(cfg: ClusterConfig): Slot {
    Slot(cfg, None, None, false)
  }

  function RetrySlot(slot: Slot, a: Attempt): Slot {
    if !slot.ready && Succeeds(a) then Slot(slot.cfg, a.client, a.discovery, true) else slot
  }

  /** One round of attempts, one for each handle; those for ready handles are not made. */
  function Retry(slots: seq<Slot>, attempts: seq<Attempt>): (r: seq<Slot>)
    requires |slots| == |attempts|
    ensures |r| == |slots|
  {
    seq(|slots|, i requires 0 <= i < |slots| => RetrySlot(slots[i], attempts[i]))
  }

  function AllDown(configs: seq<ClusterConfig>): (r: seq<Slot>)
    ensures |r| == |configs|
  {
    seq(|configs|, i requires 0 <= i < |configs| => Down(configs[i]))
  }

  datatype ClusterInfo = ClusterInfo(name: string, client: Option<Client>, discovery: Option<Client>)

  function Info(slot: Slot): ClusterInfo {
    ClusterInfo(slot.cfg.endpoint, slot.client, slot.discovery)
  }

  /** What a snapshot of these handles lists. */
  function Active(slots: seq<Slot>): seq<ClusterInfo> {
    if slots == [] then [] else
      var n := |slots| - 1;
      Active(slots[..n]) + if slots[n].ready then [Info(slots[n])] else []
  }

  ghost predicate Fits(configs: seq<ClusterConfig>, rounds: seq<seq<Attempt>>) {
    forall r :: 0 <= r < |rounds| ==> |rounds[r]| == |configs|
  }

  /** Start: connectAll for the first round, reconnectDown for the others. */
  function AfterRounds(configs: seq<ClusterConfig>, rounds: seq<seq<Attempt>>): (slots: seq<Slot>)
    requires Fits(configs, rounds)
    ensures |slots| == if rounds == [] then 0 else |configs|
  {
    if rounds == [] then [] else
      var n := |rounds| - 1;
      Retry(if n == 0 then AllDown(configs) else AfterRounds(configs, rounds[..n]), rounds[n])
  }

  // ------------------------------------------------------------------- the objects

  class ClusterHandle {
    const cfg: ClusterConfig
    var k8sClient: Option<Client>
    var discovery: Option<Client>
    var ready: bool

    constructor (cfg: ClusterConfig)
      ensures Value() == Down(cfg)
    {
      this.cfg := cfg;
      k8sClient, discovery, ready := None, None, false;
    }

    function Value(): Slot
      reads this
    {
      Slot(cfg, k8sClient, discovery, ready)
    }

    /** clusterHandle.connect: no field changes before the last step has succeeded. */
    method Connect(a: Attempt) returns (ok: bool)
      modifies this
      ensures ok <==> a.restConfig && (a.httpClient || a.transportSet) && a.mapper && a.client.Some? && a.discovery.Some?
      ensures Value() == if ok then old(Value()).(client := a.client, discovery := a.discovery) else old(Value())
    {
      if !a.restConfig {
        return false;
      }
      if !a.httpClient && !a.transportSet {
        return false;
      }
      if !a.mapper {
        return false;
      }
      if a.client.None? {
        return false;
      }
      if a.discovery.None? {
        return false;
      }
      k8sClient := a.client;
      discovery := a.discovery;
      ok := true;
    }

    /** The body of the loop in reconnectDown. */
    method Reconnect(a: Attempt)
      modifies this
      ensures Value() == RetrySlot(old(Value()), a)
    {
      if ready {
        return;
      }
      var ok := Connect(a);
      if ok {
        ready := true;
      }
    }
  }

  function Values(handles: seq<ClusterHandle>): (r: seq<Slot>)
    reads handles
    ensures |r| == |handles|
  {
    seq(|handles|, i requires 0 <= i < |handles| reads handles => handles[i].Value())
  }

  class Manager {
    const configs: seq<ClusterConfig>
    var handles: seq<ClusterHandle>

    ghost predicate Valid()
      reads this
    {
      forall i, j :: 0 <= i < j < |handles| ==> handles[i] != handles[j]
    }

    constructor (configs: seq<ClusterConfig>)
      ensures Valid() && this.configs == configs && handles == []
    {
      this.configs := configs;
      handles := [];
    }

    /** connectAll: the handles are published only when every attempt is over. */
    method ConnectAll(attempts: seq<Attempt>)
      requires |attempts| == |configs|
      modifies this
      ensures Valid() && fresh(handles)
      ensures Values(handles) == Retry(AllDown(configs), attempts)
    {
      var connected: seq<ClusterHandle> := [];
      for i := 0 to |configs|
        invariant |connected| == i && fresh(connected)
        invariant forall j, k :: 0 <= j < k < i ==> connected[j] != connected[k]
        invariant forall j :: 0 <= j < i ==> connected[j].Value() == RetrySlot(Down(configs[j]), attempts[j])
        invariant unchanged(this)
      {
        var h := new ClusterHandle(configs[i]);
        var ok := h.Connect(attempts[i]);
        if ok {
          h.ready := true;
        }
        connected := connected + [h];
      }
      handles := connected;
    }

    /** reconnectDown */
    method ReconnectDown(attempts: seq<Attempt>)
      requires Valid() && |attempts| == |handles|
      modifies handles
      ensures Valid()
      ensures Values(handles) == Retry(old(Values(handles)), attempts)
    {
      for i := 0 to |handles|
        invariant forall j :: 0 <= j < i ==> handles[j].Value() == RetrySlot(old(handles[j].Value()), attempts[j])
        invariant forall j :: i <= j < |handles| ==> handles[j].Value() == old(handles[j].Value())
      {
        handles[i].Reconnect(attempts[i]);
      }
    }

    /** Start, up to any tick of its ticker: one round of attempts for connectAll and one for each tick. */
    method Start(rounds: seq<seq<Attempt>>)
      requires Fits(configs, rounds) && rounds != []
      modifies this
      ensures Valid()
      ensures Values(handles) == AfterRounds(configs, rounds)
    {
      ConnectAll(rounds[0]);
      assert rounds[..1][..0] == [];
      for tick := 1 to |rounds|
        invariant Valid() && fresh(handles)
        invariant Values(handles) == AfterRounds(configs, rounds[..tick])
      {
        assert rounds[..tick + 1][..tick] == rounds[..tick];
        ReconnectDown(rounds[tick]);
      }
      assert rounds[..|rounds|] == rounds;
    }

    /** ActiveClusters */
    method ActiveClusters() returns (out: seq<ClusterInfo>)
      ensures out == Active(Values(handles))
    {
      out := [];
      ghost var slots := Values(handles);
      for i := 0 to |handles|
        invariant out == Active(slots[..i])
      {
        assert slots[..i + 1][..i] == slots[..i];
        var h := handles[i];
        if h.ready {
          out := out + [ClusterInfo(h.cfg.endpoint, h.k8sClient, h.discovery)];
        }
      }
      assert slots[..|handles|] == slots;
    }
  }

  // ---------------------------------------------------------------------- all runs

  /** The first n attempts for handle i contain a success. */
  ghost predicate Reached(rounds: seq<seq<Attempt>>, i: nat, n: nat) {
    exists r :: 0 <= r < n <= |rounds| && i < |rounds[r]| && Succeeds(rounds[r][i])
  }

  /** After any rounds, handle i is for configuration i, and has the clients of the first
      attempt that succeeded, if one did; otherwise it is as it was made. */
  lemma {:induction false} HandleExact(configs: seq<ClusterConfig>, rounds: seq<seq<Attempt>>, i: nat)
    requires Fits(configs, rounds) && rounds != [] && i < |configs|
    ensures !Reached(rounds, i, |rounds|) ==> AfterRounds(configs, rounds)[i] == Down(configs[i])
    ensures forall r :: 0 <= r < |rounds| && Succeeds(rounds[r][i]) && !Reached(rounds, i, r) ==>
              AfterRounds(configs, rounds)[i] == Slot(configs[i], rounds[r][i].client, rounds[r][i].discovery, true)
    decreases |rounds|
  {
    var n := |rounds| - 1;
    var before := rounds[..n];
    assert forall m: nat :: m <= n ==> (Reached(before, i, m) <==> Reached(rounds, i, m)) by {
      forall m: nat | m <= n ensures Reached(before, i, m) <==> Reached(rounds, i, m) {
        assert forall r :: 0 <= r < m ==> before[r] == rounds[r];
      }
    }
    if n > 0 {
      HandleExact(configs, before, i);
      if Reached(rounds, i, n) {
        FirstReached(before, i, n);
      }
    }
  }

  lemma {:induction false} FirstReached(rounds: seq<seq<Attempt>>, i: nat, n: nat)
    requires Reached(rounds, i, n)
    ensures exists r :: 0 <= r < n && i < |rounds[r]| && Succeeds(rounds[r][i]) && !Reached(rounds, i, r)
  {
    var r :| 0 <= r < n <= |rounds| && i < |rounds[r]| && Succeeds(rounds[r][i]);
    if Reached(rounds, i, r) {
      FirstReached(rounds, i, r);
    }
  }

  /** Ready only goes from false to true, and a ready handle keeps its clients for good. */
  lemma {:induction false} ReadyStays(configs: seq<ClusterConfig>, rounds: seq<seq<Attempt>>, n: nat, i: nat)
    requires Fits(configs, rounds) && 0 < n <= |rounds| && i < |configs|
    requires AfterRounds(configs, rounds[..n])[i].ready
    ensures AfterRounds(configs, rounds)[i] == AfterRounds(configs, rounds[..n])[i]
    decreases |rounds|
  {
    if n < |rounds| {
      var last := |rounds| - 1;
      assert rounds[..last][..n] == rounds[..n];
      ReadyStays(configs, rounds[..last], n, i);
    } else {
      assert rounds[..n] == rounds;
    }
  }

  // -------------------------------------------------------------------- snapshots

  function ReadyAmong(slots: seq<Slot>): nat {
    if slots == [] then 0 else
      ReadyAmong(slots[..|slots| - 1]) + if slots[|slots| - 1].ready then 1 else 0
  }

  /** A snapshot lists exactly the ready handles, each after those of earlier configurations. */
  lemma {:induction false} ActiveExact(slots: seq<Slot>)
    ensures |Active(slots)| == ReadyAmong(slots)
    ensures forall i :: 0 <= i < |slots| && slots[i].ready ==>
              && ReadyAmong(slots[..i]) < |Active(slots)|
              && Active(slots)[ReadyAmong(slots[..i])] == Info(slots[i])
  {
    if slots != [] {
      var n := |slots| - 1;
      ActiveExact(slots[..n]);
      forall i | 0 <= i < n ensures slots[..n][..i] == slots[..i] {}
    }
  }

  /** Every entry of a snapshot is a ready handle. */
  lemma {:induction false} ActiveFrom(slots: seq<Slot>, k: nat)
    requires k < |Active(slots)|
    ensures exists i :: 0 <= i < |slots| && slots[i].ready && ReadyAmong(slots[..i]) == k && Active(slots)[k] == Info(slots[i])
  {
    var n := |slots| - 1;
    ActiveExact(slots[..n]);
    if k < |Active(slots[..n])| {
      ActiveFrom(slots[..n], k);
      var i :| 0 <= i < n && slots[..n][i].ready && ReadyAmong(slots[..n][..i]) == k && Active(slots[..n])[k] == Info(slots[..n][i]);
      assert slots[..n][..i] == slots[..i];
    }
  }

  /** Every snapshot names a configured cluster with the clients of a successful attempt,
      and every later snapshot still lists the same cluster with the same clients. */
  lemma SnapshotsGrow(configs: seq<ClusterConfig>, rounds: seq<seq<Attempt>>, n: nat, k: nat)
    requires Fits(configs, rounds) && n <= |rounds|
    requires k < |Active(AfterRounds(configs, rounds[..n]))|
    ensures var entry := Active(AfterRounds(configs, rounds[..n]))[k];
            && entry.client.Some? && entry.discovery.Some?
            && entry in Active(AfterRounds(configs, rounds))
            && exists i :: 0 <= i < |configs| && entry.name == configs[i].endpoint && Reached(rounds, i, n)
  {
    var slots, later := AfterRounds(configs, rounds[..n]), AfterRounds(configs, rounds);
    ActiveFrom(slots, k);
    var i :| 0 <= i < |slots| && slots[i].ready && ReadyAmong(slots[..i]) == k && Active(slots)[k] == Info(slots[i]);
    ReadyStays(configs, rounds, n, i);
    ActiveExact(later);
    assert Active(later)[ReadyAmong(later[..i])] == Info(later[i]);
    HandleExact(configs, rounds[..n], i);
    assert Reached(rounds[..n], i, n);
    FirstReached(rounds[..n], i, n);
    var r :| 0 <= r < n && i < |rounds[..n][r]| && Succeeds(rounds[..n][r][i]) && !Reached(rounds[..n], i, r);
    assert Succeeds(rounds[r][i]);
  }
}
