/**
 Coalescing change notifications. Notify fills a channel of capacity one; the
 event loop moves the signal into the flag `pending`, and a tick of the limiter
 that finds the flag set consumes it, and broadcasts if any client is connected.
 */
module Notifier {
  import Registry

  datatype Signal = Signal(full: bool, pending: bool)

  /** Calls of Notify, and the cases of the event loop's select: the signal, a tick of
      the limiter, which finds clients connected or not, and a tick of the pinger. */
  datatype Event = Notify | Receive | Tick(clients: bool) | Ping

  const QUIET := Signal(false, false)

  function After(s: Signal, e: Event): Signal {
    match e
    case Notify => s.(full := true)
    case Receive => Signal(false, true)
    case Tick(_) => s.(pending := false)
    case Ping => s
  }

  /** Receiving from an empty channel is not a possible choice of the select. */
  predicate Enabled(s: Signal, e: Event) {
    e.Receive? ==> s.full
  }

  function At(events: seq<Event>): Signal {
    if events == [] then QUIET else After(At(events[..|events| - 1]), events[|events| - 1])
  }

  predicate Valid(events: seq<Event>) {
    forall i :: 0 <= i < |events| ==> Enabled(At(events[..i]), events[i])
  }

  /** The i-th event is a tick that consumes a pending signal. */
  predicate Consumes(events: seq<Event>, i: nat) {
    i < |events| && events[i].Tick? && At(events[..i]).pending
  }

  // ------------------------------------------------------ no lost notification

  ghost predicate ReceivedAfter(events: seq<Event>, i: nat, r: nat) {
    i < r < |events| && events[r].Receive?
  }

  /** The signal was received after event i and consumed by a later tick, which
      broadcasts to whoever is connected then. */
  ghost predicate ConsumedAfter(events: seq<Event>, i: nat) {
    exists r, t :: ReceivedAfter(events, i, r) && r < t && Consumes(events, t)
  }

  lemma StepsBefore(events: seq<Event>, n: nat)
    requires n + 1 == |events|
    ensures forall i :: 0 <= i <= n ==> events[..n][..i] == events[..i]
    ensures forall i :: 0 <= i < n ==> events[..n][i] == events[i]
    ensures At(events) == After(At(events[..n]), events[n])
    ensures Valid(events) ==> Valid(events[..n]) && Enabled(At(events[..n]), events[n])
    ensures forall i, r :: ReceivedAfter(events[..n], i, r) ==> ReceivedAfter(events, i, r)
    ensures forall t :: Consumes(events[..n], t) ==> Consumes(events, t)
  {
    hide At;
    assert forall i :: 0 <= i <= n ==> events[..n][..i] == events[..i];
    StepsBeforeAt(events, n);
  }

  lemma StepsBeforeAt(events: seq<Event>, n: nat)
    requires n + 1 == |events|
    ensures At(events) == After(At(events[..n]), events[n])
  {
  }

  /** No notification is lost, in any interleaving: after a call of Notify the
      channel is full, or the signal has been received since and is pending, or a
      tick has consumed it since it was received. */
  lemma {:induction false} NoLostNotification(events: seq<Event>, i: nat)
    requires Valid(events) && i < |events| && events[i].Notify?
    ensures var s := At(events);
      || s.full
      || (s.pending && exists r :: ReceivedAfter(events, i, r))
      || ConsumedAfter(events, i)
  {
    var n := |events| - 1;
    StepsBefore(events, n);
    if i < n {
      NoLostNotification(events[..n], i);
      var before := At(events[..n]);
      hide At;
      if ConsumedAfter(events[..n], i) {
        var r, t :| ReceivedAfter(events[..n], i, r) && r < t && Consumes(events[..n], t);
        assert Consumes(events, t) && ReceivedAfter(events, i, r);
      } else if !before.full {
        var r :| ReceivedAfter(events[..n], i, r);
        assert ReceivedAfter(events, i, r);
        if events[n].Tick? {
          assert Consumes(events, n);
        }
      } else if events[n].Receive? {
        assert ReceivedAfter(events, i, n);
      }
    }
  }

  /** Hence once all is quiet a tick has answered every notification, with a broadcast
      if it found clients connected. */
  lemma QuietMeansBroadcast(events: seq<Event>, i: nat)
    requires Valid(events) && i < |events| && events[i].Notify? && At(events) == QUIET
    ensures ConsumedAfter(events, i)
  {
    NoLostNotification(events, i);
  }

  // ------------------------------------------------------------ rate and quiet

  function Notifies(events: seq<Event>): nat {
    if events == [] then 0 else
      Notifies(events[..|events| - 1]) + if events[|events| - 1].Notify? then 1 else 0
  }

  function Ticks(events: seq<Event>): nat {
    if events == [] then 0 else
      Ticks(events[..|events| - 1]) + if events[|events| - 1].Tick? then 1 else 0
  }

  function Consumptions(events: seq<Event>): nat {
    if events == [] then 0 else
      Consumptions(events[..|events| - 1]) + if Consumes(events, |events| - 1) then 1 else 0
  }

  /** Ticks that consume the signal and find clients connected. */
  function Broadcasts(events: seq<Event>): nat {
    if events == [] then 0 else
      var n := |events| - 1;
      Broadcasts(events[..n]) + if Consumes(events, n) && events[n].clients then 1 else 0
  }

  /** The ticks that broadcast. */
  function BroadcastTicks(events: seq<Event>): set<int> {
    set i | 0 <= i < |events| && Consumes(events, i) && events[i].clients
  }

  lemma BroadcastTicksBefore(events: seq<Event>, n: nat)
    requires n + 1 == |events|
    ensures BroadcastTicks(events) == BroadcastTicks(events[..n]) + if Consumes(events, n) && events[n].clients then {n} else {}
  {
    hide At;
    forall i | 0 <= i < n ensures Consumes(events, i) <==> Consumes(events[..n], i) {
      assert events[..n][..i] == events[..i];
    }
  }

  /** One broadcast for each tick that consumes the signal while clients are connected. */
  lemma {:induction false} BroadcastsCounted(events: seq<Event>)
    ensures Broadcasts(events) == |BroadcastTicks(events)|
  {
    if events != [] {
      var n := |events| - 1;
      hide BroadcastTicks, Consumes;
      BroadcastsCounted(events[..n]);
      BroadcastTicksBefore(events, n);
      NotCounted(events, n);
    } else {
      assert BroadcastTicks(events) == {};
    }
  }

  lemma NotCounted(events: seq<Event>, n: nat)
    requires n < |events|
    ensures n !in BroadcastTicks(events[..n])
  {
  }

  function Pings(events: seq<Event>): nat {
    if events == [] then 0 else
      Pings(events[..|events| - 1]) + if events[|events| - 1].Ping? then 1 else 0
  }

  function Bit(b: bool): nat {
    if b then 1 else 0
  }

  /** At most one broadcast per tick of the limiter, and never more broadcasts,
      done or due, than notifications. */
  lemma {:induction false} RateLimited(events: seq<Event>)
    requires Valid(events)
    ensures Broadcasts(events) <= Consumptions(events) <= Ticks(events)
    ensures Consumptions(events) + Bit(At(events).pending) + Bit(At(events).full) <= Notifies(events)
  {
    if events != [] {
      StepsBefore(events, |events| - 1);
      RateLimited(events[..|events| - 1]);
    }
  }

  function Measure(s: Signal): nat {
    2 * Bit(s.full) + Bit(s.pending)
  }

  /** Without new notifications each receive and each consuming tick uses up the
      measure, which is at most three; a tick that finds nothing changes nothing. */
  lemma MeasureDrops(s: Signal, e: Event)
    requires Enabled(s, e) && !e.Notify?
    ensures e.Receive? || (e.Tick? && s.pending) ==> Measure(After(s, e)) < Measure(s) <= 3
    ensures !(e.Receive? || (e.Tick? && s.pending)) ==> After(s, e) == s
    ensures Measure(s) == 0 <==> s == QUIET
  {
  }

  lemma CountsBefore(events: seq<Event>, n: nat)
    requires n + 1 == |events|
    ensures Pings(events) == Pings(events[..n]) + if events[n].Ping? then 1 else 0
    ensures Broadcasts(events)
         == Broadcasts(events[..n]) + if events[n].Tick? && At(events[..n]).pending && events[n].clients then 1 else 0
  {
    hide At;
  }

  // ----------------------------------------------------------------- the object

  class DashboardNotifier {
    var full: bool
    var pending: bool
    var broadcasts: nat
    var pings: nat

    function Value(): Signal
      reads this
    {
      Signal(full, pending)
    }

    constructor ()
      ensures Value() == QUIET && broadcasts == 0 && pings == 0
    {
      full, pending, broadcasts, pings := false, false, 0, 0;
    }

    /** Non-blocking send: dropped when the channel is full. */
    method Notify()
      modifies this`full
      ensures Value() == After(old(Value()), Event.Notify)
    {
      if !full {
        full := true;
      }
    }

    /** The event loop under a schedule of its choices and of calls of Notify, until the
        context is done; then every client is closed. */
    method Start(events: seq<Event>, clientSet: Registry.ClientSet)
      requires Value() == QUIET && broadcasts == 0 && pings == 0 && Valid(events)
      modifies this, clientSet
      ensures Value() == At(events) && broadcasts == Broadcasts(events) && pings == Pings(events)
      ensures clientSet.clients == {} && clientSet.closed == old(clientSet.closed + clientSet.clients)
    {
      assert At([]) == QUIET && Broadcasts([]) == Pings([]) == 0 && events[..0] == [];
      hide At, Broadcasts, Pings, Valid;
      for i := 0 to |events|
        invariant Value() == At(events[..i]) && broadcasts == Broadcasts(events[..i]) && pings == Pings(events[..i])
        invariant unchanged(clientSet)
      {
        StepsBeforeAt(events[..i + 1], i);
        CountsBefore(events[..i + 1], i);
        assert events[..i + 1][..i] == events[..i];
        match events[i] {
          case Notify =>
            Notify();
          case Receive =>
            full := false;
            pending := true;
          case Tick(hasClients) =>
            if !pending {
              continue;
            }
            pending := false;
            if hasClients {
              broadcasts := broadcasts + 1;
            }
          case Ping =>
            pings := pings + 1;
        }
      }
      assert events[..|events|] == events;
      clientSet.CloseAll();
    }
  }
}
