/**
 The set of WebSocket clients. A broadcast takes a snapshot under the lock and
 then writes to one client at a time without it, while handlers register and
 unregister clients concurrently.
 */
module Registry {
  import opened Enumeration

  type Conn = nat

  /** The part of a broadcast that is under way: `next` clients of the snapshot are
      done; `failed` says that the write to the next one has failed and the client
      been closed, but not yet taken off the set. */
  datatype Broadcast = NoBroadcast | Broadcasting(snapshot: seq<Conn>, next: nat, failed: bool, written: set<Conn>)

  /** `joined` are the clients registered since the broadcast began. */
  datatype State = State(clients: set<Conn>, closed: set<Conn>, broadcast: Broadcast, joined: set<Conn>)

  datatype Event =
    | Register(c: Conn)
    | Unregister(c: Conn)
    | Close(c: Conn)
    | Snapshot(order: seq<Conn>)
    | Written
    | WriteFailed
    | Dropped

  predicate Writing(b: Broadcast) {
    b.Broadcasting? && b.next < |b.snapshot|
  }

  predicate Over(b: Broadcast) {
    b.Broadcasting? && b.next == |b.snapshot|
  }

  ghost predicate Enabled(s: State, e: Event) {
    match e
    case Register(_) => true
    case Unregister(_) => true
    case Close(_) => true
    case Snapshot(order) => s.broadcast.NoBroadcast? && Enumerates(order, s.clients)
    case Written => Writing(s.broadcast) && !s.broadcast.failed
    case WriteFailed => Writing(s.broadcast) && !s.broadcast.failed
    case Dropped => Writing(s.broadcast) && s.broadcast.failed
  }

  function After(s: State, e: Event): State {
    var b := s.broadcast;
    match e
    case Register(c) => s.(clients := s.clients + {c}, joined := s.joined + {c})
    case Unregister(c) => s.(clients := s.clients - {c})
    case Close(c) => s.(closed := s.closed + {c})
    case Snapshot(order) => s.(broadcast := Broadcasting(order, 0, false, {}), joined := {})
    case Written =>
      if !Writing(b) then s else s.(broadcast := b.(written := b.written + {b.snapshot[b.next]}, next := b.next + 1))
    case WriteFailed =>
      if !Writing(b) then s else s.(closed := s.closed + {b.snapshot[b.next]}, broadcast := b.(failed := true))
    case Dropped =>
      if !Writing(b) then s else s.(clients := s.clients - {b.snapshot[b.next]}, broadcast := b.(failed := false, next := b.next + 1))
  }

  function At(start: State, events: seq<Event>): State {
    if events == [] then start else After(At(start, events[..|events| - 1]), events[|events| - 1])
  }

  ghost predicate Valid(start: State, events: seq<Event>) {
    forall i :: 0 <= i < |events| ==> Enabled(At(start, events[..i]), events[i])
  }

  /** The same run as if nobody broadcast: the handlers' own doing. */
  function HandlersOnly(start: State, events: seq<Event>): State {
    if events == [] then start else
      var before := HandlersOnly(start, events[..|events| - 1]);
      var e := events[|events| - 1];
      if e.Register? || e.Unregister? || e.Close? then After(before, e) else before
  }

  /** What the broadcast has made of a client it is done with. */
  ghost predicate Settled(s: State, c: Conn) {
    || (s.broadcast.Broadcasting? && c in s.broadcast.written)
    || (c in s.closed && (c in s.clients ==> c in s.joined))
  }

  ghost predicate Inv(s: State, h: State) {
    && s.broadcast.Broadcasting? && s.broadcast.next <= |s.broadcast.snapshot|
    && (s.broadcast.failed ==> Writing(s.broadcast) && s.broadcast.snapshot[s.broadcast.next] in s.closed)
    && (forall k :: 0 <= k < s.broadcast.next ==> Settled(s, s.broadcast.snapshot[k]))
    && (forall c :: c !in s.broadcast.snapshot ==> (c in s.clients <==> c in h.clients) && (c in s.closed <==> c in h.closed))
    && s.clients <= h.clients && h.closed <= s.closed
  }

  lemma InvStep(s: State, h: State, e: Event)
    requires Inv(s, h) && Enabled(s, e)
    ensures Inv(After(s, e), if e.Register? || e.Unregister? || e.Close? then After(h, e) else h)
    ensures After(s, e).broadcast.snapshot == s.broadcast.snapshot
  {
    var s' := After(s, e);
    var b := s.broadcast;
    assert b.next < |b.snapshot| ==> b.snapshot[b.next] in b.snapshot;
    forall k | 0 <= k < s'.broadcast.next ensures Settled(s', b.snapshot[k]) {
      if k < b.next {
        assert Settled(s, b.snapshot[k]);
      }
    }
  }

  lemma {:induction false} InvRun(start: State, order: seq<Conn>, events: seq<Event>)
    requires start.broadcast.NoBroadcast? && Enumerates(order, start.clients)
    requires Valid(After(start, Snapshot(order)), events)
    ensures var first := After(start, Snapshot(order));
      Inv(At(first, events), HandlersOnly(first, events)) && At(first, events).broadcast.snapshot == order
  {
    var first := After(start, Snapshot(order));
    if events != [] {
      var n := |events| - 1;
      assert forall i :: 0 <= i <= n ==> events[..n][..i] == events[..i];
      InvRun(start, order, events[..n]);
      InvStep(At(first, events[..n]), HandlersOnly(first, events[..n]), events[n]);
    }
  }

  /** After a broadcast, under any interleaving with the handlers: every client of
      the snapshot was written to successfully, or is closed and off the set unless
      it was registered again; every other client, those registered after the
      snapshot among them, is exactly where the handlers alone would have it. */
  lemma BroadcastContract(start: State, order: seq<Conn>, events: seq<Event>)
    requires start.broadcast.NoBroadcast? && Enumerates(order, start.clients)
    requires Valid(After(start, Snapshot(order)), events)
    requires Over(At(After(start, Snapshot(order)), events).broadcast)
    ensures var first := After(start, Snapshot(order));
      var s, h := At(first, events), HandlersOnly(first, events);
      && (forall c :: c in start.clients ==> c in s.broadcast.written || (c in s.closed && (c in s.clients ==> c in s.joined)))
      && (forall c :: c !in start.clients ==> (c in s.clients <==> c in h.clients) && (c in s.closed <==> c in h.closed))
      && s.clients <= h.clients
  {
    hide At, HandlersOnly, Valid;
    InvRun(start, order, events);
    var s := At(After(start, Snapshot(order)), events);
    forall c | c in start.clients ensures Settled(s, c) {
      assert c in order;
      var k :| 0 <= k < |order| && order[k] == c;
      assert Settled(s, s.broadcast.snapshot[k]);
    }
  }

  predicate HandlerMoves(moves: seq<Event>) {
    forall i :: 0 <= i < |moves| ==> moves[i].Register? || moves[i].Unregister? || moves[i].Close?
  }

  // ----------------------------------------------------------------- the object

  class ClientSet {
    var clients: set<Conn>
    var closed: set<Conn>

    constructor ()
      ensures clients == {} && closed == {}
    {
      clients, closed := {}, {};
    }

    method Add(c: Conn)
      modifies this`clients
      ensures clients == old(clients) + {c}
    {
      clients := clients + {c};
    }

    method Remove(c: Conn)
      modifies this`clients
      ensures clients == old(clients) - {c}
    {
      clients := clients - {c};
    }

    /** closeAll, all under the lock: every client is closed and the set is left empty. */
    method CloseAll()
      modifies this
      ensures clients == {} && closed == old(closed) + old(clients)
    {
      while clients != {}
        invariant clients <= old(clients) && closed == old(closed) + (old(clients) - clients)
        decreases clients
      {
        var conn :| conn in clients;
        closed := closed + {conn};
        clients := clients - {conn};
      }
    }

    method TakeSnapshot() returns (out: seq<Conn>)
      ensures Enumerates(out, clients)
    {
      hide Enumerates;
      var unseen := clients;
      ghost var seen: set<Conn> := {};
      out := [];
      EnumeratesStart<Conn>();
      while unseen != {}
        invariant seen <= clients && unseen == clients - seen
        invariant Enumerates(out, seen)
        decreases unseen
      {
        var conn :| conn in unseen;
        EnumeratesSnoc(out, seen, conn);
        unseen, seen := unseen - {conn}, seen + {conn};
        out := out + [conn];
      }
      assert seen == clients;
    }

    ghost function Value(broadcast: Broadcast, joined: set<Conn>): State
      reads this
    {
      State(clients, closed, broadcast, joined)
    }

    /** broadcastPing and broadcastWSPing: reaches(c) says whether a write to c
        succeeds, and handlers[k] what the handlers do before the k-th write and
        again, as handlers[k] of `late`, between a failed write and the removal. */
    method BroadcastPing(reaches: Conn -> bool, handlers: nat -> seq<Event>, late: nat -> seq<Event>)
      returns (order: seq<Conn>, ghost events: seq<Event>, ghost written: set<Conn>, ghost joined: set<Conn>)
      requires forall k :: HandlerMoves(handlers(k)) && HandlerMoves(late(k))
      modifies this
      ensures Enumerates(order, old(clients))
      ensures var first := After(State(old(clients), old(closed), NoBroadcast, {}), Snapshot(order));
        && Valid(first, events)
        && At(first, events) == Value(Broadcasting(order, |order|, false, written), joined)
    {
      hide Enumerates, HandlerMoves;
      var snapshot := TakeSnapshot();
      order, events, written, joined := snapshot, [], {}, {};
      ghost var first := After(State(clients, closed, NoBroadcast, {}), Snapshot(order));
      assert Valid(first, []) && At(first, []) == Value(Broadcasting(order, 0, false, {}), {});
      hide At, Valid;
      for k := 0 to |order|
        invariant Valid(first, events)
        invariant At(first, events) == Value(Broadcasting(order, k, false, written), joined)
      {
        events, written, joined := WriteTo(first, events, reaches(order[k]), handlers(k), late(k), order, k, written, joined);
      }
    }

    method WriteTo(ghost first: State, ghost events: seq<Event>, reached: bool, moves: seq<Event>, late: seq<Event>,
                   order: seq<Conn>, k: nat, ghost written: set<Conn>, ghost joined: set<Conn>)
      returns (ghost events': seq<Event>, ghost written': set<Conn>, ghost joined': set<Conn>)
      requires HandlerMoves(moves) && HandlerMoves(late)
      requires k < |order| && Valid(first, events) && At(first, events) == Value(Broadcasting(order, k, false, written), joined)
      modifies this
      ensures Valid(first, events') && At(first, events') == Value(Broadcasting(order, k + 1, false, written'), joined')
    {
      hide At, Valid, HandlerMoves;
      written' := written;
      events', joined' := Interleave(first, events, moves, Broadcasting(order, k, false, written), joined);
      if !reached {
        events', joined' := CloseAndDrop(first, events', late, order, k, written, joined');
      } else {
        ValidSnoc(first, events', Written);
        written' := written + {order[k]};
        events' := events' + [Written];
      }
    }

    method CloseAndDrop(ghost first: State, ghost events: seq<Event>, late: seq<Event>, order: seq<Conn>, k: nat,
                        ghost written: set<Conn>, ghost joined: set<Conn>)
      returns (ghost events': seq<Event>, ghost joined': set<Conn>)
      requires HandlerMoves(late)
      requires k < |order| && Valid(first, events) && At(first, events) == Value(Broadcasting(order, k, false, written), joined)
      modifies this
      ensures Valid(first, events') && At(first, events') == Value(Broadcasting(order, k + 1, false, written), joined')
    {
      hide At, Valid;
      ValidSnoc(first, events, WriteFailed);
      closed := closed + {order[k]};
      events' := events + [WriteFailed];
      events', joined' := Interleave(first, events', late, Broadcasting(order, k, true, written), joined);
      ValidSnoc(first, events', Dropped);
      Remove(order[k]);
      events' := events' + [Dropped];
    }

    /** The handlers' turn. */
    method Interleave(ghost first: State, ghost events: seq<Event>, moves: seq<Event>, ghost broadcast: Broadcast, ghost joined: set<Conn>)
      returns (ghost events': seq<Event>, ghost joined': set<Conn>)
      requires HandlerMoves(moves)
      requires Valid(first, events) && At(first, events) == Value(broadcast, joined)
      modifies this
      ensures Valid(first, events') && At(first, events') == Value(broadcast, joined')
    {
      hide At, Valid;
      events', joined' := events, joined;
      for i := 0 to |moves|
        invariant Valid(first, events') && At(first, events') == Value(broadcast, joined')
      {
        ValidSnoc(first, events', moves[i]);
        match moves[i] {
          case Register(c) =>
            Add(c);
            joined' := joined' + {c};
          case Unregister(c) =>
            Remove(c);
          case Close(c) =>
            closed := closed + {c};
        }
        events' := events' + [moves[i]];
      }
    }
  }

  lemma ValidSnoc(first: State, events: seq<Event>, e: Event)
    requires Valid(first, events) && Enabled(At(first, events), e)
    ensures Valid(first, events + [e]) && At(first, events + [e]) == After(At(first, events), e)
  {
    var more := events + [e];
    assert more[..|events|] == events;
    forall i | 0 <= i < |more| ensures Enabled(At(first, more[..i]), more[i]) {
      assert i < |events| ==> more[..i] == events[..i];
    }
  }
}
