/**
 The reachability cache of issuerAndDiscoveryReachable (web/auth.go). A call looks
 the cache up in one critical section, probes without the lock on a miss, and stores
 its result in a second critical section, so that probes overlap and may finish in
 any order. Times are nanoseconds on the process clock.
 */
module Reachability {
  import opened Wrappers

  const ISSUER_CHECK_TTL := 30 * 1_000_000_000

  datatype Call = Call(issuer: string, discovery: string, now: int)
  datatype Probe = Probe(issuer: string, discovery: string, start: int, reachable: bool)
  datatype Cache = Cache(issuer: string, discovery: string, reachable: bool, checkedAt: int)

  predicate Hit(cache: Cache, call: Call) {
    cache.issuer == call.issuer && cache.discovery == call.discovery && call.now - cache.checkedAt <= ISSUER_CHECK_TTL
  }

  function Stored(p: Probe): Cache {
    Cache(p.issuer, p.discovery, p.reachable, p.start)
  }

  function ProbeOf(call: Call, reachable: bool): Probe {
    Probe(call.issuer, call.discovery, call.now, reachable)
  }

  // ------------------------------------------------------- the service's fields

  class ReachabilityCache {
    var cachedIssuerForURL: string
    var cachedDiscoveryForURL: string
    var cachedIssuerReachable: bool
    var cachedIssuerCheckedAt: int

    function Value(): Cache
      reads this
    {
      Cache(cachedIssuerForURL, cachedDiscoveryForURL, cachedIssuerReachable, cachedIssuerCheckedAt)
    }

    /** The zero value; `zero` is the zero time. */
    constructor (zero: int)
      ensures Value() == Cache("", "", false, zero)
    {
      cachedIssuerForURL, cachedDiscoveryForURL := "", "";
      cachedIssuerReachable, cachedIssuerCheckedAt := false, zero;
    }

    /** The first critical section. */
    method LookUp(call: Call) returns (hit: bool, reachable: bool)
      ensures hit == Hit(Value(), call)
      ensures hit ==> reachable == Value().reachable
    {
      hit := && cachedIssuerForURL == call.issuer
             && cachedDiscoveryForURL == call.discovery
             && call.now - cachedIssuerCheckedAt <= ISSUER_CHECK_TTL;
      reachable := cachedIssuerReachable;
    }

    /** The second critical section. */
    method Store(p: Probe)
      modifies this
      ensures Value() == Stored(p)
    {
      cachedIssuerForURL := p.issuer;
      cachedDiscoveryForURL := p.discovery;
      cachedIssuerReachable := p.reachable;
      cachedIssuerCheckedAt := p.start;
    }

    /** issuerAndDiscoveryReachable; `others` are the probes of other requests that finish while this one probes. */
    method IssuerAndDiscoveryReachable(call: Call, issuerUp: bool, discoveryUp: bool, others: seq<Probe>)
      returns (reachable: bool)
      modifies this
      ensures old(Hit(Value(), call)) ==> reachable == old(Value().reachable) && Value() == old(Value())
      ensures !old(Hit(Value(), call)) ==> reachable == (issuerUp && discoveryUp)
      ensures !old(Hit(Value(), call)) ==> Value() == Stored(ProbeOf(call, reachable))
    {
      var hit, cached := LookUp(call);
      if hit {
        return cached;
      }
      for i := 0 to |others| {
        Store(others[i]);
      }
      reachable := issuerUp && discoveryUp;
      Store(ProbeOf(call, reachable));
    }
  }

  // ------------------------------------------------------------ all interleavings

  /** An answer, and the number of probes that had finished when it was given. */
  datatype Answer = Answer(call: Call, reachable: bool, finished: nat)

  datatype State = State(cache: Cache, probing: map<nat, Call>, finished: seq<Probe>, answers: seq<Answer>)

  /** A call enters, under an id not in use, or the probe of a call ends. */
  datatype Event = Ask(id: nat, call: Call) | Finish(id: nat, issuerUp: bool, discoveryUp: bool)

  predicate Enabled(s: State, e: Event) {
    if e.Ask? then e.id !in s.probing else e.id in s.probing
  }

  function Next(s: State, e: Event): State
    requires Enabled(s, e)
  {
    match e
    case Ask(id, call) =>
      if Hit(s.cache, call) then s.(answers := s.answers + [Answer(call, s.cache.reachable, |s.finished|)])
      else s.(probing := s.probing[id := call])
    case Finish(id, issuerUp, discoveryUp) =>
      var probe := ProbeOf(s.probing[id], issuerUp && discoveryUp);
      State(Stored(probe), s.probing - {id}, s.finished + [probe],
            s.answers + [Answer(s.probing[id], probe.reachable, |s.finished| + 1)])
  }

  function Start(zero: int): State {
    State(Cache("", "", false, zero), map[], [], [])
  }

  ghost predicate Run(s: State, events: seq<Event>, t: State)
    decreases |events|
  {
    if events == [] then s == t else
      Enabled(s, events[0]) && Run(Next(s, events[0]), events[1..], t)
  }

  /** A probe of the call's own URLs, started at most 30 s before the call. */
  predicate Fresh(p: Probe, call: Call) {
    p.issuer == call.issuer && p.discovery == call.discovery && call.now - p.start <= 30_000_000_000
  }

  predicate Vouches(p: Probe, a: Answer) {
    Fresh(p, a.call) && p.reachable == a.reachable
  }

  ghost predicate Vouched(finished: seq<Probe>, a: Answer) {
    a.finished <= |finished| && exists i :: 0 <= i < a.finished && Vouches(finished[i], a)
  }

  ghost predicate Inv(s: State, zero: int) {
    && s.cache == (if s.finished == [] then Start(zero).cache else Stored(s.finished[|s.finished| - 1]))
    && (forall k :: 0 <= k < |s.answers| && s.answers[k].call.issuer != "" ==> Vouched(s.finished, s.answers[k]))
  }

  lemma InvNext(s: State, e: Event, zero: int)
    requires Inv(s, zero) && Enabled(s, e)
    ensures Inv(Next(s, e), zero)
  {
    var t := Next(s, e);
    forall k | 0 <= k < |t.answers| && t.answers[k].call.issuer != "" ensures Vouched(t.finished, t.answers[k]) {
      var a := t.answers[k];
      if k < |s.answers| {
        assert Vouched(s.finished, s.answers[k]);
        var i :| 0 <= i < a.finished && Vouches(s.finished[i], a);
        assert t.finished[i] == s.finished[i];
      } else {
        assert Vouches(t.finished[|t.finished| - 1], a);
      }
    }
  }

  lemma {:induction false} InvRun(s: State, events: seq<Event>, t: State, zero: int)
    requires Inv(s, zero) && Run(s, events, t)
    ensures Inv(t, zero)
    decreases |events|
  {
    if events != [] {
      InvNext(s, events[0], zero);
      InvRun(Next(s, events[0]), events[1..], t, zero);
    }
  }

  /** In every interleaving, whatever the order in which probes finish, an answer about
      a configured issuer is the value of one finished probe of the same URLs that started
      no more than 30 s before the call. */
  lemma BoundedStaleness(events: seq<Event>, t: State, zero: int, k: nat)
    requires Run(Start(zero), events, t)
    requires k < |t.answers| && t.answers[k].call.issuer != ""
    ensures exists i :: 0 <= i < t.answers[k].finished <= |t.finished| && Vouches(t.finished[i], t.answers[k])
  {
    InvRun(Start(zero), events, t, zero);
    assert Vouched(t.finished, t.answers[k]);
  }

  /** A call is served from the cache exactly when the probe that finished last was one
      of its own URLs and started no more than 30 s before. */
  lemma ServedIffLastFresh(events: seq<Event>, t: State, zero: int, call: Call)
    requires Run(Start(zero), events, t) && call.issuer != ""
    ensures Hit(t.cache, call) <==> t.finished != [] && Fresh(t.finished[|t.finished| - 1], call)
    ensures Hit(t.cache, call) ==> t.cache.reachable == t.finished[|t.finished| - 1].reachable
  {
    InvRun(Start(zero), events, t, zero);
  }

  /** The probe that finishes last wins even over one that started later: within the
      bound, an answer may contradict a more recent probe. */
  lemma OlderProbeMayWin(issuer: string, discovery: string, zero: int, now: int)
    requires issuer != ""
    ensures exists events, t ::
              && Run(Start(zero), events, t)
              && |t.finished| == 2 && t.finished[0].start > t.finished[1].start
              && |t.answers| == 3 && t.answers[2].call.now >= t.finished[0].start
              && t.answers[2].reachable != t.finished[0].reachable
  {
    var first, second, third := Call(issuer, discovery, now), Call(issuer, discovery, now + 1), Call(issuer, discovery, now + 2);
    var s0 := Start(zero);
    var s1 := Next(s0, Ask(0, first));
    var s2 := Next(s1, Ask(1, second));
    var s3 := Next(s2, Finish(1, true, true));
    var s4 := Next(s3, Finish(0, false, true));
    var s5 := Next(s4, Ask(0, third));
    var events := [Ask(0, first), Ask(1, second), Finish(1, true, true), Finish(0, false, true), Ask(0, third)];
    assert Run(s5, events[5..], s5);
    assert events[4..] == [events[4]] + events[5..] && events[4..][1..] == events[5..] && Run(s4, events[4..], s5);
    assert events[3..][1..] == events[4..] && Run(s3, events[3..], s5);
    assert events[2..][1..] == events[3..] && Run(s2, events[2..], s5);
    assert events[1..][1..] == events[2..] && Run(s1, events[1..], s5);
    assert Run(s0, events, s5);
  }

  /** Probe i is of the call's URLs, and no finished probe of them started later. */
  ghost predicate MostRecent(finished: seq<Probe>, call: Call, i: nat) {
    && i < |finished| && finished[i].issuer == call.issuer && finished[i].discovery == call.discovery
    && forall j :: 0 <= j < |finished| && finished[j].issuer == call.issuer && finished[j].discovery == call.discovery
         ==> finished[j].start <= finished[i].start
  }

  // ------------------------------------------------ which events overtake a probe

  /** Where the last call with this id entered. */
  function LastAsk(events: seq<Event>, id: nat): (i: Option<nat>)
    ensures i.Some? ==> i.value < |events| && events[i.value].Ask? && events[i.value].id == id
  {
    if events == [] then None else
      var n := |events| - 1;
      if events[n].Ask? && events[n].id == id then Some(n) else LastAsk(events[..n], id)
  }

  /** Event f ends a probe, and this is where the call that made it entered. */
  predicate Ends(events: seq<Event>, f: nat, a: nat) {
    f < |events| && events[f].Finish? && LastAsk(events[..f], events[f].id) == Some(a)
  }

  /** The positions at which probes end. */
  function Finishes(events: seq<Event>): seq<nat> {
    if events == [] then [] else
      var n := |events| - 1;
      Finishes(events[..n]) + if events[n].Finish? then [n] else []
  }

  lemma {:induction false} FinishesAscend(events: seq<Event>, j: nat, k: nat)
    requires j <= k < |Finishes(events)|
    ensures Finishes(events)[j] <= Finishes(events)[k] < |events|
    ensures j < k ==> Finishes(events)[j] < Finishes(events)[k]
    decreases |events|
  {
    var n := |events| - 1;
    var before := Finishes(events[..n]);
    if k < |before| {
      FinishesAscend(events[..n], j, k);
    } else if j < |before| {
      FinishesAscend(events[..n], j, j);
    }
  }

  lemma {:induction false} FinishListed(events: seq<Event>, f: nat) returns (k: nat)
    requires f < |events| && events[f].Finish?
    ensures k < |Finishes(events)| && Finishes(events)[k] == f
    decreases |events|
  {
    var n := |events| - 1;
    if f == n {
      k := |Finishes(events[..n])|;
    } else {
      k := FinishListed(events[..n], f);
    }
  }

  /** The probe that ends at f is that of the call that entered at some a. */
  ghost predicate Answers(events: seq<Event>, f: nat, p: Probe) {
    exists a: nat :: Ends(events, f, a) && a < f && p == ProbeOf(events[a].call, events[f].issuerUp && events[f].discoveryUp)
  }

  ghost predicate Accounted(events: seq<Event>, t: State) {
    && (forall id :: id in t.probing ==> LastAsk(events, id).Some? && t.probing[id] == events[LastAsk(events, id).value].call)
    && |t.finished| == |Finishes(events)|
    && forall k :: 0 <= k < |t.finished| ==> Answers(events, Finishes(events)[k], t.finished[k])
  }

  lemma {:induction false} RunSnoc(s: State, events: seq<Event>, t: State) returns (m: State)
    requires Run(s, events, t) && events != []
    ensures var n := |events| - 1;
      Run(s, events[..n], m) && Enabled(m, events[n]) && t == Next(m, events[n])
    decreases |events|
  {
    if |events| == 1 {
      m := s;
      assert events[..0] == [];
    } else {
      m := RunSnoc(Next(s, events[0]), events[1..], t);
      assert events[1..][..|events| - 2] == events[..|events| - 1][1..];
    }
  }

  lemma AccountedStep(events: seq<Event>, m: State, e: Event)
    requires Accounted(events, m) && Enabled(m, e)
    ensures Accounted(events + [e], Next(m, e))
  {
    var more, t := events + [e], Next(m, e);
    assert more[..|events|] == events;
    forall k | 0 <= k < |t.finished| ensures Answers(more, Finishes(more)[k], t.finished[k]) {
      if k < |m.finished| {
        var f := Finishes(events)[k];
        assert Answers(events, f, m.finished[k]);
        assert more[..f] == events[..f];
        var a: nat :| Ends(events, f, a) && a < f && m.finished[k] == ProbeOf(events[a].call, events[f].issuerUp && events[f].discoveryUp);
        assert Ends(more, f, a);
      } else {
        var a := LastAsk(events, e.id).value;
        assert Ends(more, |events|, a);
      }
    }
  }

  lemma {:induction false} AccountedRun(events: seq<Event>, t: State, zero: int)
    requires Run(Start(zero), events, t)
    ensures Accounted(events, t)
    decreases |events|
  {
    if events != [] {
      var n := |events| - 1;
      var m := RunSnoc(Start(zero), events, t);
      AccountedRun(events[..n], m, zero);
      AccountedStep(events[..n], m, events[n]);
      assert events == events[..n] + [events[n]];
    }
  }

  /** Probe p is of the URLs of the call that entered at a, started when that call read the
      clock, and came out well exactly when, at f, both URLs had. */
  predicate ProbeBetween(events: seq<Event>, a: nat, f: nat, p: Probe) {
    && a < f && Ends(events, f, a) && events[a].Ask?
    && p.issuer == events[a].call.issuer && p.discovery == events[a].call.discovery && p.start == events[a].call.now
    && (p.reachable <==> events[f].issuerUp && events[f].discoveryUp)
  }

  /** In every interleaving, each finished probe stands for one call and one end of a probe,
      in the order of the ends. */
  lemma ProbesTruthful(events: seq<Event>, t: State, zero: int, k: nat) returns (a: nat, f: nat)
    requires Run(Start(zero), events, t) && k < |t.finished|
    ensures |Finishes(events)| == |t.finished| && f == Finishes(events)[k]
    ensures ProbeBetween(events, a, f, t.finished[k])
  {
    AccountedRun(events, t, zero);
    hide Accounted, Run, Finishes;
    a, f := AnswerOf(events, t, k);
  }

  /** The last probe to finish, at g, was made by a call that entered at b; and a call about
      the same URLs, which read a later time than that one, finished before it, at f. */
  ghost predicate OvertakenAt(events: seq<Event>, call: Call, a: nat, f: nat, b: nat, g: nat) {
    && Ends(events, f, a) && Ends(events, g, b) && a < f < g && b < g
    && (forall h :: g < h < |events| ==> !events[h].Finish?)
    && events[a].call.issuer == call.issuer && events[a].call.discovery == call.discovery
    && events[a].call.now > events[b].call.now
  }

  ghost predicate Overtaken(events: seq<Event>, call: Call) {
    exists a, f, b, g :: OvertakenAt(events, call, a, f, b, g)
  }

  /** Where calls read the clock in the order they enter, the overtaking call entered later. */
  lemma OvertakerEntersLater(events: seq<Event>, call: Call, a: nat, f: nat, b: nat, g: nat)
    requires OvertakenAt(events, call, a, f, b, g)
    requires forall i, j :: 0 <= i < j < |events| && events[i].Ask? && events[j].Ask? ==> events[i].call.now <= events[j].call.now
    ensures b < a
  {
  }

  /** Where the k-th finished probe ends, and where the call that made it entered. */
  lemma AnswerOf(events: seq<Event>, t: State, k: nat) returns (a: nat, f: nat)
    requires Accounted(events, t) && k < |t.finished|
    ensures |Finishes(events)| == |t.finished| && f == Finishes(events)[k] && a < f
    ensures Ends(events, f, a) && t.finished[k] == ProbeOf(events[a].call, events[f].issuerUp && events[f].discoveryUp)
  {
    hide Finishes;
    f := Finishes(events)[k];
    assert Answers(events, f, t.finished[k]);
    a :| Ends(events, f, a) && a < f && t.finished[k] == ProbeOf(events[a].call, events[f].issuerUp && events[f].discoveryUp);
  }

  /** Where a probe ends, the finished probe it is. */
  lemma FinishedAt(events: seq<Event>, t: State, f: nat, a: nat) returns (k: nat)
    requires Accounted(events, t) && Ends(events, f, a)
    ensures k < |t.finished| && |Finishes(events)| == |t.finished| && Finishes(events)[k] == f
    ensures t.finished[k] == ProbeOf(events[a].call, t.finished[k].reachable)
  {
    k := FinishListed(events, f);
    var a', f' := AnswerOf(events, t, k);
  }

  /** Probe j is of the call's URLs and started later than the last to finish. */
  predicate StartedLater(t: State, call: Call, j: nat) {
    j < |t.finished| - 1 && t.finished[j].issuer == call.issuer && t.finished[j].discovery == call.discovery
    && t.finished[j].start > t.finished[|t.finished| - 1].start
  }

  /** Nothing finishes after the last of the finished probes. */
  lemma NoneLater(events: seq<Event>, g: nat)
    requires Finishes(events) != [] && g == Finishes(events)[|Finishes(events)| - 1]
    ensures forall h :: g < h < |events| ==> !events[h].Finish?
  {
    hide Finishes;
    forall h | 0 <= h < |events| && events[h].Finish? ensures h <= g {
      var k := FinishListed(events, h);
      FinishesAscend(events, k, |Finishes(events)| - 1);
    }
  }

  lemma LaterOvertakes(events: seq<Event>, t: State, call: Call, j: nat)
    requires Accounted(events, t) && StartedLater(t, call, j)
    ensures Overtaken(events, call)
  {
    hide Accounted, Finishes, LastAsk;
    var a, f := AnswerOf(events, t, j);
    var b, g := AnswerOf(events, t, |t.finished| - 1);
    FinishesAscend(events, j, |t.finished| - 1);
    NoneLater(events, g);
    assert OvertakenAt(events, call, a, f, b, g);
  }

  lemma OvertakerStarted(events: seq<Event>, t: State, call: Call) returns (j: nat)
    requires Accounted(events, t) && Overtaken(events, call)
    ensures StartedLater(t, call, j)
  {
    hide Accounted, Finishes, LastAsk;
    var a, f, b, g :| OvertakenAt(events, call, a, f, b, g);
    j := FinishedAt(events, t, f, a);
    var n := |t.finished| - 1;
    var k := FinishedAt(events, t, g, b);
    var b', last := AnswerOf(events, t, n);
    FinishesAscend(events, k, n);
    if j >= k {
      FinishesAscend(events, k, j);
    }
  }

  /** A call served from the cache gets the result of the most recently started of the
      finished probes exactly when no call about its URLs that read a later time than the
      last to finish has finished before it. */
  lemma LatestServedIff(events: seq<Event>, t: State, zero: int, call: Call)
    requires Run(Start(zero), events, t) && call.issuer != "" && Hit(t.cache, call)
    ensures (exists i: nat :: MostRecent(t.finished, call, i) && t.cache == Stored(t.finished[i])) <==> !Overtaken(events, call)
  {
    ServedIffLastFresh(events, t, zero, call);
    InvRun(Start(zero), events, t, zero);
    AccountedRun(events, t, zero);
    hide Accounted, Overtaken, Run;
    if Overtaken(events, call) {
      var j := OvertakerStarted(events, t, call);
    } else {
      var n := |t.finished| - 1;
      forall j | 0 <= j <= n && t.finished[j].issuer == call.issuer && t.finished[j].discovery == call.discovery
        ensures t.finished[j].start <= t.finished[n].start
      {
        if t.finished[j].start > t.finished[n].start {
          LaterOvertakes(events, t, call, j);
        }
      }
      assert MostRecent(t.finished, call, |t.finished| - 1);
    }
  }

  // ------------------------------------------------------------ without overlaps

  /** One probe at a time, always of the same URLs. */
  ghost predicate OneAtATime(s: State, issuer: string, discovery: string, events: seq<Event>)
    decreases |events|
  {
    && |s.probing| <= 1
    && (events != [] ==>
          && (events[0].Ask? ==> events[0].call.issuer == issuer && events[0].call.discovery == discovery)
          && Enabled(s, events[0]) && OneAtATime(Next(s, events[0]), issuer, discovery, events[1..]))
  }

  /** The i-th probe started more than the time to live after the one before it. */
  predicate Apart(finished: seq<Probe>, i: int)
    requires 0 < i < |finished|
  {
    finished[i].start - finished[i - 1].start > ISSUER_CHECK_TTL
  }

  ghost predicate Spaced(s: State, issuer: string, discovery: string) {
    && (forall i :: 0 < i < |s.finished| ==> Apart(s.finished, i))
    && (forall i :: 0 <= i < |s.finished| ==> s.finished[i].issuer == issuer && s.finished[i].discovery == discovery)
    && (forall id :: id in s.probing ==>
          && s.probing[id].issuer == issuer && s.probing[id].discovery == discovery
          && (s.finished != [] ==> s.probing[id].now - s.finished[|s.finished| - 1].start > ISSUER_CHECK_TTL))
  }

  lemma SpacedNext(s: State, e: Event, zero: int, issuer: string, discovery: string)
    requires Inv(s, zero) && Spaced(s, issuer, discovery) && Enabled(s, e) && |s.probing| <= 1
    requires e.Ask? ==> e.call.issuer == issuer && e.call.discovery == discovery
    ensures Spaced(Next(s, e), issuer, discovery)
  {
    hide Vouched;
    if e.Finish? {
      OnlyKey(s.probing, e.id);
      var t := Next(s, e);
      forall i | 0 < i < |t.finished| ensures Apart(t.finished, i) {
        assert i < |s.finished| ==> Apart(s.finished, i);
      }
    }
  }

  lemma OnlyKey<V>(m: map<nat, V>, k: nat)
    requires |m| <= 1 && k in m
    ensures m - {k} == map[]
  {
    var rest := m - {k};
    assert rest.Keys == m.Keys - {k};
    assert |rest.Keys| == 0;
  }

  lemma {:induction false} SpacedRun(s: State, events: seq<Event>, t: State, zero: int, issuer: string, discovery: string)
    requires Inv(s, zero) && Spaced(s, issuer, discovery)
    requires Run(s, events, t) && OneAtATime(s, issuer, discovery, events)
    ensures Spaced(t, issuer, discovery)
    decreases |events|
  {
    if events != [] {
      InvNext(s, events[0], zero);
      SpacedNext(s, events[0], zero, issuer, discovery);
      SpacedRun(Next(s, events[0]), events[1..], t, zero, issuer, discovery);
    }
  }

  /** Without overlaps, probes of an issuer start more than 30 s apart, however many calls there are. */
  lemma ProbesRateLimited(events: seq<Event>, t: State, zero: int, issuer: string, discovery: string, i: nat)
    requires Run(Start(zero), events, t) && OneAtATime(Start(zero), issuer, discovery, events)
    requires 0 < i < |t.finished|
    ensures t.finished[i].start - t.finished[i - 1].start > 30_000_000_000
  {
    SpacedRun(Start(zero), events, t, zero, issuer, discovery);
    assert Apart(t.finished, i);
  }

  lemma {:induction false} SpacedStarts(s: State, issuer: string, discovery: string, i: nat, j: nat)
    requires Spaced(s, issuer, discovery) && i <= j < |s.finished|
    ensures s.finished[i].start <= s.finished[j].start
  {
    if i < j {
      assert Apart(s.finished, j);
      SpacedStarts(s, issuer, discovery, i, j - 1);
    }
  }

  /** Without overlaps it always gets the result of the most recent probe. */
  lemma LatestServedAlone(events: seq<Event>, t: State, zero: int, call: Call)
    requires Run(Start(zero), events, t) && OneAtATime(Start(zero), call.issuer, call.discovery, events)
    requires call.issuer != "" && Hit(t.cache, call)
    ensures exists i: nat :: MostRecent(t.finished, call, i) && t.cache == Stored(t.finished[i])
  {
    SpacedRun(Start(zero), events, t, zero, call.issuer, call.discovery);
    forall j | 0 <= j < |t.finished| ensures t.finished[j].start <= t.finished[|t.finished| - 1].start {
      SpacedStarts(t, call.issuer, call.discovery, j, |t.finished| - 1);
    }
    ServedIffLastFresh(events, t, zero, call);
    InvRun(Start(zero), events, t, zero);
    assert MostRecent(t.finished, call, |t.finished| - 1);
  }
}
