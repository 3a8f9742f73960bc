/**
 The host status kept in the repository beside the registry.

 Registration and heartbeat write "online", deregistration and cleanup write
 "offline", each after leaving its critical section.  So every write may land
 late, and the writes for a host may land in any order.
 */
module HostStatus {
  import opened Basics
  import opened Registry

  /** The status a step writes for host `h`, if any; true is "online". */
  function Issued(s: State, step: Step, h: HostId): Option<bool> {
    match step
    case Register(Some(k), _, _, _) => if k == h then Some(true) else None
    case Heartbeat(a, _, _, _) => if a in s.agents && s.agents[a].hostId == h then Some(true) else None
    case Deregister(a) => if a in s.agents && s.agents[a].hostId == h then Some(false) else None
    case Cleanup(now, timeout) => if h in StaleHosts(s, now - timeout) then Some(false) else None
    case _ => None
  }

  /** A step changes the index at a host exactly as it writes its status. */
  lemma IndexFollowsWrite(s: State, step: Step, h: HostId)
    requires Owned(s)
    ensures h in Apply(s, step).hostIndex <==>
            if Issued(s, step, h).Some? then Issued(s, step, h).value else h in s.hostIndex
  {
  }

  // ------------------------------------------------------------------------
  // Every write lands before the next step
  // ------------------------------------------------------------------------

  function OnlineAfter(steps: seq<Step>, h: HostId): bool {
    if steps == [] then false
    else
      var init := steps[..|steps| - 1];
      var write := Issued(Run(EMPTY, init), steps[|steps| - 1], h);
      if write.Some? then write.value else OnlineAfter(init, h)
  }

  /** With prompt writes, a host is "online" exactly when the index knows it, over
      all five kinds of step and with agent IDs reused freely. */
  lemma {:induction false} OnlineIffIndexed(steps: seq<Step>, h: HostId)
    ensures OnlineAfter(steps, h) <==> h in Run(EMPTY, steps).hostIndex
  {
    if steps != [] {
      var init := steps[..|steps| - 1];
      OnlineIffIndexed(init, h);
      RunKeepsOwned(EMPTY, init);
      IndexFollowsWrite(Run(EMPTY, init), steps[|steps| - 1], h);
    }
  }

  // ------------------------------------------------------------------------
  // Writes land late
  // ------------------------------------------------------------------------

  /** `online` holds the hosts whose row says "online"; `pending` each host's
      outstanding writes, in the order in which they were issued. */
  datatype System = System(reg: State, online: set<HostId>, pending: map<HostId, seq<bool>>)

  const START := System(EMPTY, {}, map[])

  /** `Land(h, k)` is the landing of the `k`-th outstanding write of host `h`. */
  datatype Event = Handle(step: Step) | Land(host: HostId, k: nat)

  function Queue(sys: System, h: HostId): seq<bool> {
    if h in sys.pending then sys.pending[h] else []
  }

  /** The hosts a step can write. */
  function Touched(s: State, step: Step): set<HostId> {
    (set a | a in s.agents :: s.agents[a].hostId)
    + if step.Register? && step.host.Some? then {step.host.value} else {}
  }

  function Enqueued(sys: System, step: Step): map<HostId, seq<bool>> {
    map h | h in sys.pending.Keys + Touched(sys.reg, step) ::
      Queue(sys, h) + if Issued(sys.reg, step, h).Some? then [Issued(sys.reg, step, h).value] else []
  }

  function Advance(sys: System, e: Event): System {
    match e
    case Handle(step) => System(Apply(sys.reg, step), sys.online, Enqueued(sys, step))
    case Land(h, k) =>
      var q := Queue(sys, h);
      if k < |q|
      then sys.(online := if q[k] then sys.online + {h} else sys.online - {h},
                pending := sys.pending[h := q[..k] + q[k + 1..]])
      else sys
  }

  function Trace(sys: System, events: seq<Event>): System {
    if events == [] then sys else Advance(Trace(sys, events[..|events| - 1]), events[|events| - 1])
  }

  lemma {:induction false} TraceKeepsOwned(sys: System, events: seq<Event>)
    requires Owned(sys.reg)
    ensures Owned(Trace(sys, events).reg)
  {
    if events != [] {
      var n := |events| - 1;
      TraceKeepsOwned(sys, events[..n]);
      if events[n].Handle? {
        StepKeepsOwned(Trace(sys, events[..n]).reg, events[n].step);
      }
    }
  }

  /** What an event does to one host's queue, row and index entry. */
  lemma HandledAt(sys: System, step: Step, h: HostId)
    requires Owned(sys.reg)
    ensures var sys', w := Advance(sys, Handle(step)), Issued(sys.reg, step, h);
            && Queue(sys', h) == (if w.Some? then Queue(sys, h) + [w.value] else Queue(sys, h))
            && (h in sys'.online <==> h in sys.online)
            && (h in sys'.reg.hostIndex <==> if w.Some? then w.value else h in sys.reg.hostIndex)
  {
    IndexFollowsWrite(sys.reg, step, h);
    if Issued(sys.reg, step, h).Some? {
      assert h in Touched(sys.reg, step);
    }
  }

  // ------------------------------------------------------------------------
  // Agreement of row and index
  // ------------------------------------------------------------------------

  ghost predicate AgreesAt(sys: System, h: HostId) {
    h in sys.online <==> h in sys.reg.hostIndex
  }

  /** The events that upset an agreeing host: a step that adds it to the index or
      takes it out, and the landing of a write that contradicts the index. */
  ghost predicate Upsets(sys: System, e: Event, h: HostId) {
    var indexed := h in sys.reg.hostIndex;
    match e
    case Handle(step) => Issued(sys.reg, step, h) == Some(!indexed)
    case Land(host, k) => host == h && k < |Queue(sys, h)| && Queue(sys, h)[k] == !indexed
  }

  /** Agreement at a host survives an event exactly when the event does not upset it. */
  lemma AgreementKeptIff(sys: System, e: Event, h: HostId)
    requires Owned(sys.reg) && AgreesAt(sys, h)
    ensures AgreesAt(Advance(sys, e), h) <==> !Upsets(sys, e, h)
  {
    if e.Handle? {
      HandledAt(sys, e.step, h);
    }
  }

  /** The status `h` ends with once its outstanding writes have landed in order. */
  function FinalWord(sys: System, h: HostId): bool {
    var q := Queue(sys, h);
    if q != [] then q[|q| - 1] else h in sys.online
  }

  ghost predicate Sound(sys: System, h: HostId) {
    FinalWord(sys, h) <==> h in sys.reg.hostIndex
  }

  /** The newest write of `h` lands before the one issued just before it, which
      says the opposite. */
  predicate Overtakes(sys: System, e: Event, h: HostId) {
    var q := Queue(sys, h);
    e.Land? && e.host == h && 0 < e.k == |q| - 1 && q[e.k - 1] != q[e.k]
  }

  lemma SoundKeptIff(sys: System, e: Event, h: HostId)
    requires Owned(sys.reg) && Sound(sys, h)
    ensures Sound(Advance(sys, e), h) <==> !Overtakes(sys, e, h)
  {
    if e.Handle? {
      HandledAt(sys, e.step, h);
    } else {
      LandedWord(sys, e.host, e.k, h);
    }
  }

  /** A landing changes the final word only if it leaves an older, contrary write last. */
  lemma LandedWord(sys: System, host: HostId, k: nat, h: HostId)
    ensures FinalWord(Advance(sys, Land(host, k)), h) == FinalWord(sys, h) <==> !Overtakes(sys, Land(host, k), h)
    ensures Advance(sys, Land(host, k)).reg == sys.reg
  {
    var q := Queue(sys, h);
    if host == h && k < |q| {
      var rest := q[..k] + q[k + 1..];
      assert Queue(Advance(sys, Land(h, k)), h) == rest;
      if k < |q| - 1 {
        assert rest[|rest| - 1] == q[|q| - 1];
      } else if k > 0 {
        assert rest[|rest| - 1] == q[k - 1];
      }
    }
  }

  ghost predicate SoundThroughout(events: seq<Event>, h: HostId) {
    Sound(Trace(START, events), h) && (events == [] || SoundThroughout(events[..|events| - 1], h))
  }

  predicate NoneOvertakes(events: seq<Event>, h: HostId) {
    events == []
    || (!Overtakes(Trace(START, events[..|events| - 1]), events[|events| - 1], h)
        && NoneOvertakes(events[..|events| - 1], h))
  }

  /** Over every run with late writes: the row is always on its way to agreeing
      with the index exactly when no write overtakes a contrary one. */
  lemma {:induction false} SoundIffNoneOvertakes(events: seq<Event>, h: HostId)
    ensures SoundThroughout(events, h) <==> NoneOvertakes(events, h)
  {
    if events != [] {
      var n := |events| - 1;
      SoundIffNoneOvertakes(events[..n], h);
      TraceKeepsOwned(START, events[..n]);
      if Sound(Trace(START, events[..n]), h) {
        SoundKeptIff(Trace(START, events[..n]), events[n], h);
      }
    }
  }

  /** So in such a run row and index agree whenever no write is outstanding; in
      particular when the writes of a host land in the order of issue. */
  lemma SettledHostAgrees(events: seq<Event>, h: HostId)
    requires NoneOvertakes(events, h) && Queue(Trace(START, events), h) == []
    ensures AgreesAt(Trace(START, events), h)
  {
    SoundIffNoneOvertakes(events, h);
  }

  lemma {:induction false} InOrderNeverOvertakes(events: seq<Event>, h: HostId)
    requires forall i :: 0 <= i < |events| && events[i].Land? && events[i].host == h ==> events[i].k == 0
    ensures NoneOvertakes(events, h)
  {
    if events != [] {
      InOrderNeverOvertakes(events[..|events| - 1], h);
    }
  }

  // ------------------------------------------------------------------------
  // The order of landing matters
  // ------------------------------------------------------------------------

  /** Lands the first `n` outstanding writes of `h`, oldest first. */
  function LandFirst(h: HostId, n: nat): seq<Event> {
    seq(n, _ => Land(h, 0))
  }

  ghost predicate LandingsOnly(events: seq<Event>) {
    forall i :: 0 <= i < |events| ==> events[i].Land?
  }

  lemma {:induction false} FirstLanded(sys: System, h: HostId, n: nat)
    requires n <= |Queue(sys, h)|
    ensures var sys' := Trace(sys, LandFirst(h, n));
            && sys'.reg == sys.reg && Queue(sys', h) == Queue(sys, h)[n..]
            && (n > 0 ==> (h in sys'.online <==> Queue(sys, h)[n - 1]))
  {
    if n > 0 {
      FirstLanded(sys, h, n - 1);
      assert LandFirst(h, n)[..n - 1] == LandFirst(h, n - 1);
      var mid := Trace(sys, LandFirst(h, n - 1));
      assert Queue(Advance(mid, Land(h, 0)), h) == Queue(mid, h)[1..];
    }
  }

  lemma {:induction false} TraceAppend(sys: System, a: seq<Event>, b: seq<Event>)
    ensures Trace(sys, a + b) == Trace(Trace(sys, a), b)
  {
    if b == [] {
      assert a + b == a;
    } else {
      TraceAppend(sys, a, b[..|b| - 1]);
      assert (a + b)[..|a + b| - 1] == a + b[..|b| - 1];
    }
  }

  /** From any state, reached or not, in which a write contrary to the index is
      outstanding, the writes of the host can land so that the row is wrong with
      nothing left to correct it. */
  lemma ContraryWriteCanWin(sys: System, h: HostId, k: nat) returns (events: seq<Event>)
    requires k < |Queue(sys, h)| && Queue(sys, h)[k] != (h in sys.reg.hostIndex)
    ensures var sys' := Trace(sys, events);
            sys'.reg == sys.reg && Queue(sys', h) == [] && !AgreesAt(sys', h)
    ensures LandingsOnly(events)
  {
    FirstLanded(sys, h, k);
    var mid := Trace(sys, LandFirst(h, k));
    var rest := LandRest(mid, h);
    events := LandFirst(h, k) + rest;
    TraceAppend(sys, LandFirst(h, k), rest);
  }

  /** Lands the newest outstanding write first and the oldest last. */
  lemma {:induction false} LandRest(sys: System, h: HostId) returns (events: seq<Event>)
    requires Queue(sys, h) != []
    ensures var sys' := Trace(sys, events);
            sys'.reg == sys.reg && Queue(sys', h) == [] && (h in sys'.online <==> Queue(sys, h)[0])
    ensures LandingsOnly(events)
    decreases |Queue(sys, h)|
  {
    var q := Queue(sys, h);
    var newest := Land(h, |q| - 1);
    var next := Advance(sys, newest);
    assert Queue(next, h) == q[..|q| - 1];
    assert [newest][..0] == [];
    assert Trace(sys, [newest]) == next;
    if |q| == 1 {
      events := [newest];
    } else {
      var rest := LandRest(next, h);
      events := [newest] + rest;
      TraceAppend(sys, [newest], rest);
    }
  }

  /** Every outstanding write of `h` says what the index says, and so does the row
      if none is outstanding. */
  ghost predicate Unanimous(sys: System, h: HostId) {
    var q, indexed := Queue(sys, h), h in sys.reg.hostIndex;
    if q == [] then AgreesAt(sys, h) else forall i :: 0 <= i < |q| ==> q[i] == indexed
  }

  lemma {:induction false} LandingsKeepUnanimous(sys: System, events: seq<Event>, h: HostId)
    requires Unanimous(sys, h) && LandingsOnly(events)
    ensures Unanimous(Trace(sys, events), h)
  {
    if events != [] {
      var n := |events| - 1;
      LandingsKeepUnanimous(sys, events[..n], h);
      LandingKeepsUnanimous(Trace(sys, events[..n]), events[n].host, events[n].k, h);
    }
  }

  lemma LandingKeepsUnanimous(sys: System, host: HostId, k: nat, h: HostId)
    requires Unanimous(sys, h)
    ensures Unanimous(Advance(sys, Land(host, k)), h)
  {
    if host == h && k < |Queue(sys, h)| {
      var q := Queue(sys, h);
      assert Queue(Advance(sys, Land(h, k)), h) == q[..k] + q[k + 1..];
    }
  }

  /** Exactly when the order of landing does not matter: the writes of a host
      settle in agreement in every order if and only if they are unanimous. */
  lemma SettlesInEveryOrderIff(sys: System, h: HostId)
    ensures (forall events :: LandingsOnly(events) && Queue(Trace(sys, events), h) == [] ==>
               AgreesAt(Trace(sys, events), h))
            <==> Unanimous(sys, h)
  {
    if Unanimous(sys, h) {
      forall events | LandingsOnly(events) && Queue(Trace(sys, events), h) == []
        ensures AgreesAt(Trace(sys, events), h)
      {
        LandingsKeepUnanimous(sys, events, h);
      }
    } else if Queue(sys, h) == [] {
      assert LandingsOnly([]) && Trace(sys, []) == sys;
    } else {
      var k :| 0 <= k < |Queue(sys, h)| && Queue(sys, h)[k] != (h in sys.reg.hostIndex);
      var events := ContraryWriteCanWin(sys, h, k);
      assert LandingsOnly(events) && !AgreesAt(Trace(sys, events), h);
    }
  }

  // ------------------------------------------------------------------------
  // Recovery
  // ------------------------------------------------------------------------

  ghost predicate Recovering(sys: System, h: HostId) {
    && Owned(sys.reg)
    && h in sys.reg.hostIndex
    && false !in Queue(sys, h)
    && (Queue(sys, h) == [] ==> h in sys.online)
  }

  lemma RecoveringStep(sys: System, e: Event, h: HostId)
    requires Recovering(sys, h) && false !in Queue(Advance(sys, e), h)
    ensures Recovering(Advance(sys, e), h)
    ensures h in sys.online || (e.Land? && e.host == h && e.k < |Queue(sys, h)|) ==> h in Advance(sys, e).online
  {
    if e.Handle? {
      StepKeepsOwned(sys.reg, e.step);
      HandledAt(sys, e.step, h);
    } else if e.host == h && e.k < |Queue(sys, h)| {
      assert Queue(sys, h)[e.k] in Queue(sys, h);
    }
  }

  /** No "offline" write for `h` is outstanding at any point of the run. */
  ghost predicate NoOffline(sys: System, events: seq<Event>, h: HostId) {
    false !in Queue(Trace(sys, events), h) && (events == [] || NoOffline(sys, events[..|events| - 1], h))
  }

  /** The run lands a write of `h`. */
  ghost predicate Lands(sys: System, events: seq<Event>, h: HostId) {
    events != []
    && (var init, e := events[..|events| - 1], events[|events| - 1];
        Lands(sys, init, h) || (e.Land? && e.host == h && e.k < |Queue(Trace(sys, init), h)|))
  }

  lemma {:induction false} RecoveringRun(sys: System, events: seq<Event>, h: HostId)
    requires Recovering(sys, h) && NoOffline(sys, events, h)
    ensures Recovering(Trace(sys, events), h)
    ensures Lands(sys, events, h) ==> h in Trace(sys, events).online
  {
    if events != [] {
      var n := |events| - 1;
      RecoveringRun(sys, events[..n], h);
      RecoveringStep(Trace(sys, events[..n]), events[n], h);
    }
  }

  /** After any history, whatever has overtaken what, the next heartbeat of a
      host's live agent with no "offline" write outstanding restores agreement as
      soon as a write of that host lands, and it lasts until an "offline" write
      is issued. */
  lemma HeartbeatRestores(past: seq<Event>, a: AgentId, health: Health, failing: bool, now: int, next: seq<Event>)
    requires a in Trace(START, past).reg.agents
    requires var sys := Trace(START, past);
             NoOffline(Advance(sys, Handle(Heartbeat(a, health, failing, now))), next, sys.reg.agents[a].hostId)
    ensures var sys := Trace(START, past);
            var h := sys.reg.agents[a].hostId;
            var sys1 := Advance(sys, Handle(Heartbeat(a, health, failing, now)));
            var sys2 := Trace(sys1, next);
            && h in sys2.reg.hostIndex
            && (Lands(sys1, next, h) || Queue(sys2, h) == [] ==> AgreesAt(sys2, h))
  {
    var sys := Trace(START, past);
    TraceKeepsOwned(START, past);
    var h := sys.reg.agents[a].hostId;
    var step := Heartbeat(a, health, failing, now);
    StepKeepsOwned(sys.reg, step);
    HandledAt(sys, step, h);
    NoOfflineFirst(Advance(sys, Handle(step)), next, h);
    RecoveringRun(Advance(sys, Handle(step)), next, h);
  }

  lemma {:induction false} NoOfflineFirst(sys: System, events: seq<Event>, h: HostId)
    requires NoOffline(sys, events, h)
    ensures false !in Queue(sys, h)
  {
    if events != [] {
      NoOfflineFirst(sys, events[..|events| - 1], h);
    }
  }

  /** A live agent is swept and its host registers again: two contrary writes are outstanding. */
  lemma SweptAndBack(sys: System, a: AgentId, now: int, timeout: int)
    requires Owned(sys.reg) && a in sys.reg.agents && a != "" && sys.reg.agents[a].lastSeen < now - timeout
    ensures var h := sys.reg.agents[a].hostId;
            var sys' := Advance(Advance(sys, Handle(Cleanup(now, timeout))), Handle(Register(Some(h), a, "", now)));
            h in sys'.reg.hostIndex && Queue(sys', h) == Queue(sys, h) + [false, true]
  {
    var h := sys.reg.agents[a].hostId;
    var sweep, back := Cleanup(now, timeout), Register(Some(h), a, "", now);
    assert Issued(sys.reg, sweep, h) == Some(false);
    HandledAt(sys, sweep, h);
    StepKeepsOwned(sys.reg, sweep);
    HandledAt(Advance(sys, Handle(sweep)), back, h);
  }

  /** Overtaking strands a host: after any history with a live agent that a cleanup
      then drops, the cleanup's write can land after that of the host's next
      registration, so that a registered host is "offline" with no write outstanding. */
  lemma LateCleanupStrands(past: seq<Event>, a: AgentId, now: int, timeout: int) returns (next: seq<Event>)
    requires var s := Trace(START, past).reg; a in s.agents && a != "" && s.agents[a].lastSeen < now - timeout
    ensures var h := Trace(START, past).reg.agents[a].hostId;
            var sys := Trace(START, past + next);
            h in sys.reg.hostIndex && h !in sys.online && Queue(sys, h) == []
  {
    var sys := Trace(START, past);
    TraceKeepsOwned(START, past);
    SweptAndBack(sys, a, now, timeout);
    var h := sys.reg.agents[a].hostId;
    var first := [Handle(Cleanup(now, timeout)), Handle(Register(Some(h), a, "", now))];
    RunTwo(sys, first[0], first[1]);
    var rest := ContraryWriteCanWin(Trace(sys, first), h, |Queue(sys, h)|);
    next := first + rest;
    TraceAppend(sys, first, rest);
    TraceAppend(START, past, next);
  }

  lemma RunTwo(sys: System, e0: Event, e1: Event)
    ensures Trace(sys, [e0, e1]) == Advance(Advance(sys, e0), e1)
  {
    assert [e0, e1][..1] == [e0];
    assert [e0][..0] == [];
    assert Trace(sys, [e0]) == Advance(sys, e0);
  }
}
