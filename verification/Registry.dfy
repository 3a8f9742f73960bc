/**
 The gateway's agent registry as a state machine.

 Two maps are kept by hand: `agents` (agent ID to connection) and `hostIndex`
 (host ID to agent ID).  Every critical section that touches them is one step.
 A run is any finite sequence of steps, so messages may be lost (they never
 appear), delayed, repeated or reordered.
 */
module Registry {

  import opened Basics

  datatype LinkStatus = Connected | Degraded

  datatype Connection = Connection(
    agentId: AgentId,
    hostId: HostId,
    connectedAt: int,
    lastSeen: int,
    status: LinkStatus,
    health: Health)

  datatype State = State(agents: map<AgentId, Connection>, hostIndex: map<HostId, AgentId>)

  const EMPTY := State(map[], map[])

  /** The critical sections.  `Register` carries the outcome of the token lookup
      (`None` is the rejected request) and the UUID the gateway draws when the
      request names no agent. */
  datatype Step =
    | Register(host: Option<HostId>, requested: AgentId, drawn: AgentId, now: int)
    | Heartbeat(agent: AgentId, health: Health, failing: bool, now: int)
    | Inventory(agent: AgentId)
    | Deregister(agent: AgentId)
    | Cleanup(now: int, timeout: int)
    | Disconnect(agent: AgentId)

  function Resolve(requested: AgentId, drawn: AgentId): AgentId {
    if requested == "" then drawn else requested
  }

  function RegisterAs(s: State, host: HostId, agent: AgentId, now: int): State {
    var kept := if host in s.hostIndex then s.agents - {s.hostIndex[host]} else s.agents;
    State(kept[agent := Connection(agent, host, now, now, Connected, Healthy)], s.hostIndex[host := agent])
  }

  function Touch(s: State, agent: AgentId, health: Health, failing: bool, now: int): State {
    if agent in s.agents then
      var status := if failing then Degraded else Connected;
      s.(agents := s.agents[agent := s.agents[agent].(lastSeen := now, health := health, status := status)])
    else s
  }

  function Remove(s: State, agent: AgentId): State {
    if agent in s.agents
    then State(s.agents - {agent}, s.hostIndex - {s.agents[agent].hostId})
    else s
  }

  function Stale(s: State, threshold: int): set<AgentId> {
    set a | a in s.agents && s.agents[a].lastSeen < threshold
  }

  function StaleHosts(s: State, threshold: int): set<HostId> {
    set a | a in s.agents && s.agents[a].lastSeen < threshold :: s.agents[a].hostId
  }

  function Sweep(s: State, threshold: int): State {
    State(s.agents - Stale(s, threshold), s.hostIndex - StaleHosts(s, threshold))
  }

  function Apply(s: State, step: Step): State {
    match step
    case Register(None, _, _, _) => s
    case Register(Some(host), requested, drawn, now) => RegisterAs(s, host, Resolve(requested, drawn), now)
    case Heartbeat(agent, health, failing, now) => Touch(s, agent, health, failing, now)
    case Inventory(_) => s
    case Deregister(agent) => Remove(s, agent)
    case Cleanup(now, timeout) => Sweep(s, now - timeout)
    case Disconnect(agent) => s.(agents := s.agents - {agent})
  }

  function Run(s: State, steps: seq<Step>): State {
    if steps == [] then s else Apply(Run(s, steps[..|steps| - 1]), steps[|steps| - 1])
  }

  // ------------------------------------------------------------------------
  // The half of the map invariant that every step keeps
  // ------------------------------------------------------------------------

  /** The index entry of a live agent's host names that agent. */
  ghost predicate Owned(s: State) {
    forall a :: a in s.agents ==>
      var c := s.agents[a];
      c.agentId == a && c.hostId in s.hostIndex && s.hostIndex[c.hostId] == a
  }

  lemma StepKeepsOwned(s: State, step: Step)
    requires Owned(s)
    ensures Owned(Apply(s, step))
  {
    if step.Cleanup? {
      SweepKeepsOwned(s, step.now - step.timeout);
    }
  }

  lemma SweepKeepsOwned(s: State, threshold: int)
    requires Owned(s)
    ensures Owned(Sweep(s, threshold))
  {
    var s' := Sweep(s, threshold);
    forall a | a in s'.agents
      ensures s.agents[a].hostId in s'.hostIndex
    {
      assert s.agents[a].hostId !in StaleHosts(s, threshold);
    }
  }

  lemma {:induction false} RunKeepsOwned(s: State, steps: seq<Step>)
    requires Owned(s)
    ensures Owned(Run(s, steps))
  {
    if steps != [] {
      RunKeepsOwned(s, steps[..|steps| - 1]);
      StepKeepsOwned(Run(s, steps[..|steps| - 1]), steps[|steps| - 1]);
    }
  }

  /** In every run, agent IDs reused freely, no host has two live agents. */
  lemma OneAgentPerHost(steps: seq<Step>, a: AgentId, b: AgentId)
    ensures var s := Run(EMPTY, steps);
            a in s.agents && b in s.agents && s.agents[a].hostId == s.agents[b].hostId ==> a == b
    ensures var s := Run(EMPTY, steps);
            a in s.agents ==> s.agents[a].agentId == a
                              && s.agents[a].hostId in s.hostIndex
                              && s.hostIndex[s.agents[a].hostId] == a
  {
    RunKeepsOwned(EMPTY, steps);
  }

  // ------------------------------------------------------------------------
  // The half that needs assumptions: index entries that lead nowhere
  // ------------------------------------------------------------------------

  ghost predicate LeadsHome(s: State, h: HostId)
    requires h in s.hostIndex
  {
    s.hostIndex[h] in s.agents && s.agents[s.hostIndex[h]].hostId == h
  }

  /** Hosts whose index entry names a dead agent or an agent of another host. */
  ghost function Dangling(s: State): set<HostId> {
    set h | h in s.hostIndex && !LeadsHome(s, h)
  }

  /** The live agent `a` works for a host other than `h`. */
  predicate LiveElsewhere(s: State, a: AgentId, h: HostId) {
    a in s.agents && s.agents[a].hostId != h
  }

  /** The hosts whose entries a step leaves dangling: the previous host of a live
      agent that registers under another host, the host of a live agent evicted
      through a stale entry of `h`, the host of a disconnected live agent. */
  function Broken(s: State, step: Step): set<HostId> {
    match step
    case Register(Some(h), requested, drawn, _) =>
      var a := Resolve(requested, drawn);
      (if LiveElsewhere(s, a, h) then {s.agents[a].hostId} else {})
      + (if h in s.hostIndex && LiveElsewhere(s, s.hostIndex[h], h) then {s.agents[s.hostIndex[h]].hostId} else {})
    case Disconnect(a) => if a in s.agents then {s.agents[a].hostId} else {}
    case _ => {}
  }

  function Healed(step: Step): set<HostId> {
    if step.Register? && step.host.Some? then {step.host.value} else {}
  }

  /** Exactly how each step changes the set of dangling hosts. */
  lemma DanglingAfter(s: State, step: Step)
    requires Owned(s)
    ensures Dangling(Apply(s, step)) == (Dangling(s) - Healed(step)) + Broken(s, step)
  {
    var s' := Apply(s, step);
    match step
    case Register(Some(h), requested, drawn, now) =>
      RegisterDangling(s, h, Resolve(requested, drawn), now, step);
    case Register(None, _, _, _) =>
    case Inventory(_) =>
    case Heartbeat(_, _, _, _) =>
      assert forall k :: k in s.hostIndex ==> (LeadsHome(s, k) <==> LeadsHome(s', k));
    case Deregister(a) =>
      assert forall k :: k in s'.hostIndex ==> (LeadsHome(s, k) <==> LeadsHome(s', k));
    case Cleanup(now, timeout) =>
      SweepDangling(s, now - timeout);
    case Disconnect(a) =>
      assert forall k :: k in s'.hostIndex && !(a in s.agents && k == s.agents[a].hostId) ==>
          (LeadsHome(s, k) <==> LeadsHome(s', k));
  }

  lemma RegisterDangling(s: State, h: HostId, a: AgentId, now: int, step: Step)
    requires Owned(s)
    requires step.Register? && step.host == Some(h) && Resolve(step.requested, step.drawn) == a
    ensures Dangling(RegisterAs(s, h, a, now)) == (Dangling(s) - {h}) + Broken(s, step)
  {
    var s' := RegisterAs(s, h, a, now);
    forall k
      ensures k in Dangling(s') <==> k in (Dangling(s) - {h}) + Broken(s, step)
    {
      if k in s.hostIndex && k != h {
        assert s'.hostIndex[k] == s.hostIndex[k];
      }
    }
  }

  lemma SweepDangling(s: State, threshold: int)
    requires Owned(s)
    ensures Dangling(Sweep(s, threshold)) == Dangling(s)
  {
    var s' := Sweep(s, threshold);
    forall h | h in s.hostIndex
      ensures h in Dangling(s') <==> h in Dangling(s)
    {
      if h in StaleHosts(s, threshold) {
        var a :| a in s.agents && s.agents[a].lastSeen < threshold && s.agents[a].hostId == h;
        assert s.hostIndex[h] == a;
      } else if LeadsHome(s, h) {
        assert s.hostIndex[h] !in Stale(s, threshold);
      }
    }
  }

  /** A step that neither disconnects a live agent nor registers a live agent ID
      under another host. */
  predicate Benign(s: State, step: Step) {
    match step
    case Register(Some(h), requested, drawn, _) => !LiveElsewhere(s, Resolve(requested, drawn), h)
    case Disconnect(a) => a !in s.agents
    case _ => true
  }

  /** No index entry dangles after any prefix of the run. */
  ghost predicate CoherentThroughout(steps: seq<Step>) {
    Dangling(Run(EMPTY, steps)) == {} && (steps == [] || CoherentThroughout(steps[..|steps| - 1]))
  }

  /** Every step of the run is benign where it is taken. */
  ghost predicate BenignThroughout(steps: seq<Step>) {
    steps == []
    || (Benign(Run(EMPTY, steps[..|steps| - 1]), steps[|steps| - 1]) && BenignThroughout(steps[..|steps| - 1]))
  }

  /** No index entry ever dangles in a run exactly when every step of it is benign. */
  lemma {:induction false} CoherentIffBenign(steps: seq<Step>)
    ensures CoherentThroughout(steps) <==> BenignThroughout(steps)
  {
    if steps == [] {
      assert Dangling(EMPTY) == {};
    } else {
      var init, last := steps[..|steps| - 1], steps[|steps| - 1];
      var s := Run(EMPTY, init);
      CoherentIffBenign(init);
      RunKeepsOwned(EMPTY, init);
      DanglingAfter(s, last);
      if Dangling(s) == {} {
        BenignIffUnbroken(s, last);
      }
    }
  }

  lemma BenignIffUnbroken(s: State, step: Step)
    requires Dangling(s) == {}
    ensures Benign(s, step) <==> Broken(s, step) == {}
  {
    if step.Register? && step.host.Some? && step.host.value in s.hostIndex {
      var h := step.host.value;
      assert h !in Dangling(s);
      assert LeadsHome(s, h);
    }
  }

  // ------------------------------------------------------------------------
  // Lookup by host against a linear scan of the connections
  // ------------------------------------------------------------------------

  /** `Nil` is a hit that carries no connection. */
  datatype Lookup = NotFound | Found(conn: Connection) | Nil

  function ByHost(s: State, h: HostId): Lookup {
    if h !in s.hostIndex then NotFound
    else if s.hostIndex[h] in s.agents then Found(s.agents[s.hostIndex[h]])
    else Nil
  }

  ghost function Scan(s: State, h: HostId): Lookup {
    if exists a :: a in s.agents && s.agents[a].hostId == h
    then var a :| a in s.agents && s.agents[a].hostId == h; Found(s.agents[a])
    else NotFound
  }

  /** The index answers like the scan exactly at the hosts that do not dangle;
      at a dangling host it yields a nil connection or another host's agent. */
  lemma LookupIffNotDangling(s: State, h: HostId)
    requires Owned(s)
    ensures ByHost(s, h) == Scan(s, h) <==> h !in Dangling(s)
    ensures h in Dangling(s) <==> ByHost(s, h).Nil? || (ByHost(s, h).Found? && ByHost(s, h).conn.hostId != h)
  {
    if h in s.hostIndex && LeadsHome(s, h) {
      assert s.hostIndex[h] in s.agents;
    }
  }

  /** In a benign run the lookup is the scan, and is never a nil connection. */
  lemma BenignRunLookup(steps: seq<Step>, h: HostId)
    requires BenignThroughout(steps)
    ensures ByHost(Run(EMPTY, steps), h) == Scan(Run(EMPTY, steps), h)
    ensures !ByHost(Run(EMPTY, steps), h).Nil?
  {
    CoherentIffBenign(steps);
    RunKeepsOwned(EMPTY, steps);
    LookupIffNotDangling(Run(EMPTY, steps), h);
  }

  lemma {:induction false} BenignPrefix(steps: seq<Step>, n: nat)
    requires n <= |steps| && BenignThroughout(steps)
    ensures BenignThroughout(steps[..n])
  {
    if n == |steps| {
      assert steps[..n] == steps;
    } else {
      var init := steps[..|steps| - 1];
      BenignPrefix(init, n);
      assert init[..n] == steps[..n];
    }
  }

  // ------------------------------------------------------------------------
  // Nil connections
  // ------------------------------------------------------------------------

  /** Hosts whose index entry names no live agent. */
  function Nils(s: State): set<HostId> {
    set h | h in s.hostIndex && s.hostIndex[h] !in s.agents
  }

  /** The hosts other than its own whose entries name the live agent `a`. */
  function AlsoNamed(s: State, a: AgentId): set<HostId>
    requires a in s.agents
  {
    set h | h in s.hostIndex && s.hostIndex[h] == a && h != s.agents[a].hostId
  }

  /** The hosts a step leaves with a nil connection: those that name an agent the
      step removes and whose entries it does not delete or rewrite.  A registration
      removes the agent that its host was indexed under, a forced disconnection
      leaves the agent's own host as well. */
  function Orphaned(s: State, step: Step): set<HostId> {
    match step
    case Register(Some(h), requested, drawn, _) =>
      if h in s.hostIndex && s.hostIndex[h] in s.agents && s.hostIndex[h] != Resolve(requested, drawn)
      then set k | k in s.hostIndex && s.hostIndex[k] == s.hostIndex[h] && k != h
      else {}
    case Deregister(a) => if a in s.agents then AlsoNamed(s, a) else {}
    case Cleanup(now, timeout) =>
      set h | h in s.hostIndex && s.hostIndex[h] in Stale(s, now - timeout) && s.agents[s.hostIndex[h]].hostId != h
    case Disconnect(a) => if a in s.agents then AlsoNamed(s, a) + {s.agents[a].hostId} else {}
    case _ => {}
  }

  /** A registration revives its host and every host indexed under its agent ID. */
  predicate Revives(s: State, step: Step, h: HostId) {
    && step.Register? && step.host.Some?
    && (h == step.host.value || (h in s.hostIndex && s.hostIndex[h] == Resolve(step.requested, step.drawn)))
  }

  function Revived(s: State, step: Step): set<HostId> {
    set h | h in Nils(s) && Revives(s, step, h)
  }

  /** Exactly how each step changes the set of hosts with a nil connection. */
  lemma NilsAfter(s: State, step: Step)
    requires Owned(s)
    ensures Nils(Apply(s, step)) == (Nils(s) - Revived(s, step)) + Orphaned(s, step)
  {
    forall h
      ensures h in Nils(Apply(s, step)) <==> h in (Nils(s) - Revived(s, step)) + Orphaned(s, step)
    {
      NilAfter(s, step, h);
    }
  }

  lemma NilAfter(s: State, step: Step, h: HostId)
    requires Owned(s)
    ensures h in Nils(Apply(s, step)) <==> (h in Nils(s) && h !in Revived(s, step)) || h in Orphaned(s, step)
  {
    if step.Cleanup? {
      NilAfterSweep(s, step.now - step.timeout, h);
    }
  }

  lemma NilAfterSweep(s: State, threshold: int, h: HostId)
    requires Owned(s)
    ensures h in Nils(Sweep(s, threshold)) <==>
            h in Nils(s)
            || (h in s.hostIndex && s.hostIndex[h] in Stale(s, threshold) && s.agents[s.hostIndex[h]].hostId != h)
  {
    if h in StaleHosts(s, threshold) {
      var a :| a in s.agents && s.agents[a].lastSeen < threshold && s.agents[a].hostId == h;
      assert s.hostIndex[h] == a;
    }
  }

  /** No host has a nil connection after any prefix of the run. */
  ghost predicate NilFreeThroughout(steps: seq<Step>) {
    Nils(Run(EMPTY, steps)) == {} && (steps == [] || NilFreeThroughout(steps[..|steps| - 1]))
  }

  /** No step of the run orphans a host where it is taken. */
  ghost predicate NoneOrphaned(steps: seq<Step>) {
    steps == []
    || (Orphaned(Run(EMPTY, steps[..|steps| - 1]), steps[|steps| - 1]) == {} && NoneOrphaned(steps[..|steps| - 1]))
  }

  /** A run is free of nil connections throughout exactly when no step of it
      orphans a host. */
  lemma {:induction false} NilFreeIffNoneOrphaned(steps: seq<Step>)
    ensures NilFreeThroughout(steps) <==> NoneOrphaned(steps)
  {
    if steps != [] {
      var init, last := steps[..|steps| - 1], steps[|steps| - 1];
      NilFreeIffNoneOrphaned(init);
      RunKeepsOwned(EMPTY, init);
      NilsAfter(Run(EMPTY, init), last);
    }
  }

  lemma {:induction false} NoneOrphanedPrefix(steps: seq<Step>, n: nat)
    requires n <= |steps| && NoneOrphaned(steps)
    ensures NoneOrphaned(steps[..n]) && Nils(Run(EMPTY, steps[..n])) == {}
  {
    if n == |steps| {
      assert steps[..n] == steps;
      NilFreeIffNoneOrphaned(steps);
    } else {
      var init := steps[..|steps| - 1];
      NoneOrphanedPrefix(init, n);
      assert init[..n] == steps[..n];
    }
  }

  /** The lookup is a nil connection exactly at those hosts; they all dangle. */
  lemma LookupNilIff(s: State, h: HostId)
    ensures ByHost(s, h).Nil? <==> h in Nils(s)
    ensures Nils(s) <= Dangling(s)
  {
    forall k | k in Nils(s)
      ensures k in Dangling(s)
    {
      assert !LeadsHome(s, k);
    }
  }

  /** So no lookup of any host at any time of a run is a nil connection, and none is
      dereferenced, exactly when no step orphans a host. */
  lemma {:induction false} LookupsNeverNilIff(steps: seq<Step>)
    ensures (forall n, h :: 0 <= n <= |steps| ==> !ByHost(Run(EMPTY, steps[..n]), h).Nil?) <==> NoneOrphaned(steps)
  {
    if NoneOrphaned(steps) {
      forall n, h | 0 <= n <= |steps|
        ensures !ByHost(Run(EMPTY, steps[..n]), h).Nil?
      {
        NoneOrphanedPrefix(steps, n);
        LookupNilIff(Run(EMPTY, steps[..n]), h);
      }
    } else {
      var n, h := FirstNil(steps);
      LookupNilIff(Run(EMPTY, steps[..n]), h);
    }
  }

  lemma {:induction false} FirstNil(steps: seq<Step>) returns (n: nat, h: HostId)
    requires !NoneOrphaned(steps)
    ensures n <= |steps| && h in Nils(Run(EMPTY, steps[..n]))
  {
    var init, last := steps[..|steps| - 1], steps[|steps| - 1];
    if NoneOrphaned(init) {
      RunKeepsOwned(EMPTY, init);
      NilsAfter(Run(EMPTY, init), last);
      n := |steps|;
      assert steps[..n] == steps;
      h :| h in Orphaned(Run(EMPTY, init), last);
    } else {
      n, h := FirstNil(init);
      assert init[..n] == steps[..n];
    }
  }

  /** Benign runs orphan nobody. */
  lemma {:induction false} BenignOrphansNobody(steps: seq<Step>)
    requires BenignThroughout(steps)
    ensures NoneOrphaned(steps)
  {
    if steps != [] {
      var init, last := steps[..|steps| - 1], steps[|steps| - 1];
      BenignOrphansNobody(init);
      CoherentIffBenign(steps);
      RunKeepsOwned(EMPTY, init);
      NilsAfter(Run(EMPTY, init), last);
      LookupNilIff(Run(EMPTY, steps), 0);
    }
  }

  /** The converse fails: an agent that moves to a new host orphans nobody yet. */
  lemma MoveOrphansNobody(steps: seq<Step>, a: AgentId, k: HostId, now: int)
    requires NoneOrphaned(steps) && a in Run(EMPTY, steps).agents && a != "" && k !in Run(EMPTY, steps).hostIndex
    ensures var moved := steps + [Register(Some(k), a, "", now)];
            NoneOrphaned(moved) && !BenignThroughout(moved)
  {
    RunKeepsOwned(EMPTY, steps);
    assert (steps + [Register(Some(k), a, "", now)])[..|steps|] == steps;
  }

  /** An orphaned host keeps its nil connection until a registration for it or
      under the ID it is indexed under. */
  lemma {:induction false} NilUntilRevived(s: State, steps: seq<Step>, h: HostId)
    requires Owned(s) && h in Nils(s)
    requires forall i :: 0 <= i < |steps| ==> !Revives(s, steps[i], h)
    ensures h in Nils(Run(s, steps)) && Run(s, steps).hostIndex[h] == s.hostIndex[h]
  {
    if steps != [] {
      var n := |steps| - 1;
      NilUntilRevived(s, steps[..n], h);
      RunKeepsOwned(s, steps[..n]);
      NilAfter(Run(s, steps[..n]), steps[n], h);
      EntryKept(Run(s, steps[..n]), steps[n], h);
    }
  }

  /** In a run: a host orphaned by step `j` still has a nil connection at time `t`. */
  lemma OrphanedStaysNil(run: seq<Step>, j: nat, t: nat, h: HostId)
    requires j < t <= |run| && h in Orphaned(Run(EMPTY, run[..j]), run[j])
    requires forall m :: j < m < t ==> !Revives(Run(EMPTY, run[..j + 1]), run[m], h)
    ensures h in Nils(Run(EMPTY, run[..t]))
  {
    var first, rest := run[..j + 1], run[j + 1..t];
    RunKeepsOwned(EMPTY, run[..j]);
    assert first == run[..j] + [run[j]];
    RunSnoc(EMPTY, run[..j], run[j]);
    NilAfter(Run(EMPTY, run[..j]), run[j], h);
    RunKeepsOwned(EMPTY, first);
    NilUntilRevived(Run(EMPTY, first), rest, h);
    RunAppend(EMPTY, first, rest);
    assert first + rest == run[..t];
  }

  lemma EntryKept(s: State, step: Step, h: HostId)
    requires h in Nils(s) && h in Nils(Apply(s, step)) && !Revives(s, step, h)
    ensures Apply(s, step).hostIndex[h] == s.hostIndex[h]
  {
  }

  /** After any run and without any disconnection, a live agent that registers under
      a second host and then deregisters, or is dropped by a cleanup, leaves its
      first host with a nil connection. */
  lemma MovedAgentOrphans(steps: seq<Step>, a: AgentId, k: HostId, now: int, later: int, timeout: int)
    requires a in Run(EMPTY, steps).agents && a != "" && Run(EMPTY, steps).agents[a].hostId != k
    requires now < later - timeout
    ensures var h := Run(EMPTY, steps).agents[a].hostId;
            var moved := steps + [Register(Some(k), a, "", now)];
            && ByHost(Run(EMPTY, moved), h).Found?
            && ByHost(Run(EMPTY, moved + [Deregister(a)]), h) == Nil
            && ByHost(Run(EMPTY, moved + [Cleanup(later, timeout)]), h) == Nil
  {
    RunKeepsOwned(EMPTY, steps);
    var moved := steps + [Register(Some(k), a, "", now)];
    RunSnoc(EMPTY, steps, Register(Some(k), a, "", now));
    RunSnoc(EMPTY, moved, Deregister(a));
    RunSnoc(EMPTY, moved, Cleanup(later, timeout));
    RunKeepsOwned(EMPTY, moved);
    MovedAgentDropped(Run(EMPTY, moved), a, Run(EMPTY, steps).agents[a].hostId, later, timeout);
  }

  lemma MovedAgentDropped(s: State, a: AgentId, h: HostId, now: int, timeout: int)
    requires Owned(s) && h in s.hostIndex && s.hostIndex[h] == a
    requires a in s.agents && s.agents[a].hostId != h && s.agents[a].lastSeen < now - timeout
    ensures h in Nils(Apply(s, Deregister(a))) && h in Nils(Apply(s, Cleanup(now, timeout)))
  {
    NilAfter(s, Deregister(a), h);
    NilAfter(s, Cleanup(now, timeout), h);
  }

  /** After any run, disconnecting a live agent leaves its host with a nil connection. */
  lemma DisconnectLeavesNil(steps: seq<Step>, a: AgentId)
    requires a in Run(EMPTY, steps).agents
    ensures ByHost(Run(EMPTY, steps + [Disconnect(a)]), Run(EMPTY, steps).agents[a].hostId) == Nil
  {
    RunKeepsOwned(EMPTY, steps);
    RunSnoc(EMPTY, steps, Disconnect(a));
  }

  /** After any run and without any disconnect, a live agent `a` of host `h` that
      registers under a second host answers for both; a later registration for
      `h` by another agent then evicts it from the second. */
  lemma SecondHostEvicts(steps: seq<Step>, a: AgentId, k: HostId, b: AgentId, now: int)
    requires a in Run(EMPTY, steps).agents && a != "" && b != "" && a != b
    requires Run(EMPTY, steps).agents[a].hostId != k
    ensures var h := Run(EMPTY, steps).agents[a].hostId;
            var s1 := Run(EMPTY, steps + [Register(Some(k), a, "", now)]);
            var s2 := Run(EMPTY, steps + [Register(Some(k), a, "", now)] + [Register(Some(h), b, "", now)]);
            && ByHost(s1, h).Found? && ByHost(s1, h).conn.hostId == k && ByHost(s1, k) == ByHost(s1, h)
            && ByHost(s2, k) == Nil
  {
    RunKeepsOwned(EMPTY, steps);
    var h := Run(EMPTY, steps).agents[a].hostId;
    var second, third := Register(Some(k), a, "", now), Register(Some(h), b, "", now);
    RunSnoc(EMPTY, steps, second);
    RunSnoc(EMPTY, steps + [second], third);
  }

  // ------------------------------------------------------------------------
  // Superseded agents
  // ------------------------------------------------------------------------

  predicate SentBy(step: Step, a: AgentId) {
    match step
    case Heartbeat(b, _, _, _) => a == b
    case Inventory(b) => a == b
    case Deregister(b) => a == b
    case _ => false
  }

  predicate RegistersAs(step: Step, a: AgentId) {
    step.Register? && step.host.Some? && Resolve(step.requested, step.drawn) == a
  }

  function Without(steps: seq<Step>, a: AgentId): seq<Step> {
    if steps == [] then []
    else
      var init := Without(steps[..|steps| - 1], a);
      var last := steps[|steps| - 1];
      if SentBy(last, a) then init else init + [last]
  }

  lemma AbsentStep(s: State, a: AgentId, step: Step)
    requires a !in s.agents && !RegistersAs(step, a)
    ensures a !in Apply(s, step).agents
    ensures SentBy(step, a) ==> Apply(s, step) == s
  {
  }

  lemma {:induction false} RunAppend(s: State, a: seq<Step>, b: seq<Step>)
    ensures Run(s, a + b) == Run(Run(s, a), b)
  {
    if b == [] {
      assert a + b == a;
    } else {
      RunAppend(s, a, b[..|b| - 1]);
      assert (a + b)[..|a + b| - 1] == a + b[..|b| - 1];
    }
  }

  lemma RunSnoc(s: State, steps: seq<Step>, step: Step)
    ensures Run(s, steps + [step]) == Apply(Run(s, steps), step)
  {
    assert (steps + [step])[..|steps|] == steps;
  }

  lemma {:induction false} AbsentAgentIsSilent(s: State, a: AgentId, steps: seq<Step>)
    requires a !in s.agents
    requires forall k :: 0 <= k < |steps| ==> !RegistersAs(steps[k], a)
    ensures a !in Run(s, steps).agents
    ensures Run(s, steps) == Run(s, Without(steps, a))
  {
    if steps != [] {
      var n := |steps| - 1;
      AbsentAgentIsSilent(s, a, steps[..n]);
      AbsentStep(Run(s, steps[..n]), a, steps[n]);
      RunSnoc(s, Without(steps[..n], a), steps[n]);
    }
  }

  /** Once host `h` is registered under another agent ID, the heartbeats,
      inventories and deregistrations of the old ID can be erased from the run
      without changing any state, until the old ID registers again. */
  lemma SupersededAgentIsErased(s: State, h: HostId, requested: AgentId, drawn: AgentId, now: int, steps: seq<Step>)
    requires h in s.hostIndex && s.hostIndex[h] != Resolve(requested, drawn)
    requires forall k :: 0 <= k < |steps| ==> !RegistersAs(steps[k], s.hostIndex[h])
    ensures var a := s.hostIndex[h];
            var s1 := Apply(s, Register(Some(h), requested, drawn, now));
            && Run(s1, steps) == Run(s1, Without(steps, a))
            && a !in Run(s1, steps).agents
  {
    AbsentAgentIsSilent(Apply(s, Register(Some(h), requested, drawn, now)), s.hostIndex[h], steps);
  }

  // ------------------------------------------------------------------------
  // Staleness
  // ------------------------------------------------------------------------

  function Clock(start: int, step: Step): int {
    match step
    case Register(_, _, _, now) => now
    case Heartbeat(_, _, _, now) => now
    case Cleanup(now, _) => now
    case _ => start
  }

  function ClockAfter(start: int, steps: seq<Step>): int {
    if steps == [] then start else Clock(ClockAfter(start, steps[..|steps| - 1]), steps[|steps| - 1])
  }

  /** The clock never goes backwards. */
  ghost predicate Monotone(start: int, steps: seq<Step>) {
    forall k :: 0 <= k < |steps| ==> ClockAfter(start, steps[..k]) <= Clock(ClockAfter(start, steps[..k]), steps[k])
  }

  function LastCleanup(start: int, steps: seq<Step>): int {
    if steps == [] then start
    else
      var last := steps[|steps| - 1];
      if last.Cleanup? then last.now else LastCleanup(start, steps[..|steps| - 1])
  }

  lemma {:induction false} SeenSinceCleanup(start: int, steps: seq<Step>, timeout: nat)
    requires Monotone(start, steps)
    requires forall k :: 0 <= k < |steps| && steps[k].Cleanup? ==> steps[k].timeout == timeout
    ensures LastCleanup(start, steps) <= ClockAfter(start, steps)
    ensures forall a :: a in Run(EMPTY, steps).agents ==>
              LastCleanup(start, steps) - timeout <= Run(EMPTY, steps).agents[a].lastSeen <= ClockAfter(start, steps)
  {
    if steps != [] {
      var n := |steps| - 1;
      var init := steps[..n];
      assert forall k :: 0 <= k < n ==> init[..k] == steps[..k];
      assert Monotone(start, init) by {
        assert forall k :: 0 <= k < n ==> init[k] == steps[k];
      }
      SeenSinceCleanup(start, init, timeout);
      assert ClockAfter(start, steps[..n]) <= Clock(ClockAfter(start, steps[..n]), steps[n]);
    }
  }

  /** With cleanups at most `interval` apart, a registered agent was last seen at
      most `timeout + interval` ago. */
  lemma StalenessBound(start: int, steps: seq<Step>, timeout: nat, interval: nat, now: int, a: AgentId)
    requires Monotone(start, steps)
    requires forall k :: 0 <= k < |steps| && steps[k].Cleanup? ==> steps[k].timeout == timeout
    requires ClockAfter(start, steps) <= now <= LastCleanup(start, steps) + interval
    requires a in Run(EMPTY, steps).agents
    ensures 0 <= now - Run(EMPTY, steps).agents[a].lastSeen <= timeout + interval
  {
    SeenSinceCleanup(start, steps, timeout);
  }

  predicate Contact(step: Step, a: AgentId) {
    RegistersAs(step, a) || (step.Heartbeat? && step.agent == a)
  }

  /** When agent `a` last registered or sent a heartbeat, read off the run itself. */
  function LastContact(steps: seq<Step>, a: AgentId): Option<int> {
    if steps == [] then None
    else
      var last := steps[|steps| - 1];
      if Contact(last, a) then Some(Clock(0, last)) else LastContact(steps[..|steps| - 1], a)
  }

  /** `lastSeen` of a live agent is the time of its last contact in the run. */
  lemma {:induction false} LastSeenIsLastContact(steps: seq<Step>, a: AgentId)
    requires a in Run(EMPTY, steps).agents
    ensures LastContact(steps, a) == Some(Run(EMPTY, steps).agents[a].lastSeen)
  {
    var n := |steps| - 1;
    if !RegistersAs(steps[n], a) {
      assert a in Run(EMPTY, steps[..n]).agents;
      LastSeenIsLastContact(steps[..n], a);
    }
  }

  // ------------------------------------------------------------------------
  // What a connection says, read off the run
  // ------------------------------------------------------------------------

  /** What agent `a` last told the gateway: a registration stands for a healthy
      agent, a heartbeat for what it reports. */
  function LastReport(steps: seq<Step>, a: AgentId): Option<(Health, bool)> {
    if steps == [] then None
    else
      var last := steps[|steps| - 1];
      if RegistersAs(last, a) then Some((Healthy, false))
      else if last.Heartbeat? && last.agent == a then Some((last.health, last.failing))
      else LastReport(steps[..|steps| - 1], a)
  }

  /** The host and time of the last registration under the ID `a`. */
  function LastRegistration(steps: seq<Step>, a: AgentId): Option<(HostId, int)> {
    if steps == [] then None
    else
      var last := steps[|steps| - 1];
      if RegistersAs(last, a) then Some((last.host.value, last.now))
      else LastRegistration(steps[..|steps| - 1], a)
  }

  /** The agent ID of the last registration for host `h`. */
  function LastRegistered(steps: seq<Step>, h: HostId): Option<AgentId> {
    if steps == [] then None
    else
      var last := steps[|steps| - 1];
      if last.Register? && last.host == Some(h) then Some(Resolve(last.requested, last.drawn))
      else LastRegistered(steps[..|steps| - 1], h)
  }

  /** Every field of a live agent's connection: ID, host and time of connection are
      those of its last registration, health and status those of its last report,
      degraded exactly if that was a failing heartbeat, and last seen is its last
      contact. */
  lemma {:induction false} ConnectionIsHistory(steps: seq<Step>, a: AgentId)
    requires a in Run(EMPTY, steps).agents
    ensures var c := Run(EMPTY, steps).agents[a];
            && c.agentId == a
            && LastRegistration(steps, a) == Some((c.hostId, c.connectedAt))
            && LastReport(steps, a).Some? && c.health == LastReport(steps, a).value.0
            && (c.status == Degraded <==> LastReport(steps, a).value.1)
            && LastContact(steps, a) == Some(c.lastSeen)
  {
    var n := |steps| - 1;
    LastSeenIsLastContact(steps, a);
    if !RegistersAs(steps[n], a) {
      assert a in Run(EMPTY, steps[..n]).agents;
      ConnectionIsHistory(steps[..n], a);
    }
  }

  /** An indexed host is indexed under the agent ID that last registered for it. */
  lemma {:induction false} IndexIsHistory(steps: seq<Step>, h: HostId)
    requires h in Run(EMPTY, steps).hostIndex
    ensures LastRegistered(steps, h) == Some(Run(EMPTY, steps).hostIndex[h])
  {
    var n := |steps| - 1;
    var last := steps[n];
    if !(last.Register? && last.host == Some(h)) {
      assert h in Run(EMPTY, steps[..n]).hostIndex;
      IndexIsHistory(steps[..n], h);
    }
  }

  /** So a lookup that finds a connection finds that of the agent that last
      registered for the host, with the health it last reported. */
  lemma LookupIsHistory(steps: seq<Step>, h: HostId)
    requires ByHost(Run(EMPTY, steps), h).Found?
    ensures var c := ByHost(Run(EMPTY, steps), h).conn;
            && LastRegistered(steps, h) == Some(c.agentId)
            && LastReport(steps, c.agentId).Some? && c.health == LastReport(steps, c.agentId).value.0
  {
    var s := Run(EMPTY, steps);
    IndexIsHistory(steps, h);
    ConnectionIsHistory(steps, s.hostIndex[h]);
  }

  /** A cleanup keeps a live agent, untouched, exactly when its last registration
      or heartbeat lies within the timeout. */
  lemma CleanupIffSilent(steps: seq<Step>, now: int, timeout: nat, a: AgentId)
    requires a in Run(EMPTY, steps).agents
    ensures LastContact(steps, a).Some?
    ensures var s := Run(EMPTY, steps);
            var s' := Apply(s, Cleanup(now, timeout));
            && (a in s'.agents <==> now - timeout <= LastContact(steps, a).value)
            && (a in s'.agents ==> s'.agents[a] == s.agents[a] && ByHost(s', s.agents[a].hostId) == Found(s.agents[a]))
            && (a !in s'.agents ==> ByHost(s', s.agents[a].hostId) == NotFound)
  {
    LastSeenIsLastContact(steps, a);
    RunKeepsOwned(EMPTY, steps);
    var s := Run(EMPTY, steps);
    SweepKeepsOwned(s, now - timeout);
  }
}
