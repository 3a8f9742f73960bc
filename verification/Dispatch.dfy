/**
 Sending commands to agents: the table of pending commands, and the broadcast.
 */
module Dispatch {
  import opened Basics
  import opened Registry
  import opened GatewayServer
  import opened Subjects

  type CommandId = string

  /** How a command that has been entered in the table comes to its end. */
  datatype Outcome =
    | MarshalFailed
    | PublishFailed
    | Cancelled
    | TimedOut
    | BadReply
    | Replied(status: string)

  datatype Result =
    | Ok(status: string)
    | TimeoutResult
    | Failed(reason: Outcome)
    | Unavailable
    | NoReplyChannel
    | NilDereferenced

  function Answer(o: Outcome): Result {
    match o
    case Replied(status) => Ok(status)
    case TimedOut => TimeoutResult
    case _ => Failed(o)
  }

  // ------------------------------------------------------------------------
  // The pending table under concurrent commands
  // ------------------------------------------------------------------------

  datatype Table = Table(pending: set<CommandId>, inFlight: map<nat, CommandId>)

  const IDLE := Table({}, map[])

  /** `Begin` is a command that found an agent and a reply subscription and is
      entered in the table; `End` any way out of it. */
  datatype Step = Begin(op: nat, id: CommandId) | End(op: nat)

  function Advance(t: Table, step: Step): Table {
    match step
    case Begin(op, id) =>
      if op in t.inFlight then t else Table(t.pending + {id}, t.inFlight[op := id])
    case End(op) =>
      if op in t.inFlight then Table(t.pending - {t.inFlight[op]}, t.inFlight - {op}) else t
  }

  function Run(steps: seq<Step>): Table {
    if steps == [] then IDLE else Advance(Run(steps[..|steps| - 1]), steps[|steps| - 1])
  }

  /** In every run, IDs repeated or not, no entry outlives its command; so the
      table is empty whenever nothing is in flight. */
  lemma {:induction false} NoPendingLeak(steps: seq<Step>)
    ensures Run(steps).pending <= Run(steps).inFlight.Values
    ensures Run(steps).inFlight == map[] ==> Run(steps).pending == {}
  {
    if steps != [] {
      var n := |steps| - 1;
      NoPendingLeak(steps[..n]);
      var t, t' := Run(steps[..n]), Run(steps);
      forall id | id in t'.pending
        ensures id in t'.inFlight.Values
      {
        if id in t.pending {
          var op :| op in t.inFlight && t.inFlight[op] == id;
          assert op in t'.inFlight && t'.inFlight[op] == id;
        } else {
          assert t'.inFlight[steps[n].op] == id;
        }
      }
    }
  }

  ghost predicate Exact(t: Table) {
    t.pending == t.inFlight.Values
  }

  /** Another command in flight carries the same ID. */
  ghost predicate Shared(t: Table, op: nat)
    requires op in t.inFlight
  {
    exists other :: other in t.inFlight && other != op && t.inFlight[other] == t.inFlight[op]
  }

  /** From an exact table a step leads to an exact table unless it ends a command
      whose ID another one still uses. */
  lemma ExactKeptIff(t: Table, step: Step)
    requires Exact(t)
    ensures Exact(Advance(t, step)) <==> !(step.End? && step.op in t.inFlight && Shared(t, step.op))
  {
    var t' := Advance(t, step);
    if step.op !in t.inFlight {
      if step.Begin? {
        assert t'.inFlight[step.op] == step.id;
        forall x ensures x in t'.inFlight.Values <==> x in t.inFlight.Values + {step.id} {
          if x in t.inFlight.Values {
            var op :| op in t.inFlight && t.inFlight[op] == x;
            assert t'.inFlight[op] == x;
          }
        }
      }
    } else if step.End? {
      var id := t.inFlight[step.op];
      forall x | x != id ensures x in t'.inFlight.Values <==> x in t.inFlight.Values {
        if x in t.inFlight.Values {
          var op :| op in t.inFlight && t.inFlight[op] == x;
          assert t'.inFlight[op] == x;
        }
      }
      if Shared(t, step.op) {
        var other :| other in t.inFlight && other != step.op && t.inFlight[other] == id;
        assert t'.inFlight[other] == id;
      } else {
        assert id !in t'.inFlight.Values;
      }
      assert t'.pending == t.inFlight.Values - {id};
    }
  }

  ghost predicate DistinctInFlight(t: Table) {
    forall p, q :: p in t.inFlight && q in t.inFlight && p != q ==> t.inFlight[p] != t.inFlight[q]
  }

  /** With distinct IDs in flight, the table is the set of commands in flight and
      its size their number. */
  lemma {:induction false} PendingIsInFlight(steps: seq<Step>)
    requires forall k :: 0 <= k <= |steps| ==> DistinctInFlight(Run(steps[..k]))
    ensures Exact(Run(steps)) && |Run(steps).pending| == |Run(steps).inFlight|
  {
    assert steps[..|steps|] == steps;
    assert DistinctInFlight(Run(steps));
    if steps == [] {
      assert IDLE.inFlight.Values == {};
    } else {
      var n := |steps| - 1;
      assert forall k :: 0 <= k <= n ==> steps[..n][..k] == steps[..k];
      PendingIsInFlight(steps[..n]);
      assert DistinctInFlight(Run(steps[..n]));
      ExactKeptIff(Run(steps[..n]), steps[n]);
    }
    ValuesCount(Run(steps).inFlight);
  }

  lemma {:induction false} ValuesCount(m: map<nat, CommandId>)
    requires forall p, q :: p in m && q in m && p != q ==> m[p] != m[q]
    ensures |m.Values| == |m|
    decreases |m|
  {
    if m == map[] {
      assert m.Values == {};
    } else {
      var k :| k in m;
      var rest := m - {k};
      assert rest.Keys == m.Keys - {k};
      ValuesCount(rest);
      forall x ensures x in m.Values <==> x in rest.Values + {m[k]} {
        if x in m.Values {
          var op :| op in m && m[op] == x;
          assert op != k ==> rest[op] == x;
        }
      }
      assert m.Values == rest.Values + {m[k]};
    }
  }

  // ------------------------------------------------------------------------
  // The dispatcher object
  // ------------------------------------------------------------------------

  /** What befalls a command: whether its reply subscription is made, and how it ends. */
  datatype Fate = Fate(subscribable: bool, outcome: Outcome)

  function ResultOf(agent: Lookup, fate: Fate): Result {
    if agent.NotFound? then Unavailable
    else if !fate.subscribable then NoReplyChannel
    else if agent.Nil? && !fate.outcome.MarshalFailed? then NilDereferenced
    else Answer(fate.outcome)
  }

  /** The command is sent to a connection and comes to the end `o`. */
  predicate Ends(agent: Lookup, fate: Fate, o: Outcome) {
    agent.Found? && fate.subscribable && fate.outcome == o
  }

  /** What the caller is told, case by case: the agent's own status exactly if it
      replied in time, a timeout exactly if it did not reply, that it is unavailable
      exactly if the host is unknown; everything else by its reason. */
  ghost predicate Tells(agent: Lookup, fate: Fate, r: Result) {
    && (forall status :: r == Ok(status) <==> Ends(agent, fate, Replied(status)))
    && (r == TimeoutResult <==> Ends(agent, fate, TimedOut))
    && (r == Unavailable <==> agent.NotFound?)
    && (r == NoReplyChannel <==> !agent.NotFound? && !fate.subscribable)
    && (r == NilDereferenced <==> agent.Nil? && fate.subscribable && !fate.outcome.MarshalFailed?)
    && (r.Failed? ==> r.reason == fate.outcome)
  }

  lemma ResultTells(agent: Lookup, fate: Fate)
    ensures Tells(agent, fate, ResultOf(agent, fate))
  {
  }

  /** `inFlight` records the calls between their two critical sections. */
  class CommandDispatcher {
    var pending: set<CommandId>
    ghost var inFlight: map<nat, CommandId>

    ghost function State(): Table
      reads this
    {
      Table(pending, inFlight)
    }

    constructor ()
      ensures State() == IDLE
    {
      pending, inFlight := {}, map[];
    }

    method Enter(ghost op: nat, id: CommandId)
      requires op !in inFlight
      modifies this
      ensures State() == Advance(old(State()), Begin(op, id))
    {
      pending := pending + {id};
      inFlight := inFlight[op := id];
    }

    method Leave(ghost op: nat, id: CommandId)
      requires op in inFlight && inFlight[op] == id
      modifies this
      ensures State() == Advance(old(State()), End(op))
    {
      pending := pending - {id};
      inFlight := inFlight - {op};
    }

    /** One undisturbed call: on every way out that follows the entry into the
        table it performs `Begin` and `End`, on the others neither.  A nil
        connection is noticed only after the entry. */
    method SendCommand(ghost op: nat, requested: CommandId, drawn: CommandId, agent: Lookup, fate: Fate)
      returns (r: Result, published: Option<string>)
      requires op !in inFlight
      modifies this
      ensures State() == if r == Unavailable || r == NoReplyChannel
                         then old(State())
                         else Advance(Advance(old(State()), Begin(op, Resolve(requested, drawn))), End(op))
      ensures inFlight == old(inFlight)
      ensures pending == if r == Unavailable || r == NoReplyChannel
                         then old(pending) else old(pending) - {Resolve(requested, drawn)}
      ensures r == ResultOf(agent, fate)
      ensures Tells(agent, fate, r)
      ensures published.Some? <==>
              agent.Found? && fate.subscribable && !fate.outcome.MarshalFailed? && !fate.outcome.PublishFailed?
      ensures published.Some? ==> published.value == CommandSubject(agent.conn.agentId)
    {
      published := None;
      var id := if requested == "" then drawn else requested;
      if agent.NotFound? {
        return Unavailable, None;
      }
      if !fate.subscribable {
        return NoReplyChannel, None;
      }
      Enter(op, id);
      var outcome := fate.outcome;
      if outcome.MarshalFailed? {
        r := Failed(outcome);
      } else if agent.Nil? {
        r := NilDereferenced;
      } else if outcome.PublishFailed? {
        r := Failed(outcome);
      } else {
        published := Some(CommandSubject(agent.conn.agentId));
        if outcome.Replied? {
          r := Ok(outcome.status);
        } else if outcome.TimedOut? {
          r := TimeoutResult;
        } else {
          r := Failed(outcome);
        }
      }
      Leave(op, id);
    }

    method PendingCount() returns (n: nat)
      ensures n == |pending|
      ensures Exact(State()) && DistinctInFlight(State()) ==> n == |inFlight|
    {
      n := |pending|;
      if Exact(State()) && DistinctInFlight(State()) {
        ValuesCount(inFlight);
      }
    }
  }

  // ------------------------------------------------------------------------
  // Broadcast
  // ------------------------------------------------------------------------

  ghost predicate DistinctHosts(list: seq<Connection>) {
    forall i, j :: 0 <= i < j < |list| ==> list[i].hostId != list[j].hostId
  }

  function HostsOf(list: seq<Connection>): set<HostId> {
    set i | 0 <= i < |list| :: list[i].hostId
  }

  /** `finish` names every position of the list once: the order in which the
      per-agent goroutines store their results. */
  ghost predicate Schedule(finish: seq<nat>, n: nat) {
    && (forall k :: 0 <= k < |finish| ==> finish[k] < n)
    && (forall i :: 0 <= i < n ==> i in finish)
  }

  /** A broadcast: the registry's run, how long each agent's goroutine waits before
      it looks up the agent's host, and what then befalls its command. */
  datatype Course = Course(run: seq<Registry.Step>, when: nat -> nat, fate: nat -> Fate)

  predicate InTime(c: Course, snapshot: nat, i: nat) {
    snapshot <= c.when(i) <= |c.run|
  }

  /** What the goroutine of agent `i` finds when it looks the agent's host up. */
  function LookedUp(c: Course, list: seq<Connection>, i: nat): Lookup
    requires i < |list| && c.when(i) <= |c.run|
  {
    ByHost(Registry.Run(EMPTY, c.run[..c.when(i)]), list[i].hostId)
  }

  /** What the goroutines get: each looks its agent's host up in the registry as it
      then is.  `NilDereferenced` ends the whole process. */
  function Answers(c: Course, snapshot: nat, list: seq<Connection>): (r: seq<Result>)
    requires forall i :: 0 <= i < |list| ==> InTime(c, snapshot, i)
    ensures |r| == |list|
    ensures forall i :: 0 <= i < |list| ==>
              InTime(c, snapshot, i)
              && r[i] == ResultOf(LookedUp(c, list, i), c.fate(i))
  {
    if list == [] then []
    else
      var n := |list| - 1;
      assert InTime(c, snapshot, n);
      Answers(c, snapshot, list[..n]) + [ResultOf(LookedUp(c, list, n), c.fate(n))]
  }

  /** The goroutine of agent `i` looks its host up while it has a nil connection,
      and gets as far as using it. */
  predicate UsesNil(c: Course, list: seq<Connection>, i: nat)
    requires i < |list| && c.when(i) <= |c.run|
  {
    && list[i].hostId in Nils(Registry.Run(EMPTY, c.run[..c.when(i)]))
    && c.fate(i).subscribable && !c.fate(i).outcome.MarshalFailed?
  }

  lemma AnswerIsNilIff(c: Course, snapshot: nat, list: seq<Connection>)
    requires forall i :: 0 <= i < |list| ==> InTime(c, snapshot, i)
    ensures NilDereferenced in Answers(c, snapshot, list)
            <==> exists i :: 0 <= i < |list| && InTime(c, snapshot, i) && UsesNil(c, list, i)
  {
    var answers := Answers(c, snapshot, list);
    if i :| 0 <= i < |list| && InTime(c, snapshot, i) && UsesNil(c, list, i) {
      ResultIsNilIff(Registry.Run(EMPTY, c.run[..c.when(i)]), list[i].hostId, c.fate(i));
      assert answers[i] == NilDereferenced;
    }
    if NilDereferenced in answers {
      var i :| 0 <= i < |answers| && answers[i] == NilDereferenced;
      assert InTime(c, snapshot, i);
      ResultIsNilIff(Registry.Run(EMPTY, c.run[..c.when(i)]), list[i].hostId, c.fate(i));
      assert UsesNil(c, list, i);
    }
  }

  lemma ResultIsNilIff(s: State, h: HostId, fate: Fate)
    ensures ResultOf(ByHost(s, h), fate) == NilDereferenced
            <==> h in Nils(s) && fate.subscribable && !fate.outcome.MarshalFailed?
  {
    LookupNilIff(s, h);
  }

  /** The snapshot is taken after `snapshot` steps of the run; the goroutines look
      their hosts up later, each at its own time, and finish in any order.
      `None` is the crash: it happens exactly when some goroutine uses a nil
      connection, so never in a run that orphans no host.  Otherwise every agent of
      the snapshot has its own result. */
  method BroadcastCommand(server: Server, snapshot: nat, c: Course, finish: seq<nat>)
    returns (list: seq<Connection>, results: Option<map<HostId, Result>>)
    requires snapshot <= |c.run| && server.Contents() == Registry.Run(EMPTY, c.run[..snapshot])
    requires forall i :: 0 <= i < |server.agents| ==> InTime(c, snapshot, i)
    requires Schedule(finish, |server.agents|)
    ensures |list| == |server.agents| && exists order :: Enumerates(server.agents, list, order)
    ensures results.None? <==> exists i :: 0 <= i < |list| && InTime(c, snapshot, i) && UsesNil(c, list, i)
    ensures results.Some? ==>
              && results.value.Keys == HostsOf(list) && |results.value| == |server.agents|
              && forall i :: 0 <= i < |list| ==>
                   InTime(c, snapshot, i) && Tells(LookedUp(c, list, i), c.fate(i), results.value[list[i].hostId])
    ensures NoneOrphaned(c.run) ==> results.Some?
  {
    ghost var order;
    list, order := server.ListAgents();
    SnapshotHostsDistinct(c.run[..snapshot], list, order);
    if NoneOrphaned(c.run) {
      NoneOrphanedNeverPanics(c, snapshot, list);
    }
    AnswerIsNilIff(c, snapshot, list);
    var answers := Answers(c, snapshot, list);
    results := Collect(list, answers, finish);
    forall i | 0 <= i < |list|
      ensures InTime(c, snapshot, i) && Tells(LookedUp(c, list, i), c.fate(i), answers[i])
    {
      assert InTime(c, snapshot, i);
      ResultTells(LookedUp(c, list, i), c.fate(i));
    }
  }

  /** The goroutines store their results in the order `finish`; a nil dereference
      ends them all. */
  method Collect(list: seq<Connection>, answers: seq<Result>, finish: seq<nat>)
    returns (results: Option<map<HostId, Result>>)
    requires |answers| == |list| && Schedule(finish, |list|)
    ensures results.None? <==> NilDereferenced in answers
    ensures results.Some? ==>
              results.value.Keys == HostsOf(list) && (|results.value| == |list| <==> DistinctHosts(list))
    ensures results.Some? && DistinctHosts(list) ==>
              forall i :: 0 <= i < |list| ==> results.value[list[i].hostId] == answers[i]
  {
    var stored: map<HostId, Result> := map[];
    var k := 0;
    while k < |finish|
      invariant 0 <= k <= |finish|
      invariant forall j :: 0 <= j < k ==> list[finish[j]].hostId in stored && answers[finish[j]] != NilDereferenced
      invariant stored.Keys <= HostsOf(list)
      invariant DistinctHosts(list) ==> forall j :: 0 <= j < k ==> stored[list[finish[j]].hostId] == answers[finish[j]]
    {
      var i := finish[k];
      if answers[i] == NilDereferenced {
        return None;
      }
      stored := stored[list[i].hostId := answers[i]];
      k := k + 1;
    }
    forall i | 0 <= i < |list|
      ensures list[i].hostId in stored && answers[i] != NilDereferenced
      ensures DistinctHosts(list) ==> stored[list[i].hostId] == answers[i]
    {
      assert i in finish;
      var j :| 0 <= j < |finish| && finish[j] == i;
    }
    HostsCount(list);
    assert stored.Keys == HostsOf(list);
    assert |stored| == |stored.Keys|;
    results := Some(stored);
  }

  /** In a run of the registry that orphans no host, so in every benign one, no
      goroutine meets a nil connection. */
  lemma NoneOrphanedNeverPanics(c: Course, snapshot: nat, list: seq<Connection>)
    requires NoneOrphaned(c.run) && forall i :: 0 <= i < |list| ==> InTime(c, snapshot, i)
    ensures NilDereferenced !in Answers(c, snapshot, list)
  {
    forall i | 0 <= i < |list|
      ensures InTime(c, snapshot, i) && !UsesNil(c, list, i)
    {
      assert InTime(c, snapshot, i);
      NoneOrphanedPrefix(c.run, c.when(i));
    }
    AnswerIsNilIff(c, snapshot, list);
  }

  /** Some host of the snapshot has a nil connection at some time from then on. */
  ghost predicate NilLater(run: seq<Registry.Step>, snapshot: nat, list: seq<Connection>) {
    exists i, t :: 0 <= i < |list| && snapshot <= t <= |run| && list[i].hostId in Nils(Registry.Run(EMPTY, run[..t]))
  }

  /** A broadcast whose goroutines all reach their lookups at time `t` and get as
      far as publishing. */
  function AllAt(run: seq<Registry.Step>, t: nat): Course {
    Course(run, (i: nat) => t, (i: nat) => Fate(true, TimedOut))
  }

  /** Whether a broadcast can crash, from the run alone: it can exactly when some
      host of its snapshot has a nil connection at some later time. */
  lemma CrashesSometimesIff(run: seq<Registry.Step>, snapshot: nat, list: seq<Connection>)
    requires snapshot <= |run|
    ensures NilLater(run, snapshot, list) <==>
            exists c: Course :: c.run == run && (forall i :: 0 <= i < |list| ==> InTime(c, snapshot, i))
                                && NilDereferenced in Answers(c, snapshot, list)
  {
    if NilLater(run, snapshot, list) {
      var i, t :| 0 <= i < |list| && snapshot <= t <= |run| && list[i].hostId in Nils(Registry.Run(EMPTY, run[..t]));
      var c := AllAt(run, t);
      assert forall j :: 0 <= j < |list| ==> InTime(c, snapshot, j);
      assert UsesNil(c, list, i);
      AnswerIsNilIff(c, snapshot, list);
    }
    forall c: Course | c.run == run && (forall i :: 0 <= i < |list| ==> InTime(c, snapshot, i))
                       && NilDereferenced in Answers(c, snapshot, list)
      ensures NilLater(run, snapshot, list)
    {
      AnswerIsNilIff(c, snapshot, list);
      var i :| 0 <= i < |list| && InTime(c, snapshot, i) && UsesNil(c, list, i);
      assert list[i].hostId in Nils(Registry.Run(EMPTY, run[..c.when(i)]));
    }
  }

  /** A step that orphans a host of the snapshot crashes every broadcast that looks
      the host up afterwards, until a registration revives it. */
  lemma OrphanCrashesBroadcast(c: Course, snapshot: nat, list: seq<Connection>, i: nat, j: nat)
    requires i < |list| && forall m :: 0 <= m < |list| ==> InTime(c, snapshot, m)
    requires InTime(c, snapshot, i) && j < c.when(i)
    requires list[i].hostId in Orphaned(Registry.Run(EMPTY, c.run[..j]), c.run[j])
    requires forall m :: j < m < c.when(i) ==> !Revives(Registry.Run(EMPTY, c.run[..j + 1]), c.run[m], list[i].hostId)
    requires c.fate(i).subscribable && !c.fate(i).outcome.MarshalFailed?
    ensures NilDereferenced in Answers(c, snapshot, list)
  {
    OrphanedStaysNil(c.run, j, c.when(i), list[i].hostId);
    assert UsesNil(c, list, i);
    AnswerIsNilIff(c, snapshot, list);
  }

  lemma {:induction false} HostsCount(list: seq<Connection>)
    ensures |HostsOf(list)| <= |list|
    ensures |HostsOf(list)| == |list| <==> DistinctHosts(list)
  {
    if list == [] {
      assert HostsOf(list) == {};
    } else {
      var n := |list| - 1;
      var init := list[..n];
      HostsCount(init);
      forall h ensures h in HostsOf(list) <==> h in HostsOf(init) + {list[n].hostId} {
        if h in HostsOf(init) {
          var i :| 0 <= i < n && init[i].hostId == h;
          assert list[i].hostId == h;
        }
        if h in HostsOf(list) {
          var i :| 0 <= i <= n && list[i].hostId == h;
          assert i < n ==> init[i].hostId == h;
        }
      }
      assert HostsOf(list) == HostsOf(init) + {list[n].hostId};
      if list[n].hostId in HostsOf(init) {
        var i :| 0 <= i < n && init[i].hostId == list[n].hostId;
        assert list[i].hostId == list[n].hostId;
      } else if DistinctHosts(init) {
        forall i, j | 0 <= i < j < |list| ensures list[i].hostId != list[j].hostId {
          if j < n {
            assert init[i].hostId != init[j].hostId;
          } else {
            assert init[i].hostId in HostsOf(init);
          }
        }
      }
      if DistinctHosts(list) {
        assert forall i, j :: 0 <= i < j < n ==> list[i].hostId != list[j].hostId;
      }
    }
  }

  /** In every run of the registry, the hosts of a snapshot are distinct, so that a
      result per host is one per agent. */
  lemma SnapshotHostsDistinct(steps: seq<Registry.Step>, list: seq<Connection>, order: seq<AgentId>)
    requires Enumerates(Registry.Run(EMPTY, steps).agents, list, order)
    ensures DistinctHosts(list) && |HostsOf(list)| == |list|
  {
    RunKeepsOwned(EMPTY, steps);
    var s := Registry.Run(EMPTY, steps);
    forall i, j | 0 <= i < j < |list| ensures list[i].hostId != list[j].hostId {
      assert order[i] != order[j];
      assert s.hostIndex[s.agents[order[i]].hostId] == order[i];
    }
    HostsCount(list);
  }
}
