/**
 Agents, network and gateway together: registration, re-registration after a
 reconnect, subscription, heartbeats and deregistration.

 The network is the set of packets sent so far.  A packet may be served at any
 later time, never, or more than once, so loss, delay, reordering and
 duplication are all covered.
 */
module AgentSystem {
  import opened Basics
  import opened Registry
  import opened GatewayServer
  import opened Subjects

  // ------------------------------------------------------------------------
  // One agent, updating its fields in place
  // ------------------------------------------------------------------------

  class Agent {
    const token: string
    var id: AgentId
    var heartbeatInterval: int
    var inventoryInterval: int
    var subscriptions: seq<string>

    constructor (token: string, configured: AgentId, drawn: AgentId)
      requires token != "" && drawn != ""
      ensures this.token == token && id != "" && subscriptions == []
      ensures id == Resolve(configured, drawn)
      ensures heartbeatInterval == 30 && inventoryInterval == 300
    {
      this.token := token;
      if configured == "" {
        id := drawn;
      } else {
        id := configured;
      }
      heartbeatInterval, inventoryInterval := 30, 300;
      subscriptions := [];
    }

    /** A configuration without a token yields no agent. */
    static method New(token: string, configured: AgentId, drawn: AgentId) returns (agent: Agent?)
      requires drawn != ""
      ensures agent == null <==> token == ""
      ensures agent != null ==> fresh(agent) && agent.token == token && agent.subscriptions == []
      ensures agent != null ==> agent.id != "" && agent.id == Resolve(configured, drawn)
    {
      if token == "" {
        return null;
      }
      agent := new Agent(token, configured, drawn);
    }

    /** The part of `register` after the reply has arrived. */
    method TakeReply(reply: RegistrationReply, heartbeat: int, inventory: int) returns (ok: bool)
      modifies this
      ensures ok == reply.Accepted? && subscriptions == old(subscriptions)
      ensures id == if ok && reply.agentId != "" then reply.agentId else old(id)
      ensures heartbeatInterval == if ok && heartbeat > 0 then heartbeat else old(heartbeatInterval)
      ensures inventoryInterval == if ok && inventory > 0 then inventory else old(inventoryInterval)
    {
      ok := reply.Accepted?;
      if ok {
        if reply.agentId != "" { id := reply.agentId; }
        if heartbeat > 0 { heartbeatInterval := heartbeat; }
        if inventory > 0 { inventoryInterval := inventory; }
      }
    }

    /** Subscribes to the commands of the current ID and then to the broadcasts;
        `command` and `broadcast` tell whether the network takes each.  It never takes
        a subject that is not well-formed. */
    method SubscribeToCommands(command: bool, broadcast: bool) returns (ok: bool)
      modifies this`subscriptions
      ensures ok <==> command && broadcast && Subscribable(CommandSubject(id))
      ensures ok ==> subscriptions == old(subscriptions) + ["usulnet.commands." + id, "usulnet.broadcast"]
      ensures !ok ==> subscriptions ==
                      old(subscriptions)
                      + if command && Subscribable(CommandSubject(id)) then ["usulnet.commands." + id] else []
    {
      Spelled(id);
      if !command || !Subscribable(CommandSubject(id)) {
        return false;
      }
      subscriptions := subscriptions + [CommandSubject(id)];
      if !broadcast {
        return false;
      }
      subscriptions := subscriptions + [BROADCAST];
      ok := true;
    }
  }

  function AdoptedId(id: AgentId, reply: RegistrationReply): AgentId {
    if reply.Accepted? && reply.agentId != "" then reply.agentId else id
  }

  // ------------------------------------------------------------------------
  // The whole system
  // ------------------------------------------------------------------------

  /** What an agent process is started with. */
  datatype Identity = Identity(token: string, id: AgentId)

  /** A process keeps its entry after it has stopped (`up` false); a restart is a
      new process, under the same identity if one is configured.  `patterns` are
      its subscriptions. */
  datatype Proc = Proc(who: Identity, up: bool, registered: bool, patterns: set<string>)

  function Subscriptions(id: AgentId): set<string> {
    {CommandSubject(id), BROADCAST}
  }

  datatype Packet =
    | RegisterRequest(proc: nat, who: Identity)
    | RegisterReply(proc: nat, reply: RegistrationReply)
    | Beat(agentId: AgentId)
    | Leave(agentId: AgentId)

  datatype System = System(procs: map<nat, Proc>, reg: State, packets: set<Packet>)

  const BOOT := System(map[], EMPTY, {})

  datatype Event =
    | Start(p: nat, token: string, configured: AgentId, drawn: AgentId)
    | SendRegister(p: nat)
    | ServeRegister(request: Packet, accepted: bool, drawn: AgentId, now: int)
    | TakeReply(p: nat, reply: RegistrationReply)
    | Subscribe(p: nat)
    | SendBeat(p: nat)
    | ServeBeat(agent: AgentId, health: Health, failing: bool, now: int)
    | SendLeave(p: nat)
    | ServeLeave(agent: AgentId)
    | Stop(p: nat)
    | Clean(now: int, timeout: int)
    | ForceDisconnect(agent: AgentId)

  type Tokens = map<string, HostId>

  /** The registry step an event performs at the gateway.  `hostOf` is the token
      table; a known token may still be refused (`accepted` false).  Heartbeats and
      deregistrations are published under the agent's ID and reach the gateway only
      if its subscription matches. */
  function RegistryStep(hostOf: Tokens, sys: System, e: Event): Option<Step> {
    match e
    case ServeRegister(RegisterRequest(p, who), accepted, drawn, now) =>
      if e.request in sys.packets
      then
        var host := if accepted && who.token in hostOf then Some(hostOf[who.token]) else None;
        Some(Register(host, who.id, drawn, now))
      else None
    case ServeBeat(a, health, failing, now) =>
      if Beat(a) in sys.packets && HeardByGateway("heartbeat", a)
      then Some(Heartbeat(a, health, failing, now)) else None
    case ServeLeave(a) =>
      if Leave(a) in sys.packets && HeardByGateway("deregister", a) then Some(Deregister(a)) else None
    case Clean(now, timeout) => Some(Cleanup(now, timeout))
    case ForceDisconnect(a) => Some(Disconnect(a))
    case _ => None
  }

  function Reply(step: Step): RegistrationReply
    requires step.Register?
  {
    if step.host.None? then Rejected else Accepted(Resolve(step.requested, step.drawn))
  }

  predicate Running(sys: System, p: nat) {
    p in sys.procs && sys.procs[p].up
  }

  /** The packets an event puts on the network. */
  function Sent(hostOf: Tokens, sys: System, e: Event): set<Packet> {
    match e
    case SendRegister(p) => if Running(sys, p) then {RegisterRequest(p, sys.procs[p].who)} else {}
    case SendBeat(p) => if Running(sys, p) then {Beat(sys.procs[p].who.id)} else {}
    case SendLeave(p) => if Running(sys, p) then {Leave(sys.procs[p].who.id)} else {}
    case ServeRegister(request, _, _, _) =>
      var step := RegistryStep(hostOf, sys, e);
      if step.Some? then {RegisterReply(request.proc, Reply(step.value))} else {}
    case _ => {}
  }

  /** An agent subscribes only after its registration has been accepted, and if
      its ID makes a well-formed subject. */
  function ProcsAfter(sys: System, e: Event): map<nat, Proc> {
    match e
    case Start(p, token, configured, drawn) =>
      if token != "" && drawn != "" && p !in sys.procs
      then sys.procs[p := Proc(Identity(token, Resolve(configured, drawn)), true, false, {})]
      else sys.procs
    case TakeReply(p, reply) =>
      if Running(sys, p) && RegisterReply(p, reply) in sys.packets then
        var q := sys.procs[p];
        var who := q.who.(id := AdoptedId(q.who.id, reply));
        sys.procs[p := q.(who := who, registered := q.registered || reply.Accepted?)]
      else sys.procs
    case Subscribe(p) =>
      if Running(sys, p) && sys.procs[p].registered && Subscribable(CommandSubject(sys.procs[p].who.id))
      then sys.procs[p := sys.procs[p].(patterns := Subscriptions(sys.procs[p].who.id))]
      else sys.procs
    case Stop(p) =>
      if Running(sys, p) then sys.procs[p := sys.procs[p].(up := false, patterns := {})] else sys.procs
    case _ => sys.procs
  }

  function Next(hostOf: Tokens, sys: System, e: Event): System {
    var step := RegistryStep(hostOf, sys, e);
    System(
      ProcsAfter(sys, e),
      if step.Some? then Apply(sys.reg, step.value) else sys.reg,
      sys.packets + Sent(hostOf, sys, e))
  }

  function Trace(hostOf: Tokens, sys: System, events: seq<Event>): System {
    if events == [] then sys
    else Next(hostOf, Trace(hostOf, sys, events[..|events| - 1]), events[|events| - 1])
  }

  // ------------------------------------------------------------------------
  // Identity
  // ------------------------------------------------------------------------

  ghost predicate WellBornProc(hostOf: Tokens, q: Proc) {
    && q.who.id != "" && q.who.token != ""
    && (q.registered ==> q.who.token in hostOf)
    && (q.patterns != {} ==>
          q.up && q.registered && q.patterns == Subscriptions(q.who.id) && Subscribable(CommandSubject(q.who.id)))
  }

  ghost predicate WellBorn(hostOf: Tokens, sys: System) {
    && (forall p :: p in sys.procs ==> WellBornProc(hostOf, sys.procs[p]))
    && (forall k :: k in sys.packets ==> Honest(hostOf, sys, k))
  }

  /** Registration packets carry the identity of the agent they belong to, and only
      a known token is accepted. */
  ghost predicate Honest(hostOf: Tokens, sys: System, k: Packet) {
    match k
    case RegisterRequest(p, who) => p in sys.procs && who == sys.procs[p].who
    case RegisterReply(p, reply) =>
      && p in sys.procs
      && (reply.Accepted? ==> reply.agentId == sys.procs[p].who.id && sys.procs[p].who.token in hostOf)
    case _ => true
  }

  /** Every event leaves each agent's token and identity in place, and the
      subscription of every agent it does not stop. */
  ghost predicate Preserves(before: System, after: System) {
    forall p :: p in before.procs ==>
      && p in after.procs
      && after.procs[p].who == before.procs[p].who
      && (before.procs[p].patterns != {} && after.procs[p].up ==> after.procs[p].patterns == before.procs[p].patterns)
      && (after.procs[p].up ==> before.procs[p].up)
  }

  lemma NextKeepsProcs(hostOf: Tokens, sys: System, e: Event)
    requires WellBorn(hostOf, sys)
    ensures Preserves(sys, Next(hostOf, sys, e))
    ensures forall p :: p in Next(hostOf, sys, e).procs ==> WellBornProc(hostOf, Next(hostOf, sys, e).procs[p])
  {
    if e.TakeReply? && RegisterReply(e.p, e.reply) in sys.packets {
      assert Honest(hostOf, sys, RegisterReply(e.p, e.reply));
    }
  }

  lemma NextKeepsIdentity(hostOf: Tokens, sys: System, e: Event)
    requires WellBorn(hostOf, sys)
    ensures WellBorn(hostOf, Next(hostOf, sys, e)) && Preserves(sys, Next(hostOf, sys, e))
  {
    var sys' := Next(hostOf, sys, e);
    NextKeepsProcs(hostOf, sys, e);
    forall k | k in sys'.packets
      ensures Honest(hostOf, sys', k)
    {
      if k in sys.packets {
        assert Honest(hostOf, sys, k);
      } else if e.ServeRegister? {
        assert e.request in sys.packets && Honest(hostOf, sys, e.request);
      }
    }
  }

  /** Across any number of reconnects and re-registrations an agent's identity
      never changes, nor, once made, its subscription until it stops. */
  lemma {:induction false} IdentityIsStable(hostOf: Tokens, sys: System, events: seq<Event>)
    requires WellBorn(hostOf, sys)
    ensures WellBorn(hostOf, Trace(hostOf, sys, events)) && Preserves(sys, Trace(hostOf, sys, events))
  {
    if events != [] {
      IdentityIsStable(hostOf, sys, events[..|events| - 1]);
      NextKeepsIdentity(hostOf, Trace(hostOf, sys, events[..|events| - 1]), events[|events| - 1]);
    }
  }

  // ------------------------------------------------------------------------
  // What the registry says was claimed by an agent
  // ------------------------------------------------------------------------

  predicate ClaimedBy(hostOf: Tokens, who: Identity, a: AgentId, h: HostId) {
    who.id == a && who.token != "" && a != "" && who.token in hostOf && hostOf[who.token] == h
  }

  /** Some agent, running or stopped, goes by the name `a` and holds a token of host `h`. */
  ghost predicate Claims(hostOf: Tokens, sys: System, a: AgentId, h: HostId) {
    exists p :: p in sys.procs && ClaimedBy(hostOf, sys.procs[p].who, a, h)
  }

  ghost predicate Claimed(hostOf: Tokens, sys: System) {
    && (forall a :: a in sys.reg.agents ==> Claims(hostOf, sys, a, sys.reg.agents[a].hostId))
    && (forall h :: h in sys.reg.hostIndex ==> Claims(hostOf, sys, sys.reg.hostIndex[h], h))
  }

  lemma ClaimsPersist(hostOf: Tokens, before: System, after: System, a: AgentId, h: HostId)
    requires Preserves(before, after) && Claims(hostOf, before, a, h)
    ensures Claims(hostOf, after, a, h)
  {
    var p :| p in before.procs && ClaimedBy(hostOf, before.procs[p].who, a, h);
    assert ClaimedBy(hostOf, after.procs[p].who, a, h);
  }

  /** A served registration is for the host its sender's token belongs to. */
  lemma RegistrationIsClaimed(hostOf: Tokens, sys: System, e: Event, step: Step)
    requires WellBorn(hostOf, sys)
    requires RegistryStep(hostOf, sys, e) == Some(step) && step.Register? && step.host.Some?
    ensures Claims(hostOf, sys, Resolve(step.requested, step.drawn), step.host.value)
  {
    var p := e.request.proc;
    assert Honest(hostOf, sys, e.request);
    assert ClaimedBy(hostOf, sys.procs[p].who, Resolve(step.requested, step.drawn), step.host.value);
  }

  lemma NextKeepsClaimed(hostOf: Tokens, sys: System, e: Event)
    requires WellBorn(hostOf, sys) && Claimed(hostOf, sys)
    ensures Claimed(hostOf, Next(hostOf, sys, e))
  {
    var sys' := Next(hostOf, sys, e);
    NextKeepsIdentity(hostOf, sys, e);
    var step := RegistryStep(hostOf, sys, e);
    if step.Some? && step.value.Register? && step.value.host.Some? {
      RegistrationIsClaimed(hostOf, sys, e, step.value);
      ClaimsPersist(hostOf, sys, sys', Resolve(step.value.requested, step.value.drawn), step.value.host.value);
    }
    forall a | a in sys'.reg.agents
      ensures Claims(hostOf, sys', a, sys'.reg.agents[a].hostId)
    {
      if a in sys.reg.agents && sys'.reg.agents[a].hostId == sys.reg.agents[a].hostId {
        ClaimsPersist(hostOf, sys, sys', a, sys.reg.agents[a].hostId);
      }
    }
    forall h | h in sys'.reg.hostIndex
      ensures Claims(hostOf, sys', sys'.reg.hostIndex[h], h)
    {
      if h in sys.reg.hostIndex && sys'.reg.hostIndex[h] == sys.reg.hostIndex[h] {
        ClaimsPersist(hostOf, sys, sys', sys.reg.hostIndex[h], h);
      }
    }
  }

  lemma {:induction false} TraceInvariant(hostOf: Tokens, events: seq<Event>)
    ensures var sys := Trace(hostOf, BOOT, events);
            WellBorn(hostOf, sys) && Claimed(hostOf, sys) && Owned(sys.reg)
  {
    if events != [] {
      var n := |events| - 1;
      TraceInvariant(hostOf, events[..n]);
      var sys := Trace(hostOf, BOOT, events[..n]);
      NextKeepsIdentity(hostOf, sys, events[n]);
      NextKeepsClaimed(hostOf, sys, events[n]);
      var step := RegistryStep(hostOf, sys, events[n]);
      if step.Some? {
        StepKeepsOwned(sys.reg, step.value);
      }
    }
  }

  // ------------------------------------------------------------------------
  // Routing
  // ------------------------------------------------------------------------

  /** The agents that hear what is published on `subject`. */
  ghost function Receivers(sys: System, subject: string): set<nat> {
    set p | p in sys.procs && exists pattern :: pattern in sys.procs[p].patterns && Hears(pattern, subject)
  }

  /** The running agents of identity `a` that have subscribed. */
  function Listening(sys: System, a: AgentId): set<nat> {
    set p | p in sys.procs && sys.procs[p].up && sys.procs[p].patterns != {} && sys.procs[p].who.id == a
  }

  /** The subscribed agents of other identities that are patterns matching `a`. */
  function Overhearing(sys: System, a: AgentId): set<nat> {
    set p | p in sys.procs && sys.procs[p].patterns != {} && sys.procs[p].who.id != a && Hears(sys.procs[p].who.id, a)
  }

  lemma HearsCommand(hostOf: Tokens, q: Proc, a: AgentId)
    requires WellBornProc(hostOf, q)
    ensures (exists pattern :: pattern in q.patterns && Hears(pattern, CommandSubject(a)))
            <==> q.patterns != {} && Hears(q.who.id, a)
  {
    CommandHeard(q.who.id, a);
    OtherTopic("broadcast", a);
    if q.patterns != {} && Hears(q.who.id, a) {
      assert CommandSubject(q.who.id) in q.patterns;
    }
  }

  /** A command for `a` is heard by the subscribed agents of that identity and by
      those of other identities that match it as patterns, so by the former alone
      exactly when there are none of the latter. */
  lemma WhoHears(hostOf: Tokens, sys: System, a: AgentId)
    requires WellBorn(hostOf, sys)
    ensures Receivers(sys, CommandSubject(a)) == Listening(sys, a) + Overhearing(sys, a)
    ensures Receivers(sys, CommandSubject(a)) == Listening(sys, a) <==> Overhearing(sys, a) == {}
  {
    forall p | p in sys.procs
      ensures p in Receivers(sys, CommandSubject(a)) <==> p in Listening(sys, a) + Overhearing(sys, a)
    {
      var q := sys.procs[p];
      assert WellBornProc(hostOf, q);
      HearsCommand(hostOf, q, a);
      if q.patterns != {} && q.who.id == a {
        CommandHeard(a, a);
        HearsItself(a);
      }
    }
    if p :| p in Overhearing(sys, a) {
      assert p !in Listening(sys, a);
    }
  }

  /** Without any assumption on identities, restarts and forced disconnections
      included: a command for host `h` is published on a subject that the
      subscribed agents of the registry entry's identity hear, and beside them
      exactly the subscribed agents whose ID is a pattern matching it; all of them
      with known tokens.  An agent of that identity holds a token of `h`, and one
      holds a token of the host the entry names. */
  lemma CommandIsHeardByItsAgent(hostOf: Tokens, events: seq<Event>, h: HostId)
    requires ByHost(Trace(hostOf, BOOT, events).reg, h).Found?
    ensures var sys := Trace(hostOf, BOOT, events);
            var conn := ByHost(sys.reg, h).conn;
            var heardBy := Receivers(sys, CommandSubject(conn.agentId));
            && heardBy == Listening(sys, conn.agentId) + Overhearing(sys, conn.agentId)
            && (forall p :: p in heardBy ==> sys.procs[p].who.token in hostOf)
            && Claims(hostOf, sys, conn.agentId, h)
            && Claims(hostOf, sys, conn.agentId, conn.hostId)
  {
    TraceInvariant(hostOf, events);
    var sys := Trace(hostOf, BOOT, events);
    var conn := ByHost(sys.reg, h).conn;
    WhoHears(hostOf, sys, conn.agentId);
    forall p | p in Receivers(sys, CommandSubject(conn.agentId))
      ensures sys.procs[p].who.token in hostOf
    {
      assert WellBornProc(hostOf, sys.procs[p]);
    }
  }

  type Deployment = map<nat, Identity>

  /** Agents of one identity hold tokens of one host; restarting an agent, or
      running it twice, is allowed. */
  ghost predicate OneHostPerId(hostOf: Tokens, d: Deployment) {
    forall p, q, h, k :: p in d && q in d && ClaimedBy(hostOf, d[p], d[q].id, h) && ClaimedBy(hostOf, d[q], d[q].id, k)
      ==> h == k
  }

  predicate Overhears(a: AgentId, b: AgentId) {
    Subscribable(a) && Hears(a, b)
  }

  /** No agent's ID is a pattern that matches the ID of an agent of another host. */
  ghost predicate NoneOverheard(hostOf: Tokens, d: Deployment) {
    forall p, q, h, k :: p in d && q in d && Overhears(d[p].id, d[q].id)
      && ClaimedBy(hostOf, d[p], d[p].id, h) && ClaimedBy(hostOf, d[q], d[q].id, k)
      ==> h == k
  }

  function Identities(sys: System): Deployment {
    map p | p in sys.procs :: sys.procs[p].who
  }

  lemma ClaimsAgree(hostOf: Tokens, sys: System, a: AgentId, h: HostId, k: HostId)
    requires OneHostPerId(hostOf, Identities(sys))
    requires Claims(hostOf, sys, a, h) && Claims(hostOf, sys, a, k)
    ensures h == k
  {
    var p :| p in sys.procs && ClaimedBy(hostOf, sys.procs[p].who, a, h);
    var q :| q in sys.procs && ClaimedBy(hostOf, sys.procs[q].who, a, k);
    var d := Identities(sys);
    assert ClaimedBy(hostOf, d[p], d[q].id, h) && ClaimedBy(hostOf, d[q], d[q].id, k);
  }

  /** Every command goes to a connection of its host, and whoever hears it holds a
      token of that host. */
  ghost predicate WellRouted(hostOf: Tokens, sys: System) {
    forall h :: ByHost(sys.reg, h).Found? ==> Delivered(hostOf, sys, h, ByHost(sys.reg, h).conn)
  }

  ghost predicate Delivered(hostOf: Tokens, sys: System, h: HostId, conn: Connection) {
    && conn.hostId == h
    && forall p :: p in Receivers(sys, CommandSubject(conn.agentId)) ==>
         sys.procs[p].who.token in hostOf && hostOf[sys.procs[p].who.token] == h
  }

  lemma CommandReachesItsHost(hostOf: Tokens, events: seq<Event>)
    requires OneHostPerId(hostOf, Identities(Trace(hostOf, BOOT, events)))
    requires NoneOverheard(hostOf, Identities(Trace(hostOf, BOOT, events)))
    ensures WellRouted(hostOf, Trace(hostOf, BOOT, events))
  {
    var sys := Trace(hostOf, BOOT, events);
    TraceInvariant(hostOf, events);
    forall h | ByHost(sys.reg, h).Found?
      ensures Delivered(hostOf, sys, h, ByHost(sys.reg, h).conn)
    {
      var conn := ByHost(sys.reg, h).conn;
      CommandIsHeardByItsAgent(hostOf, events, h);
      ClaimsAgree(hostOf, sys, conn.agentId, h, conn.hostId);
      forall p | p in Receivers(sys, CommandSubject(conn.agentId))
        ensures hostOf[sys.procs[p].who.token] == h
      {
        HearerIsAtHome(hostOf, sys, conn.agentId, h, p);
      }
    }
  }

  lemma HearerIsAtHome(hostOf: Tokens, sys: System, a: AgentId, h: HostId, p: nat)
    requires WellBorn(hostOf, sys) && NoneOverheard(hostOf, Identities(sys))
    requires Claims(hostOf, sys, a, h) && p in Receivers(sys, CommandSubject(a)) && sys.procs[p].who.token in hostOf
    ensures hostOf[sys.procs[p].who.token] == h
  {
    var q :| q in sys.procs && ClaimedBy(hostOf, sys.procs[q].who, a, h);
    var d := Identities(sys);
    assert WellBornProc(hostOf, sys.procs[p]);
    HearsCommand(hostOf, sys.procs[p], a);
    CommandHeard(sys.procs[p].who.id, a);
    assert ClaimedBy(hostOf, d[p], d[p].id, hostOf[d[p].token]) && ClaimedBy(hostOf, d[q], d[q].id, h);
  }

  // ------------------------------------------------------------------------
  // Which deployments keep the registry coherent
  // ------------------------------------------------------------------------

  lemma RegistrationStaysHome(hostOf: Tokens, sys: System, e: Event, step: Step)
    requires WellBorn(hostOf, sys) && Claimed(hostOf, sys) && OneHostPerId(hostOf, Identities(sys))
    requires RegistryStep(hostOf, sys, e) == Some(step) && step.Register? && step.host.Some?
    ensures Benign(sys.reg, step)
  {
    var a := Resolve(step.requested, step.drawn);
    RegistrationIsClaimed(hostOf, sys, e, step);
    if a in sys.reg.agents {
      ClaimsAgree(hostOf, sys, a, step.host.value, sys.reg.agents[a].hostId);
    }
  }

  lemma NextKeepsCoherent(hostOf: Tokens, sys: System, e: Event)
    requires WellBorn(hostOf, sys) && Claimed(hostOf, sys) && Owned(sys.reg) && OneHostPerId(hostOf, Identities(sys))
    requires Dangling(sys.reg) == {} && !e.ForceDisconnect?
    ensures Dangling(Next(hostOf, sys, e).reg) == {}
  {
    var step := RegistryStep(hostOf, sys, e);
    if step.Some? {
      if step.value.Register? && step.value.host.Some? {
        RegistrationStaysHome(hostOf, sys, e, step.value);
      }
      BenignIffUnbroken(sys.reg, step.value);
      DanglingAfter(sys.reg, step.value);
    }
  }

  predicate StartsFrom(d: Deployment, e: Event) {
    e.Start? ==> e.p in d && d[e.p] == Identity(e.token, Resolve(e.configured, e.drawn))
  }

  /** The run starts only agents of the deployment, each number at most once. */
  ghost predicate Deployed(d: Deployment, events: seq<Event>) {
    forall i :: 0 <= i < |events| ==> StartsFrom(d, events[i])
  }

  /** Beside that, nobody is disconnected by force. */
  ghost predicate RunOf(d: Deployment, events: seq<Event>) {
    Deployed(d, events) && forall i :: 0 <= i < |events| ==> !events[i].ForceDisconnect?
  }

  lemma {:induction false} ProcsAreDeployed(hostOf: Tokens, d: Deployment, events: seq<Event>)
    requires Deployed(d, events)
    ensures forall p :: p in Identities(Trace(hostOf, BOOT, events)) ==>
              p in d && d[p] == Identities(Trace(hostOf, BOOT, events))[p]
  {
    if events != [] {
      var n := |events| - 1;
      ProcsAreDeployed(hostOf, d, events[..n]);
      TraceInvariant(hostOf, events[..n]);
      var sys := Trace(hostOf, BOOT, events[..n]);
      NextKeepsProcs(hostOf, sys, events[n]);
      forall p | p in Trace(hostOf, BOOT, events).procs
        ensures p in d && d[p] == Trace(hostOf, BOOT, events).procs[p].who
      {
        if p in sys.procs {
          assert Identities(sys)[p] == sys.procs[p].who;
        }
      }
    }
  }

  lemma SubdeploymentOneHost(hostOf: Tokens, d: Deployment, part: Deployment)
    requires OneHostPerId(hostOf, d)
    requires forall p :: p in part ==> p in d && d[p] == part[p]
    ensures OneHostPerId(hostOf, part)
  {
  }

  lemma SubdeploymentNoneOverheard(hostOf: Tokens, d: Deployment, part: Deployment)
    requires NoneOverheard(hostOf, d)
    requires forall p :: p in part ==> p in d && d[p] == part[p]
    ensures NoneOverheard(hostOf, part)
  {
  }

  lemma {:induction false} OneHostPerIdNeverDangles(hostOf: Tokens, d: Deployment, events: seq<Event>)
    requires OneHostPerId(hostOf, d) && RunOf(d, events)
    ensures Dangling(Trace(hostOf, BOOT, events).reg) == {}
  {
    if events == [] {
      assert Dangling(EMPTY) == {};
    } else {
      var n := |events| - 1;
      var sys := Trace(hostOf, BOOT, events[..n]);
      OneHostPerIdNeverDangles(hostOf, d, events[..n]);
      TraceInvariant(hostOf, events[..n]);
      ProcsAreDeployed(hostOf, d, events[..n]);
      SubdeploymentOneHost(hostOf, d, Identities(sys));
      NextKeepsCoherent(hostOf, sys, events[n]);
    }
  }

  lemma {:induction false} TraceAppend(hostOf: Tokens, sys: System, a: seq<Event>, b: seq<Event>)
    ensures Trace(hostOf, sys, a + b) == Trace(hostOf, Trace(hostOf, sys, a), b)
  {
    if b == [] {
      assert a + b == a;
    } else {
      TraceAppend(hostOf, sys, a, b[..|b| - 1]);
      assert (a + b)[..|a + b| - 1] == a + b[..|b| - 1];
    }
  }

  /** An agent asks, is served and accepted, takes the reply and subscribes. */
  function Join(p: nat, who: Identity): seq<Event> {
    [SendRegister(p), ServeRegister(RegisterRequest(p, who), true, "", 0), TakeReply(p, Accepted(who.id)), Subscribe(p)]
  }

  lemma Unroll4(hostOf: Tokens, sys: System, es: seq<Event>)
    requires |es| == 4
    ensures Trace(hostOf, sys, es) ==
            Next(hostOf, Next(hostOf, Next(hostOf, Next(hostOf, sys, es[0]), es[1]), es[2]), es[3])
  {
    assert es[..3][..2] == es[..2];
    assert es[..2][..1] == es[..1];
    assert es[..1][..0] == [];
    assert Trace(hostOf, sys, es[..1]) == Next(hostOf, sys, es[0]);
    assert Trace(hostOf, sys, es[..2]) == Next(hostOf, Trace(hostOf, sys, es[..1]), es[1]);
    assert Trace(hostOf, sys, es[..3]) == Next(hostOf, Trace(hostOf, sys, es[..2]), es[2]);
  }

  lemma Joined(hostOf: Tokens, sys: System, p: nat, h: HostId)
    requires WellBorn(hostOf, sys) && Running(sys, p)
    requires ClaimedBy(hostOf, sys.procs[p].who, sys.procs[p].who.id, h)
    ensures var who := sys.procs[p].who;
            var sys' := Trace(hostOf, sys, Join(p, who));
            && sys'.reg == RegisterAs(sys.reg, h, who.id, 0)
            && sys'.procs == WithJoined(sys.procs, p)
  {
    var who := sys.procs[p].who;
    var es := Join(p, who);
    Unroll4(hostOf, sys, es);
    Served(hostOf, sys, p, h);
    Settled(hostOf, Next(hostOf, Next(hostOf, sys, es[0]), es[1]), p);
  }

  /** An accepted agent takes the reply and subscribes. */
  lemma Settled(hostOf: Tokens, sys: System, p: nat)
    requires Running(sys, p) && sys.procs[p].who.id != ""
    requires RegisterReply(p, Accepted(sys.procs[p].who.id)) in sys.packets
    ensures var s := Next(hostOf, Next(hostOf, sys, TakeReply(p, Accepted(sys.procs[p].who.id))), Subscribe(p));
            s.procs == WithJoined(sys.procs, p) && s.reg == sys.reg
  {
    var s1 := Next(hostOf, sys, TakeReply(p, Accepted(sys.procs[p].who.id)));
    assert s1.procs == sys.procs[p := sys.procs[p].(registered := true)] && s1.reg == sys.reg;
  }

  lemma Served(hostOf: Tokens, sys: System, p: nat, h: HostId)
    requires Running(sys, p) && ClaimedBy(hostOf, sys.procs[p].who, sys.procs[p].who.id, h)
    ensures var who := sys.procs[p].who;
            var s := Next(hostOf, Next(hostOf, sys, Join(p, who)[0]), Join(p, who)[1]);
            && s.reg == RegisterAs(sys.reg, h, who.id, 0) && s.procs == sys.procs
            && RegisterReply(p, Accepted(who.id)) in s.packets
  {
    var who := sys.procs[p].who;
    var s1 := Next(hostOf, sys, SendRegister(p));
    assert RegisterRequest(p, who) in s1.packets;
  }

  /** From any state with two running agents of one identity and tokens of two
      hosts: once both have joined, a command for the first host goes to the
      second one's connection and is heard by both. */
  lemma SharedIdMisroutes(hostOf: Tokens, sys: System, p: nat, q: nat, h: HostId, k: HostId)
    returns (events: seq<Event>)
    requires WellBorn(hostOf, sys) && Running(sys, p) && Running(sys, q) && h != k
    requires ClaimedBy(hostOf, sys.procs[p].who, sys.procs[q].who.id, h)
    requires ClaimedBy(hostOf, sys.procs[q].who, sys.procs[q].who.id, k)
    ensures var sys' := Trace(hostOf, sys, events);
            && ByHost(sys'.reg, h).Found? && ByHost(sys'.reg, h).conn.hostId == k
            && (Subscribable(sys.procs[q].who.id) ==>
                  {p, q} <= Receivers(sys', CommandSubject(ByHost(sys'.reg, h).conn.agentId)))
            && h in Dangling(sys'.reg)
    ensures Ordinary(events)
  {
    events := BothJoined(hostOf, sys, p, q, h, k);
    TookOver(sys.reg, h, k, sys.procs[q].who.id);
    BothSubscribed(sys.procs, Trace(hostOf, sys, events), p, q, sys.procs[q].who.id);
    if Subscribable(sys.procs[q].who.id) {
      HearsItself(sys.procs[q].who.id);
    }
  }

  /** From any state with two running agents of which one's ID is a pattern that
      matches the other's: once both have joined, commands for the other's host are
      heard by the one. */
  lemma PatternIdOverhears(hostOf: Tokens, sys: System, p: nat, q: nat, h: HostId, k: HostId)
    returns (events: seq<Event>)
    requires WellBorn(hostOf, sys) && Running(sys, p) && Running(sys, q)
    requires ClaimedBy(hostOf, sys.procs[p].who, sys.procs[p].who.id, h)
    requires ClaimedBy(hostOf, sys.procs[q].who, sys.procs[q].who.id, k)
    requires Overhears(sys.procs[p].who.id, sys.procs[q].who.id)
    ensures var sys' := Trace(hostOf, sys, events);
            && p in sys'.procs && sys'.procs[p].who == sys.procs[p].who
            && ByHost(sys'.reg, k).Found? && ByHost(sys'.reg, k).conn.hostId == k
            && p in Receivers(sys', CommandSubject(ByHost(sys'.reg, k).conn.agentId))
    ensures Ordinary(events)
  {
    events := BothJoined(hostOf, sys, p, q, h, k);
    SecondIsFound(RegisterAs(sys.reg, h, sys.procs[p].who.id, 0), k, sys.procs[q].who.id);
    BothSubscribed(sys.procs, Trace(hostOf, sys, events), p, q, sys.procs[q].who.id);
  }

  lemma SecondIsFound(s: State, k: HostId, a: AgentId)
    ensures var r := ByHost(RegisterAs(s, k, a, 0), k);
            r.Found? && r.conn.hostId == k && r.conn.agentId == a
  {
  }

  /** So an agent configured with the ID `*` hears the commands for every ID without
      a dot, of whatever host. */
  lemma StarOverhears(hostOf: Tokens, sys: System, p: nat, q: nat, h: HostId, k: HostId)
    returns (events: seq<Event>)
    requires WellBorn(hostOf, sys) && Running(sys, p) && Running(sys, q) && h != k
    requires ClaimedBy(hostOf, sys.procs[p].who, "*", h)
    requires ClaimedBy(hostOf, sys.procs[q].who, sys.procs[q].who.id, k)
    requires Publishable(sys.procs[q].who.id) && '.' !in sys.procs[q].who.id
    ensures var sys' := Trace(hostOf, sys, events);
            && ByHost(sys'.reg, k).Found?
            && p in Receivers(sys', CommandSubject(ByHost(sys'.reg, k).conn.agentId))
            && p in sys'.procs && sys'.procs[p].who == sys.procs[p].who
            && !WellRouted(hostOf, sys')
  {
    WildcardHears(sys.procs[q].who.id);
    events := PatternIdOverhears(hostOf, sys, p, q, h, k);
    var sys' := Trace(hostOf, sys, events);
    assert !Delivered(hostOf, sys', k, ByHost(sys'.reg, k).conn);
  }

  /** The agents after `p` has joined. */
  function WithJoined(procs: map<nat, Proc>, p: nat): map<nat, Proc>
    requires p in procs
  {
    var id := procs[p].who.id;
    procs[p := Proc(procs[p].who, true, true,
                    if Subscribable(CommandSubject(id)) then Subscriptions(id) else procs[p].patterns)]
  }

  /** Neither starts an agent nor disconnects one by force. */
  ghost predicate Ordinary(events: seq<Event>) {
    forall i :: 0 <= i < |events| ==> !events[i].ForceDisconnect? && !events[i].Start?
  }

  lemma BothJoined(hostOf: Tokens, sys: System, p: nat, q: nat, h: HostId, k: HostId) returns (events: seq<Event>)
    requires WellBorn(hostOf, sys) && Running(sys, p) && Running(sys, q)
    requires ClaimedBy(hostOf, sys.procs[p].who, sys.procs[p].who.id, h)
    requires ClaimedBy(hostOf, sys.procs[q].who, sys.procs[q].who.id, k)
    ensures var sys' := Trace(hostOf, sys, events);
            && sys'.reg == RegisterAs(RegisterAs(sys.reg, h, sys.procs[p].who.id, 0), k, sys.procs[q].who.id, 0)
            && sys'.procs == WithJoined(WithJoined(sys.procs, p), q)
    ensures Ordinary(events)
  {
    var first := OneJoined(hostOf, sys, p, h);
    var sys1 := Trace(hostOf, sys, first);
    IdentityIsStable(hostOf, sys, first);
    var second := OneJoined(hostOf, sys1, q, k);
    events := first + second;
    TraceAppend(hostOf, sys, first, second);
  }

  lemma OneJoined(hostOf: Tokens, sys: System, p: nat, h: HostId) returns (events: seq<Event>)
    requires WellBorn(hostOf, sys) && Running(sys, p)
    requires ClaimedBy(hostOf, sys.procs[p].who, sys.procs[p].who.id, h)
    ensures Trace(hostOf, sys, events).reg == RegisterAs(sys.reg, h, sys.procs[p].who.id, 0)
    ensures Trace(hostOf, sys, events).procs == WithJoined(sys.procs, p)
    ensures Ordinary(events)
  {
    events := Join(p, sys.procs[p].who);
    Joined(hostOf, sys, p, h);
  }

  /** Both hear whatever their IDs match as patterns. */
  lemma BothSubscribed(procs: map<nat, Proc>, sys: System, p: nat, q: nat, a: AgentId)
    requires p in procs && q in procs && sys.procs == WithJoined(WithJoined(procs, p), q)
    ensures Overhears(procs[p].who.id, a) ==> p in Receivers(sys, CommandSubject(a))
    ensures Overhears(procs[q].who.id, a) ==> q in Receivers(sys, CommandSubject(a))
  {
    CommandHeard(procs[p].who.id, a);
    CommandHeard(procs[q].who.id, a);
    if Subscribable(procs[p].who.id) {
      assert CommandSubject(procs[p].who.id) in sys.procs[p].patterns;
    }
    if Subscribable(procs[q].who.id) {
      assert CommandSubject(procs[q].who.id) in sys.procs[q].patterns;
    }
  }

  lemma TookOver(s: State, h: HostId, k: HostId, a: AgentId)
    requires h != k
    ensures var s' := RegisterAs(RegisterAs(s, h, a, 0), k, a, 0);
            && ByHost(s', h).Found? && ByHost(s', h).conn.hostId == k && ByHost(s', h).conn.agentId == a
            && h in Dangling(s')
  {
  }

  lemma BothStarted(hostOf: Tokens, d: Deployment, p: nat, q: nat)
    requires p in d && q in d && p != q && d[p].token != "" && d[q].token != "" && d[p].id != "" && d[q].id != ""
    ensures var es := [Start(p, d[p].token, "", d[p].id), Start(q, d[q].token, "", d[q].id)];
            var sys := Trace(hostOf, BOOT, es);
            && RunOf(d, es)
            && Running(sys, p) && Running(sys, q) && sys.procs[p].who == d[p] && sys.procs[q].who == d[q]
  {
    var es := [Start(p, d[p].token, "", d[p].id), Start(q, d[q].token, "", d[q].id)];
    assert es[..1][..0] == [];
    assert Trace(hostOf, BOOT, es[..1]) == Next(hostOf, BOOT, es[0]);
  }

  /** A deployment that shares an identity between hosts has a run that misroutes. */
  lemma SharedIdDangles(hostOf: Tokens, d: Deployment) returns (events: seq<Event>)
    requires !OneHostPerId(hostOf, d)
    ensures RunOf(d, events) && Dangling(Trace(hostOf, BOOT, events).reg) != {}
    ensures !WellRouted(hostOf, Trace(hostOf, BOOT, events))
  {
    var p, q, h, k :|
      p in d && q in d && ClaimedBy(hostOf, d[p], d[q].id, h) && ClaimedBy(hostOf, d[q], d[q].id, k) && h != k;
    var starts := [Start(p, d[p].token, "", d[p].id), Start(q, d[q].token, "", d[q].id)];
    BothStarted(hostOf, d, p, q);
    TraceInvariant(hostOf, starts);
    var rest := SharedIdMisroutes(hostOf, Trace(hostOf, BOOT, starts), p, q, h, k);
    events := starts + rest;
    TraceAppend(hostOf, BOOT, starts, rest);
    assert !Delivered(hostOf, Trace(hostOf, BOOT, events), h, ByHost(Trace(hostOf, BOOT, events).reg, h).conn);
  }

  /** A deployment in which one ID matches the ID of an agent of another host has a
      run in which that agent's commands are overheard. */
  lemma PatternIdIsOverheard(hostOf: Tokens, d: Deployment) returns (events: seq<Event>)
    requires !NoneOverheard(hostOf, d)
    ensures RunOf(d, events) && !WellRouted(hostOf, Trace(hostOf, BOOT, events))
  {
    var p, q, h, k :| p in d && q in d && Overhears(d[p].id, d[q].id)
      && ClaimedBy(hostOf, d[p], d[p].id, h) && ClaimedBy(hostOf, d[q], d[q].id, k) && h != k;
    var starts := [Start(p, d[p].token, "", d[p].id), Start(q, d[q].token, "", d[q].id)];
    BothStarted(hostOf, d, p, q);
    TraceInvariant(hostOf, starts);
    var sys := Trace(hostOf, BOOT, starts);
    var rest := PatternIdOverhears(hostOf, sys, p, q, h, k);
    events := starts + rest;
    TraceAppend(hostOf, BOOT, starts, rest);
    var sys' := Trace(hostOf, BOOT, events);
    assert !Delivered(hostOf, sys', k, ByHost(sys'.reg, k).conn);
  }

  /** Exactly the deployments in which no ID is shared between hosts and none
      matches an ID of another host route every command of every run to its host
      and to nobody else, forced disconnections included. */
  lemma WellRoutedIff(hostOf: Tokens, d: Deployment)
    ensures (forall events :: Deployed(d, events) ==> WellRouted(hostOf, Trace(hostOf, BOOT, events)))
            <==> OneHostPerId(hostOf, d) && NoneOverheard(hostOf, d)
  {
    if !OneHostPerId(hostOf, d) {
      var events := SharedIdDangles(hostOf, d);
      assert Deployed(d, events);
    } else if !NoneOverheard(hostOf, d) {
      var events := PatternIdIsOverheard(hostOf, d);
      assert Deployed(d, events);
    } else {
      forall events | Deployed(d, events)
        ensures WellRouted(hostOf, Trace(hostOf, BOOT, events))
      {
        var d' := Identities(Trace(hostOf, BOOT, events));
        ProcsAreDeployed(hostOf, d, events);
        SubdeploymentOneHost(hostOf, d, d');
        SubdeploymentNoneOverheard(hostOf, d, d');
        CommandReachesItsHost(hostOf, events);
      }
    }
  }

  /** IDs without wildcard tokens, such as the UUIDs that agents draw, overhear
      nobody. */
  lemma LiteralIdsOverhearNobody(hostOf: Tokens, d: Deployment)
    requires OneHostPerId(hostOf, d)
    requires forall p :: p in d ==> Literal(Split(d[p].id))
    ensures NoneOverheard(hostOf, d)
  {
    forall p, q, h, k | p in d && q in d && Overhears(d[p].id, d[q].id)
      && ClaimedBy(hostOf, d[p], d[p].id, h) && ClaimedBy(hostOf, d[q], d[q].id, k)
      ensures h == k
    {
      LiteralHearsItself(d[p].id, d[q].id);
      assert ClaimedBy(hostOf, d[p], d[q].id, h);
    }
  }

  /** Exactly the deployments in which no identity is shared between hosts keep
      every index entry leading home, whatever restarts, delays and repetitions
      their runs contain. */
  lemma CoherentIffOneHostPerId(hostOf: Tokens, d: Deployment)
    ensures (forall events :: RunOf(d, events) ==> Dangling(Trace(hostOf, BOOT, events).reg) == {})
            <==> OneHostPerId(hostOf, d)
  {
    if OneHostPerId(hostOf, d) {
      forall events | RunOf(d, events)
        ensures Dangling(Trace(hostOf, BOOT, events).reg) == {}
      {
        OneHostPerIdNeverDangles(hostOf, d, events);
      }
    } else {
      var events := SharedIdDangles(hostOf, d);
      assert RunOf(d, events);
    }
  }

  /** So in their runs no lookup is ever nil, and each agrees with the scan of the
      connections. */
  lemma OneHostPerIdIsCoherent(hostOf: Tokens, d: Deployment, events: seq<Event>, h: HostId)
    requires OneHostPerId(hostOf, d) && RunOf(d, events)
    ensures var s := Trace(hostOf, BOOT, events).reg;
            ByHost(s, h) == Scan(s, h) && !ByHost(s, h).Nil?
  {
    TraceInvariant(hostOf, events);
    OneHostPerIdNeverDangles(hostOf, d, events);
    LookupIffNotDangling(Trace(hostOf, BOOT, events).reg, h);
  }

  // ------------------------------------------------------------------------
  // Agents whose ID is not a single token
  // ------------------------------------------------------------------------

  ghost predicate SeenOnlyRegistering(s: State, a: AgentId) {
    a in s.agents ==> s.agents[a].lastSeen == s.agents[a].connectedAt
  }

  lemma StepLeavesUnseen(s: State, step: Step, a: AgentId)
    requires SeenOnlyRegistering(s, a) && !(step.Heartbeat? && step.agent == a)
    ensures SeenOnlyRegistering(Apply(s, step), a)
  {
  }

  /** An agent the gateway does not hear was last seen when it registered. */
  lemma {:induction false} UnheardStayUnseen(hostOf: Tokens, events: seq<Event>, a: AgentId)
    requires !HeardByGateway("heartbeat", a)
    ensures SeenOnlyRegistering(Trace(hostOf, BOOT, events).reg, a)
  {
    if events != [] {
      var n := |events| - 1;
      var sys := Trace(hostOf, BOOT, events[..n]);
      UnheardStayUnseen(hostOf, events[..n], a);
      var step := RegistryStep(hostOf, sys, events[n]);
      if step.Some? {
        StepLeavesUnseen(sys.reg, step.value, a);
      }
    }
  }

  lemma UnheardChangeNothing(hostOf: Tokens, sys: System, e: Event)
    requires (e.ServeBeat? && !HeardByGateway("heartbeat", e.agent))
             || (e.ServeLeave? && !HeardByGateway("deregister", e.agent))
    ensures Next(hostOf, sys, e).reg == sys.reg
  {
  }

  lemma CleanedIff(hostOf: Tokens, sys: System, a: AgentId, now: int, timeout: int)
    requires a in sys.reg.agents
    ensures a in Next(hostOf, sys, Clean(now, timeout)).reg.agents <==> now - timeout <= sys.reg.agents[a].lastSeen
  {
  }

  lemma DottedIsUnheard(a: AgentId)
    requires '.' in a
    ensures !HeardByGateway("heartbeat", a) && !HeardByGateway("deregister", a)
  {
    HeardIffDotless("heartbeat", a);
    HeardIffDotless("deregister", a);
  }

  lemma HeardIffDotless(kind: string, a: AgentId)
    requires kind == "heartbeat" || kind == "deregister"
    ensures HeardByGateway(kind, a) <==> Publishable(a) && '.' !in a
  {
    assert '.' !in kind && Legible(kind) && kind[0] != '*' && kind[0] != '>';
    GatewayHearsIff(kind, a);
  }

  /** The heartbeats and the deregistration of an agent with a dot in its ID never
      change the registry. */
  lemma DottedAgentIsUnheard(hostOf: Tokens, sys: System, e: Event)
    requires (e.ServeBeat? || e.ServeLeave?) && '.' in e.agent
    ensures Next(hostOf, sys, e).reg == sys.reg
  {
    DottedIsUnheard(e.agent);
    UnheardChangeNothing(hostOf, sys, e);
  }

  /** So in every run, whatever heartbeats it sends, a cleanup keeps such an agent
      exactly when its registration lies within the timeout. */
  lemma DottedAgentExpires(hostOf: Tokens, events: seq<Event>, a: AgentId, now: int, timeout: int)
    requires '.' in a && a in Trace(hostOf, BOOT, events).reg.agents
    ensures var sys := Trace(hostOf, BOOT, events);
            a in Next(hostOf, sys, Clean(now, timeout)).reg.agents <==> now - timeout <= sys.reg.agents[a].connectedAt
  {
    DottedIsUnheard(a);
    UnheardStayUnseen(hostOf, events, a);
    CleanedIff(hostOf, Trace(hostOf, BOOT, events), a, now, timeout);
  }

  /** Agents without a dot are heard: a delivered heartbeat is a contact. */
  lemma DotlessAgentIsSeen(hostOf: Tokens, sys: System, a: AgentId, health: Health, failing: bool, now: int)
    requires '.' !in a && Publishable(a) && Beat(a) in sys.packets && a in sys.reg.agents
    ensures var reg := Next(hostOf, sys, ServeBeat(a, health, failing, now)).reg;
            a in reg.agents && reg.agents[a].lastSeen == now
  {
    HeardIffDotless("heartbeat", a);
  }

  // ------------------------------------------------------------------------
  // What each event does from end to end
  // ------------------------------------------------------------------------

  /** A new agent has its token and the configured ID, or the drawn one if none is
      configured; without a token there is none. */
  lemma StartedAsConfigured(hostOf: Tokens, sys: System, p: nat, token: string, configured: AgentId, drawn: AgentId)
    requires p !in sys.procs && drawn != ""
    ensures var sys' := Next(hostOf, sys, Start(p, token, configured, drawn));
            && (p in sys'.procs <==> token != "")
            && (p in sys'.procs ==>
                  && Running(sys', p) && !sys'.procs[p].registered && sys'.procs[p].patterns == {}
                  && sys'.procs[p].who.token == token
                  && sys'.procs[p].who.id == if configured != "" then configured else drawn)
            && sys'.procs - {p} == sys.procs - {p} && sys'.reg == sys.reg && sys'.packets == sys.packets
  {
  }

  /** A served request that is accepted connects the sender, as of now, for the
      host of its token, and the reply names it; one that is refused, or whose token
      is not known, is answered with a rejection and changes nothing else. */
  lemma RegistrationIsServed(hostOf: Tokens, sys: System, p: nat, accepted: bool, drawn: AgentId, now: int)
    requires WellBorn(hostOf, sys) && Running(sys, p) && RegisterRequest(p, sys.procs[p].who) in sys.packets
    ensures var who := sys.procs[p].who;
            var sys' := Next(hostOf, sys, ServeRegister(RegisterRequest(p, who), accepted, drawn, now));
            && sys'.procs == sys.procs
            && if accepted && who.token in hostOf
               then
                 && ByHost(sys'.reg, hostOf[who.token]) ==
                    Found(Connection(who.id, hostOf[who.token], now, now, Connected, Healthy))
                 && RegisterReply(p, Accepted(who.id)) in sys'.packets
               else
                 && sys'.reg == sys.reg
                 && RegisterReply(p, Rejected) in sys'.packets
                 && Next(hostOf, sys', TakeReply(p, Rejected)) == sys'
  {
    var who := sys.procs[p].who;
    assert WellBornProc(hostOf, sys.procs[p]);
    var sys' := Next(hostOf, sys, ServeRegister(RegisterRequest(p, who), accepted, drawn, now));
    if !(accepted && who.token in hostOf) {
      var q := sys'.procs[p];
      assert q.(who := q.who.(id := q.who.id), registered := q.registered) == q;
      assert sys'.procs[p := q] == sys'.procs;
    }
  }

  /** A reply that arrives, whatever it says: an acceptance registers the agent under
      the ID it names, if it names one; the rest of the system stays as it was. */
  lemma ReplyIsTaken(hostOf: Tokens, sys: System, p: nat, reply: RegistrationReply)
    requires Running(sys, p) && RegisterReply(p, reply) in sys.packets
    ensures var q, sys' := sys.procs[p], Next(hostOf, sys, TakeReply(p, reply));
            && p in sys'.procs && sys'.procs - {p} == sys.procs - {p} && sys'.reg == sys.reg
            && sys'.procs[p].up && sys'.procs[p].patterns == q.patterns && sys'.procs[p].who.token == q.who.token
            && (sys'.procs[p].registered <==> q.registered || reply.Accepted?)
            && sys'.procs[p].who.id == match reply
                                       case Rejected => q.who.id
                                       case Accepted(id) => if id == "" then q.who.id else id
  {
  }

  /** A packet may be served at any later time, and again: it is never used up. */
  lemma {:induction false} PacketsStay(hostOf: Tokens, sys: System, events: seq<Event>)
    ensures sys.packets <= Trace(hostOf, sys, events).packets
  {
    if events != [] {
      PacketsStay(hostOf, sys, events[..|events| - 1]);
    }
  }

  /** What has not been sent is not served. */
  lemma OnlySentIsServed(hostOf: Tokens, sys: System, e: Event)
    requires || (e.ServeRegister? && e.request !in sys.packets)
             || (e.ServeBeat? && Beat(e.agent) !in sys.packets)
             || (e.ServeLeave? && Leave(e.agent) !in sys.packets)
    ensures Next(hostOf, sys, e) == sys
  {
    assert sys.packets + {} == sys.packets;
  }

  lemma TraceTwo(hostOf: Tokens, sys: System, e0: Event, e1: Event)
    ensures Trace(hostOf, sys, [e0, e1]) == Next(hostOf, Next(hostOf, sys, e0), e1)
  {
    assert [e0, e1][..1] == [e0];
    assert [e0][..0] == [];
    assert Trace(hostOf, sys, [e0]) == Next(hostOf, sys, e0);
  }

  /** A connected agent whose ID has no dot sends a heartbeat, and the gateway has
      what it reports. */
  lemma BeatIsServed(hostOf: Tokens, sys: System, p: nat, health: Health, failing: bool, now: int)
    requires Running(sys, p) && sys.procs[p].who.id in sys.reg.agents
    requires Publishable(sys.procs[p].who.id) && '.' !in sys.procs[p].who.id
    ensures var a := sys.procs[p].who.id;
            var sys' := Trace(hostOf, sys, [SendBeat(p), ServeBeat(a, health, failing, now)]);
            && a in sys'.reg.agents
            && sys'.reg.agents[a] ==
               sys.reg.agents[a].(lastSeen := now, health := health, status := if failing then Degraded else Connected)
            && sys'.reg.agents - {a} == sys.reg.agents - {a} && sys'.reg.hostIndex == sys.reg.hostIndex
            && sys'.procs == sys.procs
  {
    var a := sys.procs[p].who.id;
    TraceTwo(hostOf, sys, SendBeat(p), ServeBeat(a, health, failing, now));
    HeardIffDotless("heartbeat", a);
    var sent := Next(hostOf, sys, SendBeat(p));
    assert Beat(a) in sent.packets && sent.reg == sys.reg && sent.procs == sys.procs;
    HeardBeat(hostOf, sent, a, health, failing, now);
  }

  lemma HeardBeat(hostOf: Tokens, sys: System, a: AgentId, health: Health, failing: bool, now: int)
    requires HeardByGateway("heartbeat", a) && Beat(a) in sys.packets
    ensures var sys' := Next(hostOf, sys, ServeBeat(a, health, failing, now));
            sys'.reg == Apply(sys.reg, Heartbeat(a, health, failing, now)) && sys'.procs == sys.procs
  {
  }

  /** A deregistration under an ID without a dot takes effect: the agent is gone,
      its host unknown, and everyone else as before. */
  lemma DotlessAgentLeaves(hostOf: Tokens, sys: System, a: AgentId)
    requires '.' !in a && Publishable(a) && Leave(a) in sys.packets && a in sys.reg.agents
    ensures var reg, h := Next(hostOf, sys, ServeLeave(a)).reg, sys.reg.agents[a].hostId;
            && reg.agents == sys.reg.agents - {a} && reg.hostIndex == sys.reg.hostIndex - {h}
            && ByHost(reg, h) == NotFound
  {
    HeardIffDotless("deregister", a);
    HeardLeave(hostOf, sys, a);
  }

  lemma HeardLeave(hostOf: Tokens, sys: System, a: AgentId)
    requires HeardByGateway("deregister", a) && Leave(a) in sys.packets
    ensures Next(hostOf, sys, ServeLeave(a)).reg == Apply(sys.reg, Deregister(a))
  {
  }

  /** A connected agent whose ID has no dot sends its deregistration, and the
      gateway serves it. */
  lemma LeaveIsServed(hostOf: Tokens, sys: System, p: nat)
    requires Running(sys, p) && sys.procs[p].who.id in sys.reg.agents
    requires Publishable(sys.procs[p].who.id) && '.' !in sys.procs[p].who.id
    ensures var a := sys.procs[p].who.id;
            var h := sys.reg.agents[a].hostId;
            var reg := Trace(hostOf, sys, [SendLeave(p), ServeLeave(a)]).reg;
            && reg.agents == sys.reg.agents - {a} && reg.hostIndex == sys.reg.hostIndex - {h}
            && ByHost(reg, h) == NotFound
  {
    var a := sys.procs[p].who.id;
    TraceTwo(hostOf, sys, SendLeave(p), ServeLeave(a));
    var sent := Next(hostOf, sys, SendLeave(p));
    assert Leave(a) in sent.packets && sent.reg == sys.reg;
    DotlessAgentLeaves(hostOf, sent, a);
  }

  /** An agent that has joined and then leaves is gone, and its host unknown. */
  lemma JoinedAgentLeaves(hostOf: Tokens, sys: System, p: nat, h: HostId)
    requires WellBorn(hostOf, sys) && Running(sys, p)
    requires ClaimedBy(hostOf, sys.procs[p].who, sys.procs[p].who.id, h)
    requires Publishable(sys.procs[p].who.id) && '.' !in sys.procs[p].who.id
    ensures var who := sys.procs[p].who;
            var joined := Trace(hostOf, sys, Join(p, who)).reg;
            var left := Trace(hostOf, sys, Join(p, who) + [SendLeave(p), ServeLeave(who.id)]).reg;
            && ByHost(joined, h).Found? && ByHost(joined, h).conn.agentId == who.id
            && ByHost(left, h) == NotFound
            && left.agents == joined.agents - {who.id} && left.hostIndex == joined.hostIndex - {h}
  {
    var who := sys.procs[p].who;
    Joined(hostOf, sys, p, h);
    SecondIsFound(sys.reg, h, who.id);
    TraceAppend(hostOf, sys, Join(p, who), [SendLeave(p), ServeLeave(who.id)]);
    LeaveIsServed(hostOf, Trace(hostOf, sys, Join(p, who)), p);
  }

  /** A forced disconnection of a connected agent leaves a nil connection, and
      everyone else as before. */
  lemma DisconnectedByForce(hostOf: Tokens, sys: System, a: AgentId)
    requires Owned(sys.reg) && a in sys.reg.agents
    ensures var sys' := Next(hostOf, sys, ForceDisconnect(a));
            && ByHost(sys'.reg, sys.reg.agents[a].hostId) == Nil
            && sys'.reg.agents == sys.reg.agents - {a} && sys'.reg.hostIndex == sys.reg.hostIndex
            && sys'.procs == sys.procs
  {
  }

  lemma {:induction false} StoppedStaysDown(hostOf: Tokens, sys: System, p: nat, events: seq<Event>)
    requires p in sys.procs && !sys.procs[p].up
    ensures var sys' := Trace(hostOf, sys, events); p in sys'.procs && !sys'.procs[p].up
  {
    if events != [] {
      StoppedStaysDown(hostOf, sys, p, events[..|events| - 1]);
    }
  }

  predicate Sends(e: Event, p: nat) {
    (e.SendRegister? || e.SendBeat? || e.SendLeave?) && e.p == p
  }

  /** A stopped agent hears nothing and sends nothing ever after. */
  lemma StoppedStaysSilent(hostOf: Tokens, sys: System, p: nat, events: seq<Event>, subject: string, e: Event)
    requires WellBorn(hostOf, sys) && p in sys.procs && Sends(e, p)
    ensures var sys' := Trace(hostOf, Next(hostOf, sys, Stop(p)), events);
            p !in Receivers(sys', subject) && Next(hostOf, sys', e) == sys'
  {
    var stopped := Next(hostOf, sys, Stop(p));
    NextKeepsIdentity(hostOf, sys, Stop(p));
    IdentityIsStable(hostOf, stopped, events);
    StoppedStaysDown(hostOf, stopped, p, events);
    var sys' := Trace(hostOf, stopped, events);
    assert WellBornProc(hostOf, sys'.procs[p]);
    assert sys'.packets + {} == sys'.packets;
  }
}
