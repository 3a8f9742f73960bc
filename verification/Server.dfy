/**
 The gateway server's handlers, updating the two maps in place.  Each method is
 one critical section and is proved to perform the registry step of its name.
 */
module GatewayServer {
  import opened Basics
  import opened Registry
  import HostStatus

  datatype RegistrationReply = Rejected | Accepted(agentId: AgentId)

  datatype HealthReply = NotConnected | Reported(health: Health) | NilDereference

  /** `list` enumerates the connections of `m` once each, in the order `order`
      in which the map was iterated. */
  ghost predicate Enumerates(m: map<AgentId, Connection>, list: seq<Connection>, order: seq<AgentId>) {
    && |list| == |order|
    && (set a | a in order) == m.Keys
    && (forall i, j :: 0 <= i < j < |order| ==> order[i] != order[j])
    && (forall i :: 0 <= i < |order| ==> order[i] in m && list[i] == m[order[i]])
  }

  /** `target` is the host whose row a handler that performs `step` writes. */
  ghost predicate Notifies(s: State, step: Step, target: Option<HostId>, online: bool) {
    forall h: HostId :: target == Some(h) <==> HostStatus.Issued(s, step, h) == Some(online)
  }

  function Hosts(s: State, order: seq<AgentId>): set<HostId>
    requires forall i :: 0 <= i < |order| ==> order[i] in s.agents
  {
    set i | 0 <= i < |order| :: s.agents[order[i]].hostId
  }

  lemma HostsStep(s: State, order: seq<AgentId>, k: nat)
    requires forall i :: 0 <= i < |order| ==> order[i] in s.agents
    requires k < |order|
    ensures Hosts(s, order[..k + 1]) == Hosts(s, order[..k]) + {s.agents[order[k]].hostId}
  {
    var longer := Hosts(s, order[..k + 1]);
    forall h | h in Hosts(s, order[..k]) + {s.agents[order[k]].hostId}
      ensures h in longer
    {
      var i :| 0 <= i < k + 1 && s.agents[order[i]].hostId == h;
      assert order[..k + 1][i] == order[i];
    }
    forall h | h in longer
      ensures h in Hosts(s, order[..k]) + {s.agents[order[k]].hostId}
    {
      var i :| 0 <= i < k + 1 && s.agents[order[..k + 1][i]].hostId == h;
      if i < k {
        assert order[..k][i] == order[..k + 1][i];
      }
    }
  }

  class Server {
    var agents: map<AgentId, Connection>
    var hostIndex: map<HostId, AgentId>
    const heartbeatTimeout: int

    ghost function Contents(): State
      reads this
    {
      State(agents, hostIndex)
    }

    constructor (heartbeatTimeout: int)
      ensures Contents() == EMPTY && this.heartbeatTimeout == heartbeatTimeout
    {
      agents, hostIndex := map[], map[];
      this.heartbeatTimeout := heartbeatTimeout;
    }

    /** Returns the reply and the host whose repository row is written "online", if any. */
    method HandleRegistration(lookup: Option<HostId>, requested: AgentId, drawn: AgentId, now: int)
      returns (reply: RegistrationReply, online: Option<HostId>)
      modifies this
      ensures Contents() == Apply(old(Contents()), Register(lookup, requested, drawn, now))
      ensures reply.Rejected? <==> lookup.None?
      ensures reply.Accepted? ==> ByHost(Contents(), lookup.value).Found?
                                  && ByHost(Contents(), lookup.value).conn.agentId == reply.agentId
      ensures reply.Accepted? ==> reply.agentId == if requested != "" then requested else drawn
      ensures Notifies(old(Contents()), Register(lookup, requested, drawn, now), online, true)
    {
      if lookup.None? {
        return Rejected, None;
      }
      var host := lookup.value;
      var agentId := requested;
      if agentId == "" {
        agentId := drawn;
      }
      if host in hostIndex {
        agents := agents - {hostIndex[host]};
      }
      agents := agents[agentId := Connection(agentId, host, now, now, Connected, Healthy)];
      hostIndex := hostIndex[host := agentId];
      reply, online := Accepted(agentId), Some(host);
    }

    /** Returns the host whose repository row is written "online", if any. */
    method HandleHeartbeat(agent: AgentId, health: Health, failing: bool, now: int)
      returns (online: Option<HostId>)
      modifies this
      ensures Contents() == Apply(old(Contents()), Heartbeat(agent, health, failing, now))
      ensures Notifies(old(Contents()), Heartbeat(agent, health, failing, now), online, true)
      ensures agents.Keys == old(agents).Keys && hostIndex == old(hostIndex)
      ensures agent in agents ==> agents[agent].health == health && agents[agent].lastSeen == now
      ensures agent in agents ==> (agents[agent].status == Degraded <==> failing)
    {
      online := None;
      if agent in agents {
        var conn := agents[agent];
        conn := conn.(lastSeen := now, health := health);
        if failing {
          conn := conn.(status := Degraded);
        } else {
          conn := conn.(status := Connected);
        }
        agents := agents[agent := conn];
        online := Some(conn.hostId);
      }
    }

    /** Returns the host the inventory is synchronised into, if any. */
    method HandleInventory(agent: AgentId) returns (target: Option<HostId>)
      ensures target.Some? <==> agent in agents
      ensures target.Some? ==> target.value == agents[agent].hostId
    {
      target := if agent in agents then Some(agents[agent].hostId) else None;
    }

    /** Returns the host whose repository row is written "offline", if any. */
    method HandleDeregistration(agent: AgentId) returns (offline: Option<HostId>)
      modifies this
      ensures Contents() == Apply(old(Contents()), Deregister(agent))
      ensures Notifies(old(Contents()), Deregister(agent), offline, false)
    {
      offline := None;
      if agent in agents {
        var conn := agents[agent];
        agents := agents - {agent};
        hostIndex := hostIndex - {conn.hostId};
        offline := Some(conn.hostId);
      }
    }

    /** Collects the stale agents, then deletes them one by one; returns one
        pending "offline" write per deleted agent. */
    method CleanupStaleAgents(now: int) returns (offline: seq<HostId>)
      modifies this
      ensures Contents() == Apply(old(Contents()), Cleanup(now, heartbeatTimeout))
      ensures |offline| == |Stale(old(Contents()), now - heartbeatTimeout)|
      ensures forall h :: h in offline <==>
                HostStatus.Issued(old(Contents()), Cleanup(now, heartbeatTimeout), h) == Some(false)
    {
      ghost var before := Contents();
      var threshold := now - heartbeatTimeout;
      var stale := CollectStale(threshold);
      offline := [];
      var i := 0;
      while i < |stale|
        invariant 0 <= i <= |stale|
        invariant agents == before.agents - (set k | 0 <= k < i :: stale[k])
        invariant hostIndex == before.hostIndex - Hosts(before, stale[..i])
        invariant |offline| == i
        invariant forall k :: 0 <= k < i ==> offline[k] == before.agents[stale[k]].hostId
      {
        var conn := agents[stale[i]];
        agents := agents - {stale[i]};
        hostIndex := hostIndex - {conn.hostId};
        offline := offline + [conn.hostId];
        HostsStep(before, stale, i);
        i := i + 1;
      }
      assert stale[..i] == stale;
      StaleInOrder(before, threshold, stale);
      assert forall h :: h in offline <==> h in Hosts(before, stale);
      assert agents == before.agents - Stale(before, threshold);
    }

    /** The first loop of the cleanup: the stale agents, each once. */
    method CollectStale(threshold: int) returns (stale: seq<AgentId>)
      ensures (set a | a in stale) == Stale(Contents(), threshold)
      ensures forall i, j :: 0 <= i < j < |stale| ==> stale[i] != stale[j]
      ensures forall i :: 0 <= i < |stale| ==> stale[i] in agents
    {
      stale := [];
      var todo := agents.Keys;
      while todo != {}
        invariant todo <= agents.Keys
        invariant forall i :: 0 <= i < |stale| ==> stale[i] in agents && stale[i] !in todo
        invariant forall i, j :: 0 <= i < j < |stale| ==> stale[i] != stale[j]
        invariant forall a :: a in stale <==> a in agents.Keys - todo && agents[a].lastSeen < threshold
        decreases todo
      {
        var a :| a in todo;
        if agents[a].lastSeen < threshold {
          stale := stale + [a];
        }
        todo := todo - {a};
      }
    }

    /** The deletion at the end of the HTTP handler of the same name. */
    method DisconnectAgent(agent: AgentId)
      modifies this
      ensures Contents() == Apply(old(Contents()), Disconnect(agent))
    {
      agents := agents - {agent};
    }

    method GetAgentByHost(h: HostId) returns (r: Lookup)
      ensures r == ByHost(Contents(), h)
      ensures Owned(Contents()) && h !in Dangling(Contents()) ==> r == Scan(Contents(), h)
    {
      if h !in hostIndex {
        r := NotFound;
      } else if hostIndex[h] in agents {
        r := Found(agents[hostIndex[h]]);
      } else {
        r := Nil;
      }
      if Owned(Contents()) {
        LookupIffNotDangling(Contents(), h);
      }
    }

    /** Reading the health through a nil connection dereferences nil. */
    method GetAgentHealth(h: HostId) returns (r: HealthReply)
      ensures r.NotConnected? <==> h !in hostIndex
      ensures r.NilDereference? <==> h in Nils(Contents())
      ensures r.Reported? ==> ByHost(Contents(), h).Found? && r.health == ByHost(Contents(), h).conn.health
      ensures forall steps :: Contents() == Run(EMPTY, steps) && r.Reported? ==>
                LastReport(steps, hostIndex[h]).Some? && r.health == LastReport(steps, hostIndex[h]).value.0
    {
      forall steps | Contents() == Run(EMPTY, steps) && ByHost(Contents(), h).Found?
        ensures LastReport(steps, hostIndex[h]).Some?
        ensures agents[hostIndex[h]].health == LastReport(steps, hostIndex[h]).value.0
      {
        ConnectionIsHistory(steps, hostIndex[h]);
      }
      if h !in hostIndex {
        return NotConnected;
      }
      if hostIndex[h] !in agents {
        return NilDereference;
      }
      r := Reported(agents[hostIndex[h]].health);
    }

    method ListAgents() returns (list: seq<Connection>, ghost order: seq<AgentId>)
      ensures Enumerates(agents, list, order)
      ensures |list| == |agents|
    {
      list, order := [], [];
      var todo := agents.Keys;
      while todo != {}
        invariant todo <= agents.Keys
        invariant |list| == |order| && |order| + |todo| == |agents|
        invariant forall a :: a in agents && a !in todo ==> a in order
        invariant forall i, j :: 0 <= i < j < |order| ==> order[i] != order[j]
        invariant forall i :: 0 <= i < |order| ==> order[i] in agents && list[i] == agents[order[i]]
        invariant forall i :: 0 <= i < |order| ==> order[i] !in todo
        decreases todo
      {
        var a :| a in todo;
        list, order := list + [agents[a]], order + [a];
        todo := todo - {a};
      }
    }
  }

  lemma StaleInOrder(s: State, threshold: int, stale: seq<AgentId>)
    requires (set a | a in stale) == Stale(s, threshold)
    requires forall i, j :: 0 <= i < j < |stale| ==> stale[i] != stale[j]
    requires forall i :: 0 <= i < |stale| ==> stale[i] in s.agents
    ensures Hosts(s, stale) == StaleHosts(s, threshold)
    ensures |stale| == |Stale(s, threshold)|
    ensures (set k | 0 <= k < |stale| :: stale[k]) == Stale(s, threshold)
  {
    forall a | a in Stale(s, threshold)
      ensures exists k :: 0 <= k < |stale| && stale[k] == a
    {
      assert a in (set b | b in stale);
    }
    forall k | 0 <= k < |stale|
      ensures stale[k] in Stale(s, threshold)
    {
      assert stale[k] in (set b | b in stale);
    }
    forall h | h in StaleHosts(s, threshold)
      ensures h in Hosts(s, stale)
    {
      var a :| a in Stale(s, threshold) && s.agents[a].hostId == h;
      var k :| 0 <= k < |stale| && stale[k] == a;
    }
    DistinctCount(stale);
  }

  lemma {:induction false} DistinctCount(xs: seq<AgentId>)
    requires forall i, j :: 0 <= i < j < |xs| ==> xs[i] != xs[j]
    ensures |xs| == |set x | x in xs|
  {
    if xs != [] {
      var n := |xs| - 1;
      DistinctCount(xs[..n]);
      assert (set x | x in xs) == (set x | x in xs[..n]) + {xs[n]};
    }
  }
}
