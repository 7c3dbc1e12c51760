/** The connection registry, one call at a time: ConnectionManager over the server manager. */
module Connections {
  import opened Basics
  import opened PortPool
  import opened AgentServers
  import S = Staleness

  class AgentConnection {
    const agent: string
    const port: int                  // 0 without a server
    var sendCh: seq<string>
    var closes: nat
    var cancelled: bool
    var lastSeen: int

    constructor (agent: string, port: int, now: int)
      ensures this.agent == agent && this.port == port && lastSeen == now
      ensures sendCh == [] && closes == 0 && !cancelled
    {
      this.agent, this.port, lastSeen := agent, port, now;
      sendCh, closes, cancelled := [], 0, false;
    }

    predicate Open()
      reads this
    {
      closes == 0 && !cancelled && |sendCh| <= SEND_CHANNEL_BUFFER
    }

    predicate Retired()
      reads this
    {
      closes == 1 && cancelled
    }
  }

  lemma MinusOne<V>(m: map<string, V>, gone: set<string>, a: string)
    ensures (m - gone) - {a} == m - (gone + {a})
  {
  }

  lemma Replaced<V>(m: map<string, V>, a: string, v: V)
    ensures (m - {a})[a := v] == m[a := v]
  {
  }

  ghost function Picked<V>(m: map<string, V>, names: set<string>): set<V>
    requires names <= m.Keys
  {
    set b | b in names :: m[b]
  }

  lemma PickedOne<V>(base: set<V>, m: map<string, V>, gone: set<string>, a: string)
    requires gone <= m.Keys && a in m
    ensures base + Picked(m, gone) + {m[a]} == base + Picked(m, gone + {a})
  {
  }

  lemma DoneOne(all: set<string>, todo: set<string>, a: string)
    requires a in todo
    ensures a in all ==> all - (todo - {a}) == (all - todo) + {a}
    ensures a !in all ==> all - (todo - {a}) == all - todo
  {
  }

  datatype SendResult = Queued | NotFound | TimedOut

  class ConnectionManager {
    var agents: map<string, AgentConnection>
    var asm: AgentServerManager?
    ghost var retired: set<AgentConnection>      // every connection that has left the map

    ghost function Servers(): set<object>
      reads this
    {
      if asm == null then {} else {asm, asm.pm}
    }

    /** Every connection in the map is open and under its own agent's name. */
    ghost predicate ConnectionsOk()
      reads this, agents.Values
    {
      forall a :: a in agents ==> agents[a].agent == a && agents[a].Open()
    }

    /** Every running server belongs to a registered connection with the same port. */
    ghost predicate ServersOk()
      reads this, Servers()
    {
      if asm == null then
        forall a :: a in agents ==> agents[a].port == 0
      else
        asm.Valid() && forall a :: a in asm.servers ==> a in agents && agents[a].port == asm.servers[a].port
    }

    /** Every connection ever registered is open and in the map, or has been cancelled and closed once. */
    ghost predicate Valid()
      reads this, agents.Values, retired, Servers()
    {
      ConnectionsOk() && ServersOk() && forall c :: c in retired ==> c.Retired()
    }

    constructor ()
      ensures Valid() && agents == map[] && asm == null && retired == {}
    {
      agents := map[];
      asm := null;
      retired := {};
    }

    /** Every server this manager runs is that of a registered connection, on the same port. */
    ghost predicate Suits(m: AgentServerManager)
      reads this, m, m.pm
    {
      m.Valid() && forall a :: a in m.servers ==> a in agents && agents[a].port == m.servers[a].port
    }

    /** Any manager is taken; the invariant carries over exactly if its servers belong to registered connections. */
    method SetAgentServerManager(m: AgentServerManager)
      requires Valid()
      modifies this`asm
      ensures asm == m && agents == old(agents) && retired == old(retired)
      ensures Valid() <==> Suits(m)
    {
      asm := m;
    }

    ghost function View(): Fleet
      reads this, Servers()
    {
      if asm == null then Fleet(map[], []) else asm.View()
    }

    ghost function Seen(): S.LastSeen
      reads this, agents.Values
    {
      map a | a in agents :: agents[a].lastSeen
    }

    /** cancel(), close(SendCh), and StopAgentServer if the connection carries a port. */
    method Disconnect(conn: AgentConnection)
      requires ServersOk() && conn.agent in agents && agents[conn.agent] == conn && conn.closes == 0
      modifies conn`closes, conn`cancelled, Servers()
      ensures conn.Retired()
      ensures ServersOk() && View() == Stopped(old(View()), conn.agent)
      ensures asm != null ==> asm.pm == old(asm.pm) && asm.servers == old(asm.servers) - {conn.agent}
      ensures View().ports == old(View()).ports - {conn.agent}
      ensures forall a :: a in agents && agents[a] != conn ==> unchanged(agents[a])
      ensures forall c :: c in retired && c != conn ==> unchanged(c)
    {
      conn.cancelled := true;
      conn.closes := conn.closes + 1;
      if asm != null && conn.port != 0 {
        var _ := asm.StopAgentServer(conn.agent);
      }
    }

    method Deregister(agent: string)
      requires Valid()
      modifies this`agents, this`retired, Servers(), if agent in agents then {agents[agent]} else {}
      ensures Valid() && asm == old(asm)
      ensures agents == old(agents) - {agent}
      ensures retired == old(retired) + (if agent in old(agents) then {old(agents)[agent]} else {})
      ensures View() == Stopped(old(View()), agent) && View().ports == old(View()).ports - {agent}
      ensures forall a :: a in agents ==> unchanged(agents[a])
    {
      if agent in agents {
        var conn := agents[agent];
        Disconnect(conn);
        agents := agents - {agent};
        retired := retired + {conn};
      }
    }

    /** Register once no connection of the agent is left: start a server if there is a manager, then record. */
    method Join(agent: string, now: int, binds: seq<bool>) returns (conn: AgentConnection?)
      requires Valid() && agent !in agents && |binds| == MAX_PORT_BIND_RETRIES
      modifies this`agents, Servers()
      ensures Valid() && asm == old(asm) && retired == old(retired)
      ensures conn == null ==> agents == old(agents)
      ensures conn != null ==>
        fresh(conn) && agents == old(agents)[agent := conn] && conn.lastSeen == now && conn.sendCh == []
      ensures asm == null ==> conn != null && conn.port == 0
      ensures asm != null ==>
        && View() == StartOutcome(old(View()), agent, binds).1
        && (conn == null <==> old(View()).free == [] || Failures(binds) == MAX_PORT_BIND_RETRIES)
        && (conn != null ==> conn.port == Rotated(old(View()).free, Failures(binds))[0] && conn.port >= 1)
    {
      var port := 0;
      if asm != null {
        var r, tried := asm.StartAgentServer(agent, binds);
        if !r.Started? {
          return null;
        }
        port := r.port;
      }
      conn := new AgentConnection(agent, port, now);
      agents := agents[agent := conn];
    }

    /**
     The old connection is gone in every case.  With a server manager, registration then fails exactly if
     no port is free once the agent's old server is stopped, or if all three binds fail; "server already
     exists" does not occur.
     */
    method Register(agent: string, now: int, binds: seq<bool>) returns (conn: AgentConnection?)
      requires Valid() && |binds| == MAX_PORT_BIND_RETRIES
      modifies this`agents, this`retired, Servers(), if agent in agents then {agents[agent]} else {}
      ensures Valid() && asm == old(asm)
      ensures retired == old(retired) + (if agent in old(agents) then {old(agents)[agent]} else {})
      ensures conn == null ==> agents == old(agents) - {agent}
      ensures conn != null ==>
        fresh(conn) && agents == old(agents)[agent := conn] && conn.lastSeen == now && conn.sendCh == []
      ensures asm == null ==> conn != null && conn.port == 0
      ensures asm != null ==>
        var stopped := Stopped(old(View()), agent);
        && View() == StartOutcome(stopped, agent, binds).1
        && (conn == null <==> stopped.free == [] || Failures(binds) == MAX_PORT_BIND_RETRIES)
        && (conn != null ==> conn.port == Rotated(stopped.free, Failures(binds))[0] && conn.port >= 1)
    {
      Deregister(agent);
      conn := Join(agent, now, binds);
      if conn != null {
        Replaced(old(agents), agent, conn);
      }
    }

    method UpdateLastSeen(agent: string, now: int)
      requires Valid()
      modifies if agent in agents then {agents[agent]} else {}
      ensures Valid()
      ensures Seen() == S.Step(old(Seen()), S.Received(now, agent))
      ensures agent in agents ==> agents[agent].sendCh == old(agents[agent].sendCh)
    {
      if agent in agents {
        agents[agent].lastSeen := now;
      }
    }

    /** Without interference the channel is open, so a message is queued unless the channel is full. */
    method SendToAgent(agent: string, msg: string) returns (r: SendResult)
      requires Valid()
      modifies if agent in agents then {agents[agent]} else {}
      ensures Valid()
      ensures r.NotFound? <==> agent !in agents
      ensures agent in agents ==> (r.TimedOut? <==> |old(agents[agent].sendCh)| == SEND_CHANNEL_BUFFER)
      ensures agent in agents ==>
        && agents[agent].sendCh == old(agents[agent].sendCh) + (if r.Queued? then [msg] else [])
        && agents[agent].lastSeen == old(agents[agent].lastSeen)
    {
      if agent !in agents {
        return NotFound;
      }
      var conn := agents[agent];
      if |conn.sendCh| < SEND_CHANNEL_BUFFER {
        conn.sendCh := conn.sendCh + [msg];
        return Queued;
      }
      return TimedOut;
    }

    twostate lemma SeenWithout(gone: set<string>)
      requires agents == old(agents) - gone && forall a :: a in agents ==> unchanged(agents[a])
      ensures Seen() == old(Seen()) - gone
    {
    }

    /** The loop of a sweep, for the set of agents its test picks out. */
    method RetireStale(now: int, ghost stale: set<string>)
      requires Valid() && stale <= agents.Keys
      requires forall a :: a in agents ==> (a in stale <==> S.Stale(agents[a].lastSeen, now))
      modifies this`agents, this`retired, Servers(), agents.Values
      ensures Valid() && asm == old(asm)
      ensures agents == old(agents) - stale
      ensures retired == old(retired) + Picked(old(agents), stale)
      ensures forall a :: a in agents ==> unchanged(agents[a])
      ensures View().ports == old(View()).ports - stale
    {
      ghost var gone: set<string> := {};
      var todo := agents.Keys;
      while todo != {}
        invariant Valid() && asm == old(asm)
        invariant todo <= agents.Keys && gone == stale - todo
        invariant agents == old(agents) - gone
        invariant retired == old(retired) + Picked(old(agents), gone)
        invariant forall a :: a in agents ==> unchanged(agents[a])
        invariant View().ports == old(View()).ports - gone
        decreases |todo|
      {
        var a :| a in todo;
        DoneOne(stale, todo, a);
        todo := todo - {a};
        if S.Stale(agents[a].lastSeen, now) {
          PickedOne(old(retired), old(agents), gone, a);
          MinusOne(old(agents), gone, a);
          MinusOne(old(View()).ports, gone, a);
          gone := gone + {a};
          Deregister(a);
        }
      }
      assert gone == stale;
    }

    /** A sweep retires exactly the stale connections, stops exactly their servers and touches nothing else. */
    method RemoveStaleConnections(now: int)
      requires Valid()
      modifies this`agents, this`retired, Servers(), agents.Values
      ensures Valid() && asm == old(asm)
      ensures var stale := S.StaleSet(old(Seen()), now);
        && agents == old(agents) - stale
        && retired == old(retired) + Picked(old(agents), stale)
        && View().ports == old(View()).ports - stale
      ensures forall a :: a in agents ==> unchanged(agents[a])
      ensures Seen() == S.Step(old(Seen()), S.Sweep(now))
    {
      ghost var stale := S.StaleSet(Seen(), now);
      RetireStale(now, stale);
      SeenWithout(stale);
    }

    /** The loop of Stop: every connection is retired and its server stopped; the map still holds them. */
    method DisconnectAll()
      requires Valid()
      modifies Servers(), agents.Values
      ensures ServersOk() && (asm != null ==> asm.pm == old(asm.pm))
      ensures forall a :: a in agents ==> agents[a].Retired()
      ensures forall c :: c in retired ==> c.Retired()
    {
      var todo := agents.Keys;
      while todo != {}
        invariant todo <= agents.Keys
        invariant ServersOk() && (asm != null ==> asm.pm == old(asm.pm))
        invariant forall a :: a in agents ==> agents[a].agent == a
        invariant forall a :: a in todo ==> agents[a].closes == 0
        invariant forall a :: a in agents && a !in todo ==> agents[a].Retired()
        invariant forall c :: c in retired ==> c.Retired()
        decreases |todo|
      {
        var a :| a in todo;
        todo := todo - {a};
        Disconnect(agents[a]);
      }
    }

    /** Stop retires every connection, stops every server and puts every port back. */
    method Stop()
      requires Valid()
      modifies this`agents, this`retired, Servers(), agents.Values
      ensures Valid() && asm == old(asm) && agents == map[]
      ensures retired == old(retired) + old(agents).Values
      ensures asm != null ==>
        && asm.servers == map[] && asm.pm == old(asm.pm) && asm.pm.taken == map[]
        && multiset(asm.pm.available) == multiset(PortRange(asm.pm.lo, asm.pm.hi))
    {
      DisconnectAll();
      retired := retired + agents.Values;
      agents := map[];
      if asm != null {
        asm.Shutdown();
      }
    }
  }
}
