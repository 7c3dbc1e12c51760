/** Per-agent HTTP servers, one call at a time: AgentServerManager over the port pool. */
module AgentServers {
  import opened Basics
  import opened PortPool

  /** A started server; the map holds references, and a failed goroutine compares them. */
  class AgentServerInfo {
    const agent: string
    const port: int

    constructor (agent: string, port: int)
      ensures this.agent == agent && this.port == port
    {
      this.agent, this.port := agent, port;
    }
  }

  datatype StartResult = Started(port: int) | AlreadyExists | Exhausted | BindFailed

  /** The number of failed binds before the first successful one. */
  function Failures(binds: seq<bool>): (k: nat)
    ensures k <= |binds|
    ensures forall i :: 0 <= i < k ==> !binds[i]
    ensures k < |binds| ==> binds[k]
  {
    if binds == [] || binds[0] then 0 else 1 + Failures(binds[1..])
  }

  /** What matters of the running servers and the pool: each agent's port, and the free queue. */
  datatype Fleet = Fleet(ports: map<string, int>, free: seq<int>)

  /** StopAgentServer: the port goes to the end of the queue. */
  function Stopped(f: Fleet, agent: string): Fleet {
    if agent in f.ports then Fleet(f.ports - {agent}, f.free + [f.ports[agent]]) else f
  }

  /**
   StartAgentServer, given the outcomes of its binds: a success after k failures takes the head of the k
   times rotated queue; three failures change nothing but the rotation.
   */
  function StartOutcome(f: Fleet, agent: string, binds: seq<bool>): (StartResult, Fleet)
    requires |binds| == MAX_PORT_BIND_RETRIES
  {
    var k := Failures(binds);
    var q := Rotated(f.free, k);
    if agent in f.ports then (AlreadyExists, f)
    else if f.free == [] then (Exhausted, f)
    else if k == MAX_PORT_BIND_RETRIES then (BindFailed, f.(free := q))
    else (Started(q[0]), Fleet(f.ports[agent := q[0]], q[1..]))
  }

  class AgentServerManager {
    var servers: map<string, AgentServerInfo>
    const pm: PortManager

    /** Servers and recorded ports match one to one. */
    ghost predicate Valid()
      reads this, pm
    {
      && pm.Valid()
      && (forall a :: a in servers ==>
            servers[a].agent == a && servers[a].port in pm.taken && pm.taken[servers[a].port] == a)
      && (forall p :: p in pm.taken ==> pm.taken[p] in servers && servers[pm.taken[p]].port == p)
    }

    ghost function View(): Fleet
      reads this, pm
    {
      Fleet(map a | a in servers :: servers[a].port, pm.available)
    }

    constructor (pm: PortManager)
      requires pm.Valid() && pm.taken == map[]
      ensures Valid() && this.pm == pm && servers == map[]
    {
      this.pm := pm;
      servers := map[];
    }

    /** The bound port gets its server, which is put into the map and started. */
    method Install(agent: string, port: int)
      requires pm.Valid() && agent !in servers && port in pm.taken && pm.taken[port] == agent
      requires forall a :: a in servers ==>
        servers[a].agent == a && servers[a].port in pm.taken && pm.taken[servers[a].port] == a
      requires forall p :: p in pm.taken && p != port ==> pm.taken[p] in servers && servers[pm.taken[p]].port == p
      modifies this`servers
      ensures Valid()
      ensures agent in servers && fresh(servers[agent]) && servers - {agent} == old(servers)
      ensures View() == Fleet(old(View()).ports[agent := port], pm.available)
    {
      var info := new AgentServerInfo(agent, port);
      servers := servers[agent := info];
      assert View().ports == old(View()).ports[agent := port];
    }

    /** binds gives the outcomes of the three net.Listen calls; tried are the ports handed to them. */
    method StartAgentServer(agent: string, binds: seq<bool>) returns (r: StartResult, ghost tried: seq<int>)
      requires Valid() && |binds| == MAX_PORT_BIND_RETRIES
      modifies this`servers, pm
      ensures Valid()
      ensures (r, View()) == StartOutcome(old(View()), agent, binds)
      ensures !r.Started? ==> servers == old(servers) && pm.taken == old(pm.taken)
      ensures r.Started? ==>
        && agent in servers && fresh(servers[agent]) && servers - {agent} == old(servers)
        && pm.lo <= r.port <= pm.hi && r.port !in old(pm.taken) && pm.taken == old(pm.taken)[r.port := agent]
      ensures |tried| == if r.Started? then Failures(binds) + 1 else if r.BindFailed? then MAX_PORT_BIND_RETRIES else 0
      ensures old(pm.available) != [] ==>
        forall i :: 0 <= i < |tried| ==> tried[i] == Rotated(old(pm.available), i)[0]
      ensures r.BindFailed? ==> |{tried[0], tried[1], tried[2]}| == Min(3, |old(pm.available)|)
    {
      tried := [];
      if agent in servers {
        return AlreadyExists, tried;
      }
      var attempt := 0;
      while attempt < MAX_PORT_BIND_RETRIES
        invariant 0 <= attempt <= MAX_PORT_BIND_RETRIES && attempt <= Failures(binds)
        invariant Valid() && servers == old(servers) && pm.taken == old(pm.taken)
        invariant pm.available == Rotated(old(pm.available), attempt)
        invariant attempt > 0 ==> old(pm.available) != []
        invariant |tried| == attempt
        invariant forall i :: 0 <= i < attempt ==> tried[i] == Rotated(old(pm.available), i)[0]
      {
        RotatedTwice(old(pm.available), attempt, 1);
        var port := pm.Allocate(agent);
        if port.None? {
          return Exhausted, tried;
        }
        tried := tried + [port.value];
        if binds[attempt] {
          Install(agent, port.value);
          return Started(port.value), tried;
        }
        ghost var q := Rotated(old(pm.available), attempt);
        pm.Release(port.value);
        assert pm.taken == old(pm.taken);
        assert Rotated(q, 1) == Rotated(q[1..] + [q[0]], 0);
        attempt := attempt + 1;
      }
      TriesDiffer(old(pm.available));
      return BindFailed, tried;
    }

    method StopAgentServer(agent: string) returns (found: bool)
      requires Valid()
      modifies this`servers, pm
      ensures Valid() && View() == Stopped(old(View()), agent)
      ensures found <==> agent in old(servers)
      ensures servers == old(servers) - {agent}
      ensures pm.taken == if found then old(pm.taken) - {old(servers)[agent].port} else old(pm.taken)
    {
      if agent !in servers {
        return false;
      }
      var info := servers[agent];
      servers := servers - {agent};
      pm.Release(info.port);
      return true;
    }

    /** The goroutine of a server whose Serve returned an unexpected error. */
    method ServeFailed(info: AgentServerInfo)
      requires Valid()
      modifies this`servers, pm
      ensures Valid()
      ensures info.agent in old(servers) && old(servers)[info.agent] == info ==>
        View() == Stopped(old(View()), info.agent) && servers == old(servers) - {info.agent}
      ensures !(info.agent in old(servers) && old(servers)[info.agent] == info) ==>
        View() == old(View()) && servers == old(servers) && pm.taken == old(pm.taken)
    {
      if info.agent in servers && servers[info.agent] == info {
        servers := servers - {info.agent};
        pm.Release(info.port);
      }
    }

    method Shutdown()
      requires Valid()
      modifies this`servers, pm
      ensures Valid() && servers == map[] && pm.taken == map[]
      ensures multiset(pm.available) == multiset(PortRange(pm.lo, pm.hi))
    {
      var todo := servers.Keys;
      while todo != {}
        invariant Valid() && servers.Keys == todo
        decreases |todo|
      {
        var agent :| agent in todo;
        var _ := StopAgentServer(agent);
        todo := todo - {agent};
      }
      assert pm.taken == map[] by {
        assert forall p :: p !in pm.taken;
      }
      AllBack(pm.lo, pm.hi, pm.available, pm.taken);
    }
  }
}
