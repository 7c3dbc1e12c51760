/**
 The server manager's part of the cross-layer invariant: every running server is an instance that is
 still live, and it belongs to a registered connection on the same port.  The call inside matters only
 through which agents it has ruled out.
 */
module ServersInv {
  import opened ThreeLayer
  import opened Basics

  datatype View =
    | Any
    | Except(agent: string)             // this agent has no running server
    | Only(agents: set<string>)         // nobody else has one
    | Fresh(agent: string, port: int)   // just started on this port, not yet registered

  function ContView(k: Cont): View {
    match k
    case ThenStart(b) => Except(b)
    case ThenForget(b) => Except(b)
    case ThenSweep(b, _) => Except(b)
    case ThenStop(todo) => Only(todo)
    case ThenShutdown(todo) => Only(todo)
  }

  /** Before StopAgentServer has looked the agent up it may still have its server. */
  function BeforeStop(v: View, agent: string): View {
    match v
    case Only(todo) => Only(todo + {agent})
    case _ => Any
  }

  function ViewOf(inside: Option<Pc>): View {
    match inside
    case None => Any
    case Some(pc) =>
      match pc
      case Sweeping(_) => Any
      case StopLoop(todo) => Only(todo)
      case ShutdownWait => Only({})
      case ShutdownLoop(_) => Only({})
      case StopWait(b, k) => BeforeStop(ContView(k), b)
      case Draining(_, k) => ContView(k)
      case StopRelease(_, k) => ContView(k)
      case StopRequeue(k) => ContView(k)
      case Resuming(k) => ContView(k)
      case StartWait(b) => Except(b)
      case StartTry(b, _) => Except(b)
      case StartRecord(b, _) => Except(b)
      case StartBind(b, _, _) => Except(b)
      case StartRelease(b, _, _) => Except(b)
      case StartRequeue(b, _) => Except(b)
      case Started(b, p) => Fresh(b, p)
  }

  predicate Allowed(v: View, a: string) {
    match v
    case Except(b) => a != b
    case Only(todo) => a in todo
    case _ => true
  }

  /** The agent is registered, on the very port its server listens on. */
  predicate Registered(agents: map<string, nat>, conns: seq<Connection>, a: string, port: int) {
    a in agents && agents[a] < |conns| && conns[agents[a]].port == port
  }

  predicate Placed(x: Instance, agents: map<string, nat>, conns: seq<Connection>, v: View) {
    Allowed(v, x.agent) && (v == Fresh(x.agent, x.port) || Registered(agents, conns, x.agent, x.port))
  }

  ghost predicate Servers(servers: map<string, nat>, xs: seq<Instance>,
                          agents: map<string, nat>, conns: seq<Connection>, v: View)
  {
    && (forall a :: a in servers ==> servers[a] < |xs| && xs[servers[a]].agent == a && xs[servers[a]].stage.Live?)
    && (forall i: nat :: i < |xs| && xs[i].stage.Live? ==> xs[i].agent in servers && servers[xs[i].agent] == i)
    && (forall a :: a in servers ==> Placed(xs[servers[a]], agents, conns, v))
  }

  /** StopAgentServer or a failed goroutine takes the agent's instance out of the map. */
  lemma TakesOut(servers: map<string, nat>, xs: seq<Instance>, agents: map<string, nat>, conns: seq<Connection>,
                 v: View, a: string, y: Instance, w: View)
    requires Servers(servers, xs, agents, conns, v) && a in servers
    requires !y.stage.Live?
    requires w == v || (v == BeforeStop(w, a) && !w.Fresh?)
    requires w.Except? && w != v ==> w.agent == a
    ensures Servers(servers - {a}, xs[servers[a] := y], agents, conns, w)
  {
  }

  /** StopAgentServer finds no server. */
  lemma FindsNone(servers: map<string, nat>, xs: seq<Instance>, agents: map<string, nat>, conns: seq<Connection>,
                  a: string, w: View)
    requires Servers(servers, xs, agents, conns, BeforeStop(w, a)) && a !in servers
    requires !w.Fresh? && (w.Except? ==> w.agent == a)
    ensures Servers(servers, xs, agents, conns, w)
  {
  }

  /** A step of an instance that does not make it start or stop being live. */
  lemma Relabels(servers: map<string, nat>, xs: seq<Instance>, agents: map<string, nat>, conns: seq<Connection>,
                 v: View, i: nat, y: Instance)
    requires Servers(servers, xs, agents, conns, v) && i < |xs|
    requires y.agent == xs[i].agent && y.port == xs[i].port && (y.stage.Live? <==> xs[i].stage.Live?)
    ensures Servers(servers, xs[i := y], agents, conns, v)
  {
  }

  lemma Starts(servers: map<string, nat>, xs: seq<Instance>, agents: map<string, nat>, conns: seq<Connection>,
               a: string, y: Instance)
    requires Servers(servers, xs, agents, conns, Except(a))
    requires y.agent == a && y.stage.Live?
    ensures Servers(servers[a := |xs|], xs + [y], agents, conns, Fresh(a, y.port))
  {
  }

  lemma Registers(servers: map<string, nat>, xs: seq<Instance>, agents: map<string, nat>, conns: seq<Connection>,
                  a: string, c: Connection)
    requires Servers(servers, xs, agents, conns, Fresh(a, c.port))
    requires forall b :: b in agents ==> agents[b] < |conns|
    requires a !in agents
    ensures Servers(servers, xs, agents[a := |conns|], conns + [c], Any)
  {
  }

  /** Retiring a connection changes no port. */
  lemma Retires(servers: map<string, nat>, xs: seq<Instance>, agents: map<string, nat>, conns: seq<Connection>,
                v: View, c: nat, y: Connection)
    requires Servers(servers, xs, agents, conns, v) && c < |conns| && y.port == conns[c].port
    ensures Servers(servers, xs, agents, conns[c := y], v)
  {
  }

  lemma Forgets(servers: map<string, nat>, xs: seq<Instance>, agents: map<string, nat>, conns: seq<Connection>,
                a: string, w: View)
    requires Servers(servers, xs, agents, conns, Except(a)) && (w == Any || w == Except(a))
    ensures Servers(servers, xs, agents - {a}, conns, w)
  {
  }

  lemma Reviews(servers: map<string, nat>, xs: seq<Instance>, agents: map<string, nat>, conns: seq<Connection>,
                v: View, w: View)
    requires Servers(servers, xs, agents, conns, v) && !v.Fresh?
    requires forall a :: a in servers ==> Allowed(w, a)
    ensures Servers(servers, xs, agents, conns, w)
  {
  }

  /** With everybody ruled out nothing runs, and then the registry can be anything. */
  lemma Vacant(servers: map<string, nat>, xs: seq<Instance>, agents: map<string, nat>, conns: seq<Connection>,
               agents': map<string, nat>, conns': seq<Connection>, w: View)
    requires Servers(servers, xs, agents, conns, Only({}))
    ensures servers == map[] && Servers(servers, xs, agents', conns', w)
  {
    assert forall a :: a !in servers;
  }
}
