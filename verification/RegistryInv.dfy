/**
 The registry's part of the cross-layer invariant: which connections are in the map, and which are
 cancelled and closed.  It looks at the call inside only through what that call is doing to the map.
 */
module RegistryInv {
  import opened ThreeLayer
  import opened Basics

  datatype View =
    | Calm                             // every connection in the map is open
    | Losing(agent: string)            // this one is retired but still in the map
    | Clearing(todo: set<string>)      // Stop: all but these are retired, all are in the map
    | Cleared                          // Stop: the map is empty
    | Joining(agent: string)           // Register: no connection of this agent in the map

  function ContView(k: Cont): View {
    match k
    case ThenStart(b) => Losing(b)
    case ThenForget(b) => Losing(b)
    case ThenSweep(b, _) => Losing(b)
    case ThenStop(todo) => Clearing(todo)
    case ThenShutdown(_) => Cleared
  }

  function ViewOf(inside: Option<Pc>): View {
    match inside
    case None => Calm
    case Some(pc) =>
      match pc
      case Sweeping(_) => Calm
      case StopLoop(todo) => Clearing(todo)
      case ShutdownWait => Cleared
      case ShutdownLoop(_) => Cleared
      case StopWait(_, k) => ContView(k)
      case Draining(_, k) => ContView(k)
      case StopRelease(_, k) => ContView(k)
      case StopRequeue(k) => ContView(k)
      case Resuming(k) => ContView(k)
      case StartWait(b) => Joining(b)
      case StartTry(b, _) => Joining(b)
      case StartRecord(b, _) => Joining(b)
      case StartBind(b, _, _) => Joining(b)
      case StartRelease(b, _, _) => Joining(b)
      case StartRequeue(b, _) => Joining(b)
      case Started(b, _) => Joining(b)
  }

  /** The agent's connection is retired although the map still holds it. */
  predicate Excused(v: View, a: string) {
    match v
    case Losing(b) => a == b
    case Clearing(todo) => a !in todo
    case _ => false
  }

  predicate ViewOk(agents: map<string, nat>, v: View) {
    match v
    case Calm => true
    case Losing(b) => b in agents
    case Clearing(todo) => todo <= agents.Keys
    case Cleared => agents == map[]
    case Joining(b) => b !in agents
  }

  /** Open and current, or cancelled with its channel closed exactly once. */
  predicate ConnOk(agents: map<string, nat>, c: nat, x: Connection) {
    if x.closes == 0 then
      !x.cancelled && x.agent in agents && agents[x.agent] == c
    else
      x.cancelled && x.closes == 1
  }

  ghost predicate Registry(agents: map<string, nat>, conns: seq<Connection>, v: View) {
    && ViewOk(agents, v)
    && (forall a :: a in agents ==> agents[a] < |conns| && conns[agents[a]].agent == a)
    && (forall c: nat :: c < |conns| ==> ConnOk(agents, c, conns[c]))
    && (forall a :: a in agents ==> (conns[agents[a]].closes == 1 <==> Excused(v, a)))
  }

  function RetiredConn(x: Connection): Connection {
    x.(cancelled := true, closes := x.closes + 1)
  }

  /** The views in which a's connection may be retired, and the view that results. */
  predicate MayRetire(v: View, a: string, w: View) {
    (v.Calm? && w == Losing(a)) || (v.Clearing? && a in v.todo && w == Clearing(v.todo - {a}))
  }

  lemma Retires(agents: map<string, nat>, conns: seq<Connection>, v: View, a: string, w: View)
    requires Registry(agents, conns, v) && a in agents && MayRetire(v, a, w)
    ensures Registry(agents, conns[agents[a] := RetiredConn(conns[agents[a]])], w)
  {
    assert ConnOk(agents, agents[a], conns[agents[a]]);
  }

  lemma Forgets(agents: map<string, nat>, conns: seq<Connection>, a: string, w: View)
    requires Registry(agents, conns, Losing(a)) && (w == Calm || w == Joining(a))
    ensures Registry(agents - {a}, conns, w)
  {
  }

  lemma Adds(agents: map<string, nat>, conns: seq<Connection>, v: View, a: string, port: int)
    requires Registry(agents, conns, v) && (v == Joining(a) || (v == Calm && a !in agents))
    ensures Registry(agents[a := |conns|], conns + [Connection(a, port, false, 0)], Calm)
  {
  }

  lemma Clears(agents: map<string, nat>, conns: seq<Connection>, w: View)
    requires Registry(agents, conns, Clearing({})) && (w == Calm || w == Cleared)
    ensures Registry(map[], conns, w)
  {
  }

  /** Changes of view that touch nothing. */
  lemma Reviews(agents: map<string, nat>, conns: seq<Connection>, v: View, w: View)
    requires Registry(agents, conns, v)
    requires (v == Calm && (w == Clearing(agents.Keys) || (w.Joining? && w.agent !in agents)))
          || ((v.Joining? || v.Cleared?) && w == Calm)
    ensures Registry(agents, conns, w)
  {
  }
}
