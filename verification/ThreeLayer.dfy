/**
 The connection registry, the per-agent servers and the port pool as one concurrent system.

 Every call into ConnectionManager that changes the registry runs under its mutex, and that call
 is the only way into AgentServerManager, whose own mutex it shares with one goroutine per started
 server: the goroutine that serves the listener and, if serving fails unexpectedly, cleans up after
 itself.  The state below therefore holds
   - the calls blocked on the registry's mutex, and the program point of the call that owns it,
   - who owns the server manager's mutex,
   - for every server instance ever started, how far its goroutine and its shutdown have come,
   - every connection ever created, with its cancelled context and its close count,
   - the port pool with the callers that are between the halves of Allocate and Release.
 A step is one action between two points where another thread can interfere.  Bind, serve, drain
 and staleness outcomes are free choices of the environment, and calls may arrive at any time and in
 any order, so a replaced handler's late Deregister is one of them.
 */
module ThreeLayer {
  import opened Basics
  import P = PoolSteps

  /** Live: in the servers map.  Closing: taken out of it by one caller, port still recorded. */
  datatype Stage = Live | Closing | Released

  datatype Serve =
    | Serving          // inside http.Server.Serve
    | FailWait         // Serve failed; wants the server manager's mutex
    | FailRelease      // owns the mutex, inside Release, record not yet removed
    | FailRequeue      // owns the mutex, inside Release, port not yet sent back
    | Gone

  datatype Instance = Instance(agent: string, port: int, stage: Stage, goroutine: Serve, releases: nat)

  datatype Connection = Connection(agent: string, port: int, cancelled: bool, closes: nat)

  datatype Call = Register(agent: string) | Deregister(agent: string) | Sweep | Stop

  /** What is left for the registry's call once StopAgentServer has returned. */
  datatype Cont =
    | ThenStart(agent: string)                       // Register: forget the old one, start a new server
    | ThenForget(agent: string)                      // Deregister
    | ThenSweep(agent: string, todo: set<string>)    // removeStaleConnections
    | ThenStop(todo: set<string>)                    // Stop, first loop
    | ThenShutdown(todo: set<string>)                // Stop, inside AgentServerManager.Shutdown

  /** Program points of the call that owns the registry's mutex. */
  datatype Pc =
    | Sweeping(todo: set<string>)
    | StopLoop(todo: set<string>)
    | ShutdownWait                                   // wants the server manager's mutex for the snapshot
    | ShutdownLoop(todo: set<string>)
    | StopWait(agent: string, k: Cont)               // StopAgentServer wants the mutex
    | Draining(i: nat, k: Cont)                      // http.Server.Shutdown
    | StopRelease(i: nat, k: Cont)                   // inside Release, record not yet removed
    | StopRequeue(k: Cont)                           // inside Release, port not yet sent back
    | Resuming(k: Cont)                              // no server left to stop
    | StartWait(agent: string)                       // StartAgentServer wants the mutex
    | StartTry(agent: string, attempt: nat)          // owns it from here ...
    | StartRecord(agent: string, attempt: nat)       // inside Allocate
    | StartBind(agent: string, attempt: nat, port: int)
    | StartRelease(agent: string, attempt: nat, port: int)
    | StartRequeue(agent: string, attempt: nat)      // ... to here
    | Started(agent: string, port: int)

  datatype Sys = Sys(
    pool: P.Pool,
    servers: map<string, nat>,        // AgentServerManager.servers, by instance number
    instances: seq<Instance>,
    amu: Option<P.Caller>,            // owner of AgentServerManager.mu
    agents: map<string, nat>,         // ConnectionManager.agents, by connection number
    conns: seq<Connection>,
    managed: bool,                    // an AgentServerManager is installed
    waiting: multiset<Call>,          // calls blocked on ConnectionManager.mu
    inside: Option<Pc>)               // the call that owns it

  /** Steps of the call that owns the registry's mutex. */
  datatype Step =
    | SweepVisit(agent: string, stale: bool)
    | SweepDone
    | StopVisit(agent: string)
    | StopLoopDone
    | ShutdownSnapshot
    | ShutdownVisit(agent: string)
    | ShutdownDone
    | StopServer
    | Drained
    | Return
    | StartServer
    | StartExists
    | TakePort
    | StartExhausted
    | StartGivesUp
    | Bind(ok: bool)
    | Finish
    | PoolRecord

  datatype Event =
    | Arrive(call: Call)
    | InstallManager
    | Enter(call: Call)
    | Inside(step: Step)
    | ServeReturns(i: nat)
    | ServeFails(i: nat)
    | CleanUp(i: nat)
    | PoolLock(c: P.Caller)
    | PoolDelete(c: P.Caller)
    | PoolSend(c: P.Caller)

  function Initial(lo: int, hi: int): Sys
    requires lo <= hi + 1
  {
    Sys(P.Initial(lo, hi), map[], [], None, map[], [], false, multiset{}, None)
  }

  // ---- the pieces of the calls ----

  /** cancel() and close(SendCh) on the agent's current connection. */
  function Retire(s: Sys, agent: string): Sys
    requires agent in s.agents && s.agents[agent] < |s.conns|
  {
    var c := s.agents[agent];
    s.(conns := s.conns[c := s.conns[c].(cancelled := true, closes := s.conns[c].closes + 1)])
  }

  function CurrentPort(s: Sys, agent: string): int
    requires agent in s.agents && s.agents[agent] < |s.conns|
  {
    s.conns[s.agents[agent]].port
  }

  /** Retire the connection; stop its server if it has one, otherwise go straight on. */
  function RetireThen(s: Sys, agent: string, k: Cont): Sys
    requires agent in s.agents && s.agents[agent] < |s.conns|
  {
    var hasServer := s.managed && CurrentPort(s, agent) != 0;
    Retire(s, agent).(inside := Some(if hasServer then StopWait(agent, k) else Resuming(k)))
  }

  function Forget(s: Sys, agent: string): Sys {
    s.(agents := s.agents - {agent})
  }

  /** What the call does after StopAgentServer. */
  function Resume(s: Sys, k: Cont): Sys {
    match k
    case ThenStart(agent) => BeginStart(Forget(s, agent), agent)
    case ThenForget(agent) => Forget(s, agent).(inside := None)
    case ThenSweep(agent, todo) => Forget(s, agent).(inside := Some(Sweeping(todo)))
    case ThenStop(todo) => s.(inside := Some(StopLoop(todo)))
    case ThenShutdown(todo) => s.(inside := Some(ShutdownLoop(todo)))
  }

  /** Register after any old connection is gone; without a manager the connection has port 0. */
  function BeginStart(s: Sys, agent: string): Sys {
    if s.managed then s.(inside := Some(StartWait(agent))) else AddConnection(s, agent, 0)
  }

  function AddConnection(s: Sys, agent: string, port: int): Sys {
    s.(conns := s.conns + [Connection(agent, port, false, 0)],
       agents := s.agents[agent := |s.conns|],
       inside := None)
  }

  predicate KnowsCurrent(s: Sys, agent: string) {
    agent in s.agents ==> s.agents[agent] < |s.conns|
  }

  function EnterCall(s: Sys, call: Call): Sys
    requires (call.Register? || call.Deregister?) ==> KnowsCurrent(s, call.agent)
  {
    var t := s.(waiting := s.waiting - multiset{call});
    match call
    case Register(agent) =>
      if agent in t.agents then RetireThen(t, agent, ThenStart(agent)) else BeginStart(t, agent)
    case Deregister(agent) =>
      if agent in t.agents then RetireThen(t, agent, ThenForget(agent)) else t
    case Sweep => t.(inside := Some(Sweeping(t.agents.Keys)))
    case Stop => t.(inside := Some(StopLoop(t.agents.Keys)))
  }

  /** StopAgentServer under its mutex: look the instance up and take it out of the map. */
  function StopLookup(s: Sys, agent: string, k: Cont): Sys
    requires agent in s.servers ==> s.servers[agent] < |s.instances|
  {
    if agent in s.servers then
      var i := s.servers[agent];
      s.(servers := s.servers - {agent},
         instances := s.instances[i := s.instances[i].(stage := Closing)],
         inside := Some(Draining(i, k)))
    else
      s.(inside := Some(Resuming(k)))
  }

  function BindResult(s: Sys, agent: string, attempt: nat, port: int, ok: bool): Sys
    requires P.Main !in s.pool.busy
  {
    if ok then
      s.(instances := s.instances + [Instance(agent, port, Live, Serving, 0)],
         servers := s.servers[agent := |s.instances|],
         amu := None,
         inside := Some(Started(agent, port)))
    else
      s.(pool := P.Apply(s.pool, P.BeginRelease(P.Main, port)), inside := Some(StartRelease(agent, attempt, port)))
  }

  /** The failed goroutine's cleanup, which acts only if the map still holds this very instance. */
  function CleanUpResult(s: Sys, i: nat): Sys
    requires i < |s.instances| && P.Goroutine(i) !in s.pool.busy
  {
    var x := s.instances[i];
    if x.agent in s.servers && s.servers[x.agent] == i then
      s.(servers := s.servers - {x.agent},
         instances := s.instances[i := x.(stage := Closing, goroutine := FailRelease)],
         amu := Some(P.Goroutine(i)),
         pool := P.Apply(s.pool, P.BeginRelease(P.Goroutine(i), x.port)))
    else
      s.(instances := s.instances[i := x.(goroutine := Gone)])
  }

  predicate KnowsCaller(s: Sys, c: P.Caller) {
    if c.Main? then
      s.inside.Some? && (s.inside.value.StopRelease? ==> s.inside.value.i < |s.instances|)
    else
      c.i < |s.instances|
  }

  function MarkReleased(x: Instance): Instance {
    x.(stage := Released, releases := x.releases + 1)
  }

  /** Release under the pool's mutex; an unrecorded port makes it return at once. */
  function DeleteResult(s: Sys, c: P.Caller): Sys
    requires P.Enabled(s.pool, P.Delete(c)) && KnowsCaller(s, c)
  {
    var t := s.(pool := P.Apply(s.pool, P.Delete(c)));
    if s.pool.busy[c].port in s.pool.taken then RecordRemoved(t, c) else ReleaseReturns(t, c)
  }

  function RecordRemoved(s: Sys, c: P.Caller): Sys
    requires KnowsCaller(s, c)
  {
    if c.Goroutine? then
      s.(instances := s.instances[c.i := MarkReleased(s.instances[c.i]).(goroutine := FailRequeue)])
    else match s.inside.value
      case StopRelease(i, k) =>
        s.(instances := s.instances[i := MarkReleased(s.instances[i])], inside := Some(StopRequeue(k)))
      case StartRelease(agent, attempt, _) => s.(inside := Some(StartRequeue(agent, attempt)))
      case _ => s
  }

  /** Release has returned to its caller. */
  function ReleaseReturns(s: Sys, c: P.Caller): Sys
    requires KnowsCaller(s, c)
  {
    if c.Goroutine? then
      s.(amu := None, instances := s.instances[c.i := s.instances[c.i].(goroutine := Gone)])
    else match s.inside.value
      case StopRelease(_, k) => s.(inside := Some(Resuming(k)))
      case StopRequeue(k) => s.(inside := Some(Resuming(k)))
      case StartRelease(agent, attempt, _) => s.(inside := Some(StartTry(agent, attempt + 1)))
      case StartRequeue(agent, attempt) => s.(inside := Some(StartTry(agent, attempt + 1)))
      case _ => s
  }

  // ---- steps ----

  predicate At(s: Sys, step: Step) {
    s.inside.Some? &&
    var pc := s.inside.value;
    match step
    case SweepVisit(agent, _) => pc.Sweeping? && agent in pc.todo && agent in s.agents && KnowsCurrent(s, agent)
    case SweepDone => pc.Sweeping? && pc.todo == {}
    case StopVisit(agent) => pc.StopLoop? && agent in pc.todo && agent in s.agents && KnowsCurrent(s, agent)
    case StopLoopDone => pc.StopLoop? && pc.todo == {}
    case ShutdownSnapshot => pc.ShutdownWait? && s.amu.None?
    case ShutdownVisit(agent) => pc.ShutdownLoop? && agent in pc.todo
    case ShutdownDone => pc.ShutdownLoop? && pc.todo == {}
    case StopServer =>
      && pc.StopWait? && s.amu.None?
      && (pc.agent in s.servers ==> s.servers[pc.agent] < |s.instances|)
    case Drained => pc.Draining? && pc.i < |s.instances| && P.Main !in s.pool.busy
    case Return => pc.Resuming?
    case StartServer => pc.StartWait? && s.amu.None? && pc.agent !in s.servers
    case StartExists => pc.StartWait? && s.amu.None? && pc.agent in s.servers
    case TakePort => pc.StartTry? && pc.attempt <= MAX_PORT_BIND_RETRIES && s.pool.free != [] && P.Main !in s.pool.busy
    case StartExhausted => pc.StartTry? && pc.attempt <= MAX_PORT_BIND_RETRIES && s.pool.free == []
    case StartGivesUp => pc.StartTry? && pc.attempt > MAX_PORT_BIND_RETRIES
    case Bind(_) => pc.StartBind? && P.Main !in s.pool.busy
    case Finish => pc.Started?
    case PoolRecord => pc.StartRecord? && P.Enabled(s.pool, P.Record(P.Main))
  }

  function ApplyInside(s: Sys, step: Step): Sys
    requires At(s, step)
  {
    var pc := s.inside.value;
    match step
    case SweepVisit(agent, stale) =>
      if stale then RetireThen(s, agent, ThenSweep(agent, pc.todo - {agent}))
      else s.(inside := Some(Sweeping(pc.todo - {agent})))
    case SweepDone => s.(inside := None)
    case StopVisit(agent) => RetireThen(s, agent, ThenStop(pc.todo - {agent}))
    case StopLoopDone => s.(agents := map[], inside := if s.managed then Some(ShutdownWait) else None)
    case ShutdownSnapshot => s.(inside := Some(ShutdownLoop(s.servers.Keys)))
    case ShutdownVisit(agent) => s.(inside := Some(StopWait(agent, ThenShutdown(pc.todo - {agent}))))
    case ShutdownDone => s.(inside := None)
    case StopServer => StopLookup(s, pc.agent, pc.k)
    case Drained =>
      s.(pool := P.Apply(s.pool, P.BeginRelease(P.Main, s.instances[pc.i].port)), inside := Some(StopRelease(pc.i, pc.k)))
    case Return => Resume(s, pc.k)
    case StartServer => s.(amu := Some(P.Main), inside := Some(StartTry(pc.agent, 1)))
    case StartExists => s.(inside := None)
    case TakePort =>
      s.(pool := P.Apply(s.pool, P.Receive(P.Main, pc.agent)), inside := Some(StartRecord(pc.agent, pc.attempt)))
    case StartExhausted => s.(amu := None, inside := None)
    case StartGivesUp => s.(amu := None, inside := None)
    case Bind(ok) => BindResult(s, pc.agent, pc.attempt, pc.port, ok)
    case Finish => AddConnection(s, pc.agent, pc.port)
    case PoolRecord =>
      s.(pool := P.Apply(s.pool, P.Record(P.Main)),
         inside := Some(StartBind(pc.agent, pc.attempt, s.pool.busy[P.Main].port)))
  }

  predicate Enabled(s: Sys, e: Event) {
    match e
    case Arrive(_) => true
    case InstallManager => s.inside.None?
    case Enter(call) =>
      && s.inside.None? && call in s.waiting
      && ((call.Register? || call.Deregister?) ==> KnowsCurrent(s, call.agent))
    case Inside(step) => At(s, step)
    case ServeReturns(i) => i < |s.instances| && s.instances[i].goroutine.Serving?
    case ServeFails(i) => i < |s.instances| && s.instances[i].goroutine.Serving?
    case CleanUp(i) =>
      i < |s.instances| && s.instances[i].goroutine.FailWait? && s.amu.None? && P.Goroutine(i) !in s.pool.busy
    case PoolLock(c) => P.Enabled(s.pool, P.Lock(c))
    case PoolDelete(c) => P.Enabled(s.pool, P.Delete(c)) && KnowsCaller(s, c)
    case PoolSend(c) => P.Enabled(s.pool, P.Send(c)) && KnowsCaller(s, c)
  }

  function Apply(s: Sys, e: Event): Sys
    requires Enabled(s, e)
  {
    match e
    case Arrive(call) => s.(waiting := s.waiting + multiset{call})
    case InstallManager => s.(managed := true)
    case Enter(call) => EnterCall(s, call)
    case Inside(step) => ApplyInside(s, step)
    case ServeReturns(i) => s.(instances := s.instances[i := s.instances[i].(goroutine := Gone)])
    case ServeFails(i) => s.(instances := s.instances[i := s.instances[i].(goroutine := FailWait)])
    case CleanUp(i) => CleanUpResult(s, i)
    case PoolLock(c) => s.(pool := P.Apply(s.pool, P.Lock(c)))
    case PoolDelete(c) => DeleteResult(s, c)
    case PoolSend(c) => ReleaseReturns(s.(pool := P.Apply(s.pool, P.Send(c))), c)
  }

  // ---- runs ----

  ghost predicate IsRun(s: Sys, es: seq<Event>)
    decreases |es|
  {
    es == [] || (Enabled(s, es[0]) && IsRun(Apply(s, es[0]), es[1..]))
  }

  ghost function Run(s: Sys, es: seq<Event>): Sys
    requires IsRun(s, es)
    decreases |es|
  {
    if es == [] then s else Run(Apply(s, es[0]), es[1..])
  }
}
