/** The cross-layer invariant of the concurrent system, kept by every step of every run. */
module ThreeLayerInv {
  import opened Basics
  import P = PoolSteps
  import opened ThreeLayer
  import R = RegistryInv
  import V = ServersInv
  import O = OwnersInv
  import L = LocksInv

  predicate ContOk(agents: map<string, nat>, k: Cont) {
    match k
    case ThenSweep(b, todo) => b !in todo && todo <= agents.Keys
    case ThenShutdown(_) => false
    case _ => true
  }

  /** StopAgentServer is called for the very agent whose connection was retired. */
  predicate ContFor(k: Cont, b: string) {
    match k
    case ThenStart(c) => c == b
    case ThenForget(c) => c == b
    case ThenSweep(c, _) => c == b
    case _ => true
  }

  predicate Quiet(pool: P.Pool) {
    pool.taken == map[] && pool.busy == map[]
  }

  predicate AttemptOk(n: nat) {
    1 <= n <= MAX_PORT_BIND_RETRIES
  }

  predicate LoopOk(agents: map<string, nat>, pool: P.Pool, pc: Pc) {
    match pc
    case Sweeping(todo) => todo <= agents.Keys
    case StopWait(b, k) => ContOk(agents, k) && ContFor(k, b)
    case Draining(_, k) => ContOk(agents, k)
    case StopRelease(_, k) => ContOk(agents, k)
    case StopRequeue(k) => ContOk(agents, k)
    case Resuming(k) => ContOk(agents, k)
    case ShutdownLoop(todo) => todo == {} && Quiet(pool)
    case StartTry(_, n) => 1 <= n <= MAX_PORT_BIND_RETRIES + 1 && (n > 1 ==> pool.free != [])
    case StartRecord(_, n) => AttemptOk(n)
    case StartBind(_, n, _) => AttemptOk(n)
    case StartRelease(_, n, _) => AttemptOk(n)
    case StartRequeue(_, n) => AttemptOk(n)
    case _ => true
  }

  /** Until a manager is installed there are no servers and the pool is untouched. */
  predicate ManagedOk(s: Sys) {
    s.managed ||
    (&& s.instances == [] && Quiet(s.pool) && s.amu.None?
     && (s.inside.Some? ==> s.inside.value.Sweeping? || s.inside.value.StopLoop? || s.inside.value.Resuming?))
  }

  /** The registry and the running servers. */
  ghost predicate FrontInv(s: Sys) {
    && R.Registry(s.agents, s.conns, R.ViewOf(s.inside))
    && V.Servers(s.servers, s.instances, s.agents, s.conns, V.ViewOf(s.inside))
    && (s.inside.Some? ==> LoopOk(s.agents, s.pool, s.inside.value))
    && ManagedOk(s)
  }

  /** The pool and the owners of its ports. */
  ghost predicate PortsInv(s: Sys) {
    && P.Inv(s.pool) && s.pool.lo >= 1
    && O.Owners(s.pool.taken, s.instances, O.StarterOf(s.inside))
    && O.Stages(s.instances, O.ClosedByMain(s.inside))
  }

  /** The mutexes and the callers inside the pool. */
  ghost predicate MutexInv(s: Sys) {
    && L.MainBusy(s.pool.busy, s.instances, s.inside)
    && L.Goroutines(s.pool.busy, s.instances, s.amu)
    && L.AmuOk(s.amu, s.inside)
  }

  ghost predicate Inv(s: Sys) {
    FrontInv(s) && PortsInv(s) && MutexInv(s)
  }

  lemma InitialInv(lo: int, hi: int)
    requires 1 <= lo <= hi + 1
    ensures Inv(Initial(lo, hi))
  {
    P.InitialInv(lo, hi);
  }

  // ---- calls arriving and entering ----

  lemma ArriveInv(s: Sys, call: Call)
    requires Inv(s)
    ensures Inv(Apply(s, Arrive(call)))
  {
  }

  lemma InstallManagerInv(s: Sys)
    requires Inv(s) && s.inside.None?
    ensures Inv(Apply(s, InstallManager))
  {
  }

  /** Ports of the range are never 0, the value that stands for "no server". */
  lemma HeldPortsPositive(s: Sys)
    requires Inv(s)
    ensures forall i: nat :: i < |s.instances| && O.Holds(s.instances[i]) ==> s.instances[i].port >= 1
  {
    assert forall p :: p in s.pool.taken ==> P.InRange(s.pool, p);
  }

  /** A connection with no server behind it, by the port it carries or for want of a manager. */
  lemma NoServerWithoutPort(s: Sys, a: string)
    requires Inv(s) && a in s.agents && !V.ViewOf(s.inside).Fresh?
    requires !s.managed || CurrentPort(s, a) == 0
    ensures a !in s.servers
  {
    HeldPortsPositive(s);
  }

  /** Program points at which a connection can be picked for retirement. */
  predicate Picks(inside: Option<Pc>, a: string, k: Cont) {
    match inside
    case None => k == ThenStart(a) || k == ThenForget(a)
    case Some(Sweeping(todo)) => k == ThenSweep(a, todo - {a})
    case Some(StopLoop(todo)) => a in todo && k == ThenStop(todo - {a})
    case _ => false
  }

  lemma RetireThenFront(s: Sys, a: string, k: Cont)
    requires FrontInv(s) && a in s.agents && Picks(s.inside, a, k)
    requires !s.managed || CurrentPort(s, a) == 0 ==> a !in s.servers
    ensures FrontInv(RetireThen(s, a, k))
  {
    var t := RetireThen(s, a, k);
    var c := s.agents[a];
    R.Retires(s.agents, s.conns, R.ViewOf(s.inside), a, R.ContView(k));
    V.Retires(s.servers, s.instances, s.agents, s.conns, V.ViewOf(s.inside), c, t.conns[c]);
    assert k.ThenStop? ==> s.inside.value.todo == k.todo + {a};
    assert V.BeforeStop(V.ContView(k), a) == V.ViewOf(s.inside);
    if t.inside.value.Resuming? {
      V.FindsNone(t.servers, t.instances, t.agents, t.conns, a, V.ContView(k));
    }
  }

  /** Program points at which the call holds no port, no instance and no second mutex. */
  predicate Neutral(inside: Option<Pc>) {
    && !L.OwnsAmu(inside) && !L.InPool(inside)
    && O.StarterOf(inside).None? && O.ClosedByMain(inside).None?
  }

  lemma BackUnchanged(s: Sys, t: Sys)
    requires PortsInv(s) && MutexInv(s) && Neutral(s.inside) && Neutral(t.inside)
    requires t.pool == s.pool && t.instances == s.instances && t.amu == s.amu
    ensures PortsInv(t) && MutexInv(t)
  {
  }

  lemma RetireThenInv(s: Sys, a: string, k: Cont)
    requires Inv(s) && a in s.agents && Picks(s.inside, a, k)
    ensures Inv(RetireThen(s, a, k))
  {
    if !s.managed || CurrentPort(s, a) == 0 {
      NoServerWithoutPort(s, a);
    }
    RetireThenFront(s, a, k);
    BackUnchanged(s, RetireThen(s, a, k));
  }

  lemma WaitingIsFree(s: Sys, w: multiset<Call>)
    requires Inv(s)
    ensures Inv(s.(waiting := w))
  {
  }

  /** Register with no connection of the agent left. */
  lemma BeginStartInv(s: Sys, a: string)
    requires Inv(s) && s.inside.None? && a !in s.agents && a !in s.servers
    ensures Inv(BeginStart(s, a))
  {
    if s.managed {
      R.Reviews(s.agents, s.conns, R.Calm, R.Joining(a));
      V.Reviews(s.servers, s.instances, s.agents, s.conns, V.Any, V.Except(a));
    } else {
      R.Adds(s.agents, s.conns, R.Calm, a, 0);
      V.Reviews(s.servers, s.instances, s.agents, s.conns, V.Any, V.Only({}));
      var t := BeginStart(s, a);
      V.Vacant(s.servers, s.instances, s.agents, s.conns, t.agents, t.conns, V.Any);
    }
  }

  lemma EnterInv(s: Sys, call: Call)
    requires Inv(s) && Enabled(s, Enter(call))
    ensures Inv(Apply(s, Enter(call)))
  {
    var t := s.(waiting := s.waiting - multiset{call});
    WaitingIsFree(s, t.waiting);
    match call
    case Register(a) =>
      if a in t.agents {
        RetireThenInv(t, a, ThenStart(a));
      } else {
        assert a in t.servers ==> V.Placed(t.instances[t.servers[a]], t.agents, t.conns, V.Any);
        BeginStartInv(t, a);
      }
    case Deregister(a) =>
      if a in t.agents {
        RetireThenInv(t, a, ThenForget(a));
      }
    case Sweep =>
    case Stop =>
      R.Reviews(t.agents, t.conns, R.Calm, R.Clearing(t.agents.Keys));
      assert forall a :: a in t.servers ==> V.Placed(t.instances[t.servers[a]], t.agents, t.conns, V.Any);
      V.Reviews(t.servers, t.instances, t.agents, t.conns, V.Any, V.Only(t.agents.Keys));
  }

  // ---- the loops ----

  lemma SweepVisitInv(s: Sys, a: string, stale: bool)
    requires Inv(s) && At(s, SweepVisit(a, stale))
    ensures Inv(ApplyInside(s, SweepVisit(a, stale)))
  {
    if stale {
      RetireThenInv(s, a, ThenSweep(a, s.inside.value.todo - {a}));
    }
  }

  lemma StopVisitInv(s: Sys, a: string)
    requires Inv(s) && At(s, StopVisit(a))
    ensures Inv(ApplyInside(s, StopVisit(a)))
  {
    RetireThenInv(s, a, ThenStop(s.inside.value.todo - {a}));
  }

  lemma StopLoopDoneInv(s: Sys)
    requires Inv(s) && At(s, StopLoopDone)
    ensures Inv(ApplyInside(s, StopLoopDone))
  {
    var t := ApplyInside(s, StopLoopDone);
    R.Clears(s.agents, s.conns, R.ViewOf(t.inside));
    V.Vacant(s.servers, s.instances, s.agents, s.conns, t.agents, t.conns, V.ViewOf(t.inside));
  }

  /** Shutdown takes its snapshot after every goroutine that was cleaning up has finished. */
  lemma ShutdownSnapshotInv(s: Sys)
    requires Inv(s) && At(s, ShutdownSnapshot)
    ensures Inv(ApplyInside(s, ShutdownSnapshot))
    ensures s.servers == map[] && Quiet(s.pool)
  {
    V.Vacant(s.servers, s.instances, s.agents, s.conns, s.agents, s.conns, V.Only({}));
    assert forall i: nat :: i < |s.instances| ==> O.StageOk(s.instances[i], false) && !L.Failing(s.instances[i]);
    O.NoneTaken(s.pool.taken, s.instances);
    assert forall c :: c !in s.pool.busy;
  }

  lemma LoopEndInv(s: Sys, step: Step)
    requires Inv(s) && At(s, step) && (step.SweepDone? || step.ShutdownDone?)
    ensures Inv(ApplyInside(s, step))
  {
    if step.ShutdownDone? {
      R.Reviews(s.agents, s.conns, R.Cleared, R.Calm);
      V.Vacant(s.servers, s.instances, s.agents, s.conns, s.agents, s.conns, V.Any);
    }
  }

  // ---- StopAgentServer ----

  lemma StopFindsNoneInv(s: Sys)
    requires Inv(s) && At(s, StopServer) && s.inside.value.agent !in s.servers
    ensures Inv(ApplyInside(s, StopServer))
  {
    V.FindsNone(s.servers, s.instances, s.agents, s.conns, s.inside.value.agent, V.ContView(s.inside.value.k));
  }

  lemma StopFindsPorts(s: Sys)
    requires PortsInv(s) && V.Servers(s.servers, s.instances, s.agents, s.conns, V.ViewOf(s.inside))
    requires At(s, StopServer) && s.inside.value.agent in s.servers
    ensures PortsInv(ApplyInside(s, StopServer)) && !L.Failing(s.instances[s.servers[s.inside.value.agent]])
  {
    var i := s.servers[s.inside.value.agent];
    var y := ApplyInside(s, StopServer).instances[i];
    assert O.StageOk(s.instances[i], false);
    O.Relabels(s.pool.taken, s.instances, None, i, y);
    O.StageMoves(s.instances, None, i, y, Some(i));
  }

  lemma StopFindsInv(s: Sys)
    requires Inv(s) && At(s, StopServer) && s.inside.value.agent in s.servers
    ensures Inv(ApplyInside(s, StopServer))
  {
    var a := s.inside.value.agent;
    var i := s.servers[a];
    var y := ApplyInside(s, StopServer).instances[i];
    StopFindsPorts(s);
    V.TakesOut(s.servers, s.instances, s.agents, s.conns, V.ViewOf(s.inside), a, y, V.ContView(s.inside.value.k));
    L.Relabels(s.pool.busy, s.instances, s.amu, i, y);
  }

  lemma DrainedInv(s: Sys)
    requires Inv(s) && At(s, Drained)
    ensures Inv(ApplyInside(s, Drained))
  {
    var t := ApplyInside(s, Drained);
    P.StepInv(s.pool, P.BeginRelease(P.Main, s.instances[s.inside.value.i].port));
    L.MainMoves(s.pool.busy, s.instances, s.amu, t.pool.busy, s.amu);
  }

  /** The map lets go of a connection whose server is gone. */
  lemma ForgetInv(s: Sys, pc: Option<Pc>)
    requires Inv(s) && s.inside.Some? && s.inside.value.Resuming? && !s.inside.value.k.ThenStop?
    requires pc == None || (s.inside.value.k.ThenSweep? && pc == Some(Sweeping(s.inside.value.k.todo)))
    ensures Inv(Forget(s, s.inside.value.k.agent).(inside := pc))
    ensures s.inside.value.k.agent !in s.servers
  {
    var a := s.inside.value.k.agent;
    R.Forgets(s.agents, s.conns, a, R.Calm);
    V.Forgets(s.servers, s.instances, s.agents, s.conns, a, V.Any);
    assert a in s.servers ==> V.Placed(s.instances[s.servers[a]], s.agents, s.conns, V.Except(a));
  }

  lemma ReturnInv(s: Sys)
    requires Inv(s) && At(s, Return)
    ensures Inv(ApplyInside(s, Return))
  {
    match s.inside.value.k
    case ThenStart(a) =>
      ForgetInv(s, None);
      BeginStartInv(Forget(s, a).(inside := None), a);
    case ThenForget(_) => ForgetInv(s, None);
    case ThenSweep(_, todo) => ForgetInv(s, Some(Sweeping(todo)));
    case ThenStop(_) =>
  }

  // ---- StartAgentServer ----

  lemma StartServerInv(s: Sys)
    requires Inv(s) && At(s, StartServer)
    ensures Inv(ApplyInside(s, StartServer))
  {
    L.MainMoves(s.pool.busy, s.instances, s.amu, s.pool.busy, Some(P.Main));
  }

  /** At the call of StartAgentServer the agent has no server, so it cannot fail for having one. */
  lemma NeverExists(s: Sys)
    requires Inv(s) && s.inside.Some? && s.inside.value.StartWait?
    ensures s.inside.value.agent !in s.servers
  {
    assert forall a :: a in s.servers ==> V.Placed(s.instances[s.servers[a]], s.agents, s.conns, V.ViewOf(s.inside));
  }

  lemma TakePortInv(s: Sys)
    requires Inv(s) && At(s, TakePort)
    ensures Inv(ApplyInside(s, TakePort))
  {
    var t := ApplyInside(s, TakePort);
    P.StepInv(s.pool, P.Receive(P.Main, s.inside.value.agent));
    L.MainMoves(s.pool.busy, s.instances, s.amu, t.pool.busy, s.amu);
  }

  lemma StartFailsInv(s: Sys, step: Step)
    requires Inv(s) && At(s, step) && (step.StartExhausted? || step.StartGivesUp?)
    ensures Inv(ApplyInside(s, step))
  {
    R.Reviews(s.agents, s.conns, R.ViewOf(s.inside), R.Calm);
    V.Reviews(s.servers, s.instances, s.agents, s.conns, V.ViewOf(s.inside), V.Any);
    L.MainMoves(s.pool.busy, s.instances, s.amu, s.pool.busy, None);
  }

  lemma PoolRecordInv(s: Sys)
    requires Inv(s) && At(s, PoolRecord)
    ensures Inv(ApplyInside(s, PoolRecord))
  {
    var t := ApplyInside(s, PoolRecord);
    P.StepInv(s.pool, P.Record(P.Main));
    O.Records(s.pool.taken, s.instances, s.inside.value.agent, s.pool.busy[P.Main].port);
    L.MainMoves(s.pool.busy, s.instances, s.amu, t.pool.busy, s.amu);
  }

  lemma BindFailsInv(s: Sys)
    requires Inv(s) && At(s, Bind(false))
    ensures Inv(ApplyInside(s, Bind(false)))
  {
    var t := ApplyInside(s, Bind(false));
    P.StepInv(s.pool, P.BeginRelease(P.Main, s.inside.value.port));
    L.MainMoves(s.pool.busy, s.instances, s.amu, t.pool.busy, s.amu);
  }

  lemma BindSucceedsPorts(s: Sys)
    requires PortsInv(s) && At(s, Bind(true))
    ensures PortsInv(ApplyInside(s, Bind(true)))
  {
    O.HandsOver(s.pool.taken, s.instances, ApplyInside(s, Bind(true)).instances[|s.instances|]);
  }

  lemma BindSucceedsInv(s: Sys)
    requires Inv(s) && At(s, Bind(true))
    ensures Inv(ApplyInside(s, Bind(true)))
  {
    var y := ApplyInside(s, Bind(true)).instances[|s.instances|];
    BindSucceedsPorts(s);
    V.Starts(s.servers, s.instances, s.agents, s.conns, y.agent, y);
    L.MainMoves(s.pool.busy, s.instances, s.amu, s.pool.busy, None);
  }

  lemma FinishInv(s: Sys)
    requires Inv(s) && At(s, Finish)
    ensures Inv(ApplyInside(s, Finish))
  {
    var a, port := s.inside.value.agent, s.inside.value.port;
    R.Adds(s.agents, s.conns, R.Joining(a), a, port);
    V.Registers(s.servers, s.instances, s.agents, s.conns, a, Connection(a, port, false, 0));
  }

  // ---- the goroutines ----

  lemma ServeEndsInv(s: Sys, e: Event)
    requires Inv(s) && Enabled(s, e) && (e.ServeReturns? || e.ServeFails?)
    ensures Inv(Apply(s, e))
  {
    var t := Apply(s, e);
    V.Relabels(s.servers, s.instances, s.agents, s.conns, V.ViewOf(s.inside), e.i, t.instances[e.i]);
    O.Relabels(s.pool.taken, s.instances, O.StarterOf(s.inside), e.i, t.instances[e.i]);
    L.Relabels(s.pool.busy, s.instances, s.amu, e.i, t.instances[e.i]);
  }

  lemma CleanUpInv(s: Sys, i: nat)
    requires Inv(s) && Enabled(s, CleanUp(i))
    ensures Inv(Apply(s, CleanUp(i)))
  {
    var t := Apply(s, CleanUp(i));
    var x := s.instances[i];
    if x.agent in s.servers && s.servers[x.agent] == i {
      P.StepInv(s.pool, P.BeginRelease(P.Goroutine(i), x.port));
      L.GoroutineEnters(s.pool.busy, s.instances, i, t.instances[i], t.pool.busy);
      V.TakesOut(s.servers, s.instances, s.agents, s.conns, V.ViewOf(s.inside), x.agent, t.instances[i], V.ViewOf(s.inside));
    } else {
      V.Relabels(s.servers, s.instances, s.agents, s.conns, V.ViewOf(s.inside), i, t.instances[i]);
      L.Relabels(s.pool.busy, s.instances, s.amu, i, t.instances[i]);
    }
    O.Relabels(s.pool.taken, s.instances, O.StarterOf(s.inside), i, t.instances[i]);
    assert O.StageOk(x, O.ClosedByMain(s.inside) == Some(i));
    O.StageMoves(s.instances, O.ClosedByMain(s.inside), i, t.instances[i], O.ClosedByMain(s.inside));
    L.MainElsewhere(s.pool.busy, s.instances, s.inside, i, t.instances[i], t.pool.busy);
  }

  // ---- inside the pool ----

  lemma PoolLockInv(s: Sys, c: P.Caller)
    requires Inv(s) && Enabled(s, PoolLock(c))
    ensures Inv(Apply(s, PoolLock(c)))
  {
    var t := Apply(s, PoolLock(c));
    P.StepInv(s.pool, P.Lock(c));
    if c.Main? {
      L.MainMoves(s.pool.busy, s.instances, s.amu, t.pool.busy, s.amu);
    } else {
      assert s.instances[c.i := s.instances[c.i]] == s.instances;
      L.GoroutineSteps(s.pool.busy, s.instances, s.amu, c.i, s.instances[c.i], t.pool.busy);
    }
  }

  /**
   Whoever releases a port finds it recorded, under the agent it was allocated for: Release never takes
   its "unallocated port" branch, and never removes another agent's record.
   */
  lemma ReleaseFindsItsRecord(s: Sys, c: P.Caller)
    requires Inv(s) && c in s.pool.busy && s.pool.busy[c].Releasing?
    ensures s.pool.busy[c].port in s.pool.taken
    ensures c.Goroutine? ==> c.i < |s.instances| && s.pool.taken[s.pool.busy[c].port] == s.instances[c.i].agent
    ensures c.Main? && s.inside.value.StopRelease? ==>
      && s.inside.value.i < |s.instances|
      && s.pool.taken[s.pool.busy[c].port] == s.instances[s.inside.value.i].agent
    ensures c.Main? && s.inside.value.StartRelease? ==> s.pool.taken[s.pool.busy[c].port] == s.inside.value.agent
  {
    if c.Goroutine? {
      assert L.Failing(s.instances[c.i]);
      assert O.StageOk(s.instances[c.i], O.ClosedByMain(s.inside) == Some(c.i));
      assert O.Holds(s.instances[c.i]);
    } else if s.inside.value.StopRelease? {
      assert O.StageOk(s.instances[s.inside.value.i], true);
      assert O.Holds(s.instances[s.inside.value.i]);
    }
  }

  lemma StopDeletesPorts(s: Sys)
    requires PortsInv(s) && MutexInv(s) && Enabled(s, PoolDelete(P.Main)) && s.inside.value.StopRelease?
    requires s.pool.busy[P.Main].port in s.pool.taken
    ensures PortsInv(Apply(s, PoolDelete(P.Main)))
  {
    var t := Apply(s, PoolDelete(P.Main));
    var i := s.inside.value.i;
    P.StepInv(s.pool, P.Delete(P.Main));
    assert O.StageOk(s.instances[i], true);
    O.InstanceReleases(s.pool.taken, s.instances, None, i, t.instances[i]);
    O.StageMoves(s.instances, Some(i), i, t.instances[i], None);
  }

  lemma StopDeletesInv(s: Sys)
    requires Inv(s) && Enabled(s, PoolDelete(P.Main)) && s.inside.value.StopRelease?
    ensures Inv(Apply(s, PoolDelete(P.Main)))
  {
    var t := Apply(s, PoolDelete(P.Main));
    var i := s.inside.value.i;
    ReleaseFindsItsRecord(s, P.Main);
    StopDeletesPorts(s);
    assert O.StageOk(s.instances[i], true);
    V.Relabels(s.servers, s.instances, s.agents, s.conns, V.ViewOf(s.inside), i, t.instances[i]);
    L.MainMoves(s.pool.busy, s.instances, s.amu, t.pool.busy, s.amu);
    L.Relabels(t.pool.busy, s.instances, s.amu, i, t.instances[i]);
  }

  lemma StartDeletesPorts(s: Sys)
    requires PortsInv(s) && MutexInv(s) && Enabled(s, PoolDelete(P.Main)) && s.inside.value.StartRelease?
    ensures PortsInv(Apply(s, PoolDelete(P.Main)))
  {
    P.StepInv(s.pool, P.Delete(P.Main));
    O.StarterReleases(s.pool.taken, s.instances, O.StarterOf(s.inside).value);
  }

  lemma StartDeletesInv(s: Sys)
    requires Inv(s) && Enabled(s, PoolDelete(P.Main)) && !s.inside.value.StopRelease?
    ensures Inv(Apply(s, PoolDelete(P.Main)))
  {
    var t := Apply(s, PoolDelete(P.Main));
    ReleaseFindsItsRecord(s, P.Main);
    StartDeletesPorts(s);
    L.MainMoves(s.pool.busy, s.instances, s.amu, t.pool.busy, s.amu);
  }

  lemma GoroutineDeletesInv(s: Sys, i: nat)
    requires Inv(s) && Enabled(s, PoolDelete(P.Goroutine(i)))
    ensures Inv(Apply(s, PoolDelete(P.Goroutine(i))))
  {
    var t := Apply(s, PoolDelete(P.Goroutine(i)));
    ReleaseFindsItsRecord(s, P.Goroutine(i));
    P.StepInv(s.pool, P.Delete(P.Goroutine(i)));
    assert L.Failing(s.instances[i]);
    assert O.StageOk(s.instances[i], O.ClosedByMain(s.inside) == Some(i));
    V.Relabels(s.servers, s.instances, s.agents, s.conns, V.ViewOf(s.inside), i, t.instances[i]);
    O.InstanceReleases(s.pool.taken, s.instances, O.StarterOf(s.inside), i, t.instances[i]);
    O.StageMoves(s.instances, O.ClosedByMain(s.inside), i, t.instances[i], O.ClosedByMain(s.inside));
    L.GoroutineSteps(s.pool.busy, s.instances, s.amu, i, t.instances[i], t.pool.busy);
    L.MainElsewhere(s.pool.busy, s.instances, s.inside, i, t.instances[i], t.pool.busy);
  }

  lemma StopSendsInv(s: Sys)
    requires Inv(s) && Enabled(s, PoolSend(P.Main)) && s.inside.value.StopRequeue?
    ensures Inv(Apply(s, PoolSend(P.Main)))
  {
    var t := Apply(s, PoolSend(P.Main));
    P.StepInv(s.pool, P.Send(P.Main));
    L.MainMoves(s.pool.busy, s.instances, s.amu, t.pool.busy, s.amu);
  }

  lemma StartSendsInv(s: Sys)
    requires Inv(s) && Enabled(s, PoolSend(P.Main)) && s.inside.value.StartRequeue?
    ensures Inv(Apply(s, PoolSend(P.Main)))
  {
    var t := Apply(s, PoolSend(P.Main));
    P.StepInv(s.pool, P.Send(P.Main));
    L.MainMoves(s.pool.busy, s.instances, s.amu, t.pool.busy, s.amu);
  }

  lemma GoroutineSendsInv(s: Sys, i: nat)
    requires Inv(s) && Enabled(s, PoolSend(P.Goroutine(i)))
    ensures Inv(Apply(s, PoolSend(P.Goroutine(i))))
  {
    var t := Apply(s, PoolSend(P.Goroutine(i)));
    P.StepInv(s.pool, P.Send(P.Goroutine(i)));
    assert L.Failing(s.instances[i]);
    assert O.StageOk(s.instances[i], O.ClosedByMain(s.inside) == Some(i));
    V.Relabels(s.servers, s.instances, s.agents, s.conns, V.ViewOf(s.inside), i, t.instances[i]);
    O.Relabels(s.pool.taken, s.instances, O.StarterOf(s.inside), i, t.instances[i]);
    O.StageMoves(s.instances, O.ClosedByMain(s.inside), i, t.instances[i], O.ClosedByMain(s.inside));
    L.GoroutineLeaves(s.pool.busy, s.instances, s.amu, i, t.instances[i], t.pool.busy);
    L.MainElsewhere(s.pool.busy, s.instances, s.inside, i, t.instances[i], t.pool.busy);
  }

  // ---- every step, every run ----

  lemma InsideInv(s: Sys, step: Step)
    requires Inv(s) && At(s, step)
    ensures Inv(ApplyInside(s, step))
  {
    match step
    case SweepVisit(a, stale) => SweepVisitInv(s, a, stale);
    case SweepDone => LoopEndInv(s, step);
    case StopVisit(a) => StopVisitInv(s, a);
    case StopLoopDone => StopLoopDoneInv(s);
    case ShutdownSnapshot => ShutdownSnapshotInv(s);
    case ShutdownVisit(_) =>
    case ShutdownDone => LoopEndInv(s, step);
    case StopServer => if s.inside.value.agent in s.servers { StopFindsInv(s); } else { StopFindsNoneInv(s); }
    case Drained => DrainedInv(s);
    case Return => ReturnInv(s);
    case StartServer => StartServerInv(s);
    case StartExists => NeverExists(s);
    case TakePort => TakePortInv(s);
    case StartExhausted => StartFailsInv(s, step);
    case StartGivesUp => StartFailsInv(s, step);
    case Bind(ok) => if ok { BindSucceedsInv(s); } else { BindFailsInv(s); }
    case Finish => FinishInv(s);
    case PoolRecord => PoolRecordInv(s);
  }

  lemma StepInv(s: Sys, e: Event)
    requires Inv(s) && Enabled(s, e)
    ensures Inv(Apply(s, e))
  {
    match e
    case Arrive(call) => ArriveInv(s, call);
    case InstallManager => InstallManagerInv(s);
    case Enter(call) => EnterInv(s, call);
    case Inside(step) => InsideInv(s, step);
    case ServeReturns(_) => ServeEndsInv(s, e);
    case ServeFails(_) => ServeEndsInv(s, e);
    case CleanUp(i) => CleanUpInv(s, i);
    case PoolLock(c) => PoolLockInv(s, c);
    case PoolDelete(c) =>
      if c.Goroutine? {
        GoroutineDeletesInv(s, c.i);
      } else if s.inside.value.StopRelease? {
        StopDeletesInv(s);
      } else {
        StartDeletesInv(s);
      }
    case PoolSend(c) =>
      if c.Goroutine? {
        GoroutineSendsInv(s, c.i);
      } else if s.inside.value.StopRequeue? {
        StopSendsInv(s);
      } else {
        StartSendsInv(s);
      }
  }

  lemma {:induction false} RunInv(s: Sys, es: seq<Event>)
    requires Inv(s) && IsRun(s, es)
    ensures Inv(Run(s, es))
    decreases |es|
  {
    if es != [] {
      StepInv(s, es[0]);
      RunInv(Apply(s, es[0]), es[1..]);
    }
  }
}
