/** What the cross-layer invariant says about every reachable state and every run. */
module ThreeLayerTheorems {
  import opened Basics
  import P = PoolSteps
  import opened ThreeLayer
  import opened ThreeLayerInv
  import R = RegistryInv
  import V = ServersInv
  import O = OwnersInv

  /** The system started on the configured range, after the given steps. */
  ghost predicate IsHistory(lo: int, hi: int, es: seq<Event>) {
    1 <= lo <= hi && IsRun(Initial(lo, hi), es)
  }

  ghost function After(lo: int, hi: int, es: seq<Event>): Sys
    requires IsHistory(lo, hi, es)
  {
    Run(Initial(lo, hi), es)
  }

  lemma RangeStep(s: Sys, e: Event)
    requires Enabled(s, e)
    ensures Apply(s, e).pool.lo == s.pool.lo && Apply(s, e).pool.hi == s.pool.hi
  {
    if e.Inside? {
      assert ApplyInside(s, e.step).pool.lo == s.pool.lo && ApplyInside(s, e.step).pool.hi == s.pool.hi;
    }
  }

  lemma {:induction false} RangeFixed(s: Sys, es: seq<Event>)
    requires IsRun(s, es)
    ensures Run(s, es).pool.lo == s.pool.lo && Run(s, es).pool.hi == s.pool.hi
    decreases |es|
  {
    if es != [] {
      RangeStep(s, es[0]);
      RangeFixed(Apply(s, es[0]), es[1..]);
    }
  }

  lemma Reached(lo: int, hi: int, es: seq<Event>)
    requires IsHistory(lo, hi, es)
    ensures Inv(After(lo, hi, es))
    ensures After(lo, hi, es).pool.lo == lo && After(lo, hi, es).pool.hi == hi
  {
    InitialInv(lo, hi);
    RunInv(Initial(lo, hi), es);
    RangeFixed(Initial(lo, hi), es);
  }

  // ---- ports ----

  /** The instance of agent a holds port p: it is running, or being stopped and not yet released. */
  ghost predicate HeldBy(s: Sys, i: nat, p: int, a: string) {
    i < |s.instances| && !s.instances[i].stage.Released? && s.instances[i].port == p && s.instances[i].agent == a
  }

  /** StartAgentServer for agent a holds port p: recorded, but not yet an instance's. */
  ghost predicate StartedWith(s: Sys, p: int, a: string) {
    O.StarterOf(s.inside) == Some(O.Starter(a, p))
  }

  /**
   Every recorded port has exactly one owner, an instance or the StartAgentServer call under way, and is
   recorded under that owner's agent.
   */
  lemma OneOwner(lo: int, hi: int, es: seq<Event>, p: int)
    requires IsHistory(lo, hi, es) && p in After(lo, hi, es).pool.taken
    ensures var s := After(lo, hi, es);
      var a := s.pool.taken[p];
      && (StartedWith(s, p, a) || exists i: nat :: HeldBy(s, i, p, a))
      && (forall i: nat, b :: HeldBy(s, i, p, b) ==> a == b && !StartedWith(s, p, a))
      && (forall i: nat, j: nat :: HeldBy(s, i, p, a) && HeldBy(s, j, p, a) ==> i == j)
  {
    Reached(lo, hi, es);
    var s := After(lo, hi, es);
    assert O.Owned(s.instances, O.StarterOf(s.inside), p);
    if !StartedWith(s, p, s.pool.taken[p]) {
      var i: nat :| O.HoldsPort(s.instances, i, p);
      assert HeldBy(s, i, p, s.pool.taken[p]);
    }
  }

  /** And conversely an instance has its port recorded exactly until it is released, once. */
  lemma ReleasedOnce(lo: int, hi: int, es: seq<Event>, i: nat)
    requires IsHistory(lo, hi, es) && i < |After(lo, hi, es).instances|
    ensures var s := After(lo, hi, es);
      var x := s.instances[i];
      && x.releases <= 1
      && (x.releases == 1 <==> x.stage.Released?)
      && (x.releases == 0 ==> x.port in s.pool.taken && s.pool.taken[x.port] == x.agent)
      && (x.stage.Live? <==> x.agent in s.servers && s.servers[x.agent] == i)
  {
    Reached(lo, hi, es);
    var s := After(lo, hi, es);
    assert O.StageOk(s.instances[i], O.ClosedByMain(s.inside) == Some(i));
    assert O.Holds(s.instances[i]) <==> !s.instances[i].stage.Released?;
  }

  /** The agent for which caller c is inside Release. */
  ghost function ReleasingFor(s: Sys, c: P.Caller): string
    requires KnowsCaller(s, c)
    requires c.Main? ==> s.inside.value.StopRelease? || s.inside.value.StartRelease?
  {
    if c.Goroutine? then s.instances[c.i].agent
    else if s.inside.value.StopRelease? then s.instances[s.inside.value.i].agent
    else s.inside.value.agent
  }

  /**
   A release, however late, removes the record its own agent made and leaves every other record alone,
   also when a serve failure's cleanup races with StopAgentServer.
   */
  lemma NoForeignRelease(lo: int, hi: int, es: seq<Event>, c: P.Caller)
    requires IsHistory(lo, hi, es) && Enabled(After(lo, hi, es), PoolDelete(c))
    ensures var s := After(lo, hi, es);
      var p := s.pool.busy[c].port;
      && (c.Main? ==> s.inside.value.StopRelease? || s.inside.value.StartRelease?)
      && p in s.pool.taken
      && s.pool.taken[p] == ReleasingFor(s, c)
      && Apply(s, PoolDelete(c)).pool.taken == s.pool.taken - {p}
  {
    Reached(lo, hi, es);
    ReleaseFindsItsRecord(After(lo, hi, es), c);
  }

  // ---- registration ----

  /**
   Whenever the registry's mutex is free, every running server belongs to a registered, open connection of
   the same agent with the same non-zero port.
   */
  lemma ServersAreRegistered(lo: int, hi: int, es: seq<Event>, a: string)
    requires IsHistory(lo, hi, es) && After(lo, hi, es).inside.None? && a in After(lo, hi, es).servers
    ensures var s := After(lo, hi, es);
      && s.servers[a] < |s.instances|
      && a in s.agents && s.agents[a] < |s.conns|
      && s.conns[s.agents[a]].port == s.instances[s.servers[a]].port != 0
      && s.conns[s.agents[a]].closes == 0
  {
    Reached(lo, hi, es);
    var s := After(lo, hi, es);
    HeldPortsPositive(s);
    assert V.Placed(s.instances[s.servers[a]], s.agents, s.conns, V.Any);
    assert R.ConnOk(s.agents, s.agents[a], s.conns[s.agents[a]]);
  }

  /** Failed binds since the last time StartAgentServer was entered. */
  function Track(n: nat, e: Event): nat {
    if e == Inside(StartServer) then 0
    else if e == Inside(Bind(false)) then n + 1
    else n
  }

  function FailedBinds(es: seq<Event>, n: nat): nat
    decreases |es|
  {
    if es == [] then n else FailedBinds(es[1..], Track(n, es[0]))
  }

  predicate Tracked(inside: Option<Pc>, n: nat) {
    match inside
    case Some(StartTry(_, attempt)) => attempt == n + 1
    case Some(StartRecord(_, attempt)) => attempt == n + 1
    case Some(StartBind(_, attempt, _)) => attempt == n + 1
    case Some(StartRelease(_, attempt, _)) => attempt == n
    case Some(StartRequeue(_, attempt)) => attempt == n
    case _ => true
  }

  lemma TrackInside(s: Sys, step: Step, n: nat)
    requires At(s, step) && Tracked(s.inside, n)
    ensures Tracked(ApplyInside(s, step).inside, Track(n, Inside(step)))
  {
  }

  lemma TrackStep(s: Sys, e: Event, n: nat)
    requires Enabled(s, e) && Tracked(s.inside, n)
    ensures Tracked(Apply(s, e).inside, Track(n, e))
  {
    if e.Inside? {
      TrackInside(s, e.step, n);
    }
  }

  lemma {:induction false} TrackRun(s: Sys, es: seq<Event>, n: nat)
    requires IsRun(s, es) && Tracked(s.inside, n)
    ensures Tracked(Run(s, es).inside, FailedBinds(es, n))
    decreases |es|
  {
    if es != [] {
      TrackStep(s, es[0], n);
      TrackRun(Apply(s, es[0]), es[1..], Track(n, es[0]));
    }
  }

  /**
   Register never fails because a server already exists.  It fails for want of a port only if the pool was
   empty before any bind was tried, and otherwise only after exactly three failed binds.
   */
  lemma WhyRegisterFails(lo: int, hi: int, es: seq<Event>)
    requires IsHistory(lo, hi, es)
    ensures var s := After(lo, hi, es);
      && !At(s, StartExists)
      && (At(s, StartExhausted) ==> s.pool.free == [] && FailedBinds(es, 0) == 0)
      && (At(s, StartGivesUp) ==> FailedBinds(es, 0) == MAX_PORT_BIND_RETRIES)
  {
    Reached(lo, hi, es);
    TrackRun(Initial(lo, hi), es, 0);
    var s := After(lo, hi, es);
    if s.inside.Some? && s.inside.value.StartWait? {
      NeverExists(s);
    }
  }

  // ---- connections ----

  /** In the map, context live, send channel open. */
  ghost predicate Current(s: Sys, c: nat) {
    && c < |s.conns| && !s.conns[c].cancelled && s.conns[c].closes == 0
    && s.conns[c].agent in s.agents && s.agents[s.conns[c].agent] == c
  }

  /** In no entry of the map, context cancelled, send channel closed exactly once. */
  ghost predicate Retired(s: Sys, c: nat) {
    && c < |s.conns| && s.conns[c].cancelled && s.conns[c].closes == 1
    && forall a :: a in s.agents ==> s.agents[a] != c
  }

  lemma CurrentOrRetired(lo: int, hi: int, es: seq<Event>, c: nat)
    requires IsHistory(lo, hi, es) && c < |After(lo, hi, es).conns|
    ensures var s := After(lo, hi, es);
      && s.conns[c].closes <= 1
      && (s.inside.None? ==> Current(s, c) || Retired(s, c))
      && !(Current(s, c) && Retired(s, c))
  {
    Reached(lo, hi, es);
    var s := After(lo, hi, es);
    assert R.ConnOk(s.agents, c, s.conns[c]);
  }

  /** Connection c is in no entry of the map, and what it looks like. */
  ghost predicate Outside(s: Sys, c: nat, x: Connection) {
    && c < |s.conns| && s.conns[c] == x
    && forall a :: a in s.agents ==> s.agents[a] != c
  }

  lemma ResumeKeepsOutside(s: Sys, k: Cont, c: nat, x: Connection)
    requires Outside(s, c, x)
    ensures Outside(Resume(s, k), c, x)
  {
  }

  lemma RetireKeepsOutside(s: Sys, a: string, k: Cont, c: nat, x: Connection)
    requires Outside(s, c, x) && a in s.agents && s.agents[a] < |s.conns|
    ensures Outside(RetireThen(s, a, k), c, x)
  {
  }

  lemma InsideKeepsOutside(s: Sys, step: Step, c: nat, x: Connection)
    requires At(s, step) && Outside(s, c, x)
    ensures Outside(ApplyInside(s, step), c, x)
  {
    match step
    case Return => ResumeKeepsOutside(s, s.inside.value.k, c, x);
    case StopVisit(agent) => RetireKeepsOutside(s, agent, ThenStop(s.inside.value.todo - {agent}), c, x);
    case SweepVisit(agent, stale) =>
      RetireKeepsOutside(s, agent, ThenSweep(agent, s.inside.value.todo - {agent}), c, x);
    case _ =>
  }

  /** No step touches a connection that is out of the map, or puts it back. */
  lemma StepKeepsOutside(s: Sys, e: Event, c: nat, x: Connection)
    requires Enabled(s, e) && Outside(s, c, x)
    ensures Outside(Apply(s, e), c, x)
  {
    if e.Inside? {
      InsideKeepsOutside(s, e.step, c, x);
    }
  }

  /** Retirement is permanent: the channel is never reopened nor closed again. */
  lemma {:induction false} RetiredForever(s: Sys, es: seq<Event>, c: nat)
    requires IsRun(s, es) && Retired(s, c)
    ensures Retired(Run(s, es), c) && Run(s, es).conns[c] == s.conns[c]
    decreases |es|
  {
    if es != [] {
      StepKeepsOutside(s, es[0], c, s.conns[c]);
      RetiredForever(Apply(s, es[0]), es[1..], c);
    }
  }

  // ---- shutdown ----

  /** The step with which ConnectionManager.Stop returns. */
  predicate StopReturns(s: Sys, e: Event) {
    e == Inside(ShutdownDone) || (e == Inside(StopLoopDone) && !s.managed)
  }

  lemma StopLeavesNothing(s: Sys, e: Event)
    requires Inv(s) && Enabled(s, e) && StopReturns(s, e)
    ensures var t := Apply(s, e);
      && t.agents == map[] && t.servers == map[] && t.inside.None?
      && (forall c: nat :: c < |t.conns| ==> Retired(t, c))
      && (forall i: nat :: i < |t.instances| ==> t.instances[i].releases == 1)
      && t.pool.taken == map[] && t.pool.busy == map[] && t.pool.lo <= t.pool.hi + 1
      && multiset(t.pool.free) == multiset(PortRange(t.pool.lo, t.pool.hi))
  {
    var t := Apply(s, e);
    StepInv(s, e);
    forall i: nat | i < |t.instances|
      ensures t.instances[i].releases == 1
    {
      assert O.StageOk(t.instances[i], false);
    }
    V.Vacant(s.servers, s.instances, s.agents, s.conns, t.agents, t.conns, V.Any);
    forall c: nat | c < |t.conns|
      ensures Retired(t, c)
    {
      assert R.ConnOk(t.agents, c, t.conns[c]);
    }
    P.QuietPoolIsFull(t.pool);
  }

  /** When Stop comes to shut the server manager down, its first loop has left nothing there to stop. */
  lemma ShutdownFindsNothing(lo: int, hi: int, es: seq<Event>)
    requires IsHistory(lo, hi, es) && Enabled(After(lo, hi, es), Inside(ShutdownSnapshot))
    ensures After(lo, hi, es).servers == map[] && After(lo, hi, es).agents == map[]
    ensures Apply(After(lo, hi, es), Inside(ShutdownSnapshot)).inside == Some(ShutdownLoop({}))
  {
    Reached(lo, hi, es);
    assert After(lo, hi, es).servers.Keys == {};
  }

  /**
   Whatever happened before, when Stop returns there is no connection and no server, every connection ever
   created is retired, every server ever started has released its port exactly once, and the free queue is a
   permutation of the whole configured range.
   */
  lemma StopReleasesEverything(lo: int, hi: int, es: seq<Event>, e: Event)
    requires IsHistory(lo, hi, es) && Enabled(After(lo, hi, es), e) && StopReturns(After(lo, hi, es), e)
    ensures var t := Apply(After(lo, hi, es), e);
      && t.agents == map[] && t.servers == map[] && t.inside.None?
      && (forall c: nat :: c < |t.conns| ==> Retired(t, c))
      && (forall i: nat :: i < |t.instances| ==> t.instances[i].releases == 1)
      && t.pool.taken == map[] && t.pool.busy == map[]
      && multiset(t.pool.free) == multiset(PortRange(lo, hi))
  {
    Reached(lo, hi, es);
    StopLeavesNothing(After(lo, hi, es), e);
    RangeStep(After(lo, hi, es), e);
  }
}
