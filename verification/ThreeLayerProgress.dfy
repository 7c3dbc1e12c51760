/**
 Mutexes are taken in one order, nobody waits in a circle, and the system left to itself comes to rest:
 every call that was made returns and every failed server is cleaned up.
 */
module ThreeLayerProgress {
  import opened Basics
  import P = PoolSteps
  import opened ThreeLayer
  import opened ThreeLayerInv
  import L = LocksInv
  import O = OwnersInv

  // ---- the order of the mutexes ----

  /** ConnectionManager.mu, AgentServerManager.mu and PortManager.mu, in this order. */
  datatype Mutex = Registry | Servers | Ports

  function Level(m: Mutex): nat {
    match m
    case Registry => 1
    case Servers => 2
    case Ports => 3
  }

  predicate Owns(s: Sys, c: P.Caller, m: Mutex) {
    match m
    case Registry => c.Main? && s.inside.Some?
    case Servers => s.amu == Some(c)
    case Ports => s.pool.mu == Some(c)
  }

  /** The mutex the caller is blocked on or about to take. */
  function Wants(s: Sys, c: P.Caller): Option<Mutex> {
    if c in s.pool.busy then
      if s.pool.busy[c].Requeueing? || s.pool.busy[c].locked then None else Some(Ports)
    else if c.Main? then
      if s.inside.Some? && (s.inside.value.StopWait? || s.inside.value.StartWait? || s.inside.value.ShutdownWait?)
      then Some(Servers) else None
    else if c.i < |s.instances| && s.instances[c.i].goroutine.FailWait? then
      Some(Servers)
    else
      None
  }

  lemma LockOrder(s: Sys, c: P.Caller, held: Mutex)
    requires Inv(s) && Owns(s, c, held) && Wants(s, c).Some?
    ensures Level(held) < Level(Wants(s, c).value)
  {
  }

  ghost predicate WaitsFor(s: Sys, c: P.Caller, d: P.Caller) {
    Wants(s, c).Some? && Owns(s, d, Wants(s, c).value)
  }

  ghost predicate IsWaitChain(s: Sys, cs: seq<P.Caller>) {
    forall k :: 0 <= k < |cs| - 1 ==> WaitsFor(s, cs[k], cs[k + 1])
  }

  lemma {:induction false} WaitsClimb(s: Sys, cs: seq<P.Caller>)
    requires Inv(s) && IsWaitChain(s, cs) && |cs| >= 2 && Wants(s, cs[|cs| - 1]).Some?
    ensures Wants(s, cs[0]).Some? && Level(Wants(s, cs[0]).value) < Level(Wants(s, cs[|cs| - 1]).value)
    decreases |cs|
  {
    assert WaitsFor(s, cs[0], cs[1]);
    if |cs| > 2 {
      WaitsClimb(s, cs[1..]);
    }
    LockOrder(s, cs[1], Wants(s, cs[0]).value);
  }

  /** No chain of callers, each waiting for a mutex the next one owns, ever closes on itself. */
  lemma NoCircularWait(s: Sys, cs: seq<P.Caller>)
    requires Inv(s) && |cs| >= 2 && IsWaitChain(s, cs)
    ensures cs[0] != cs[|cs| - 1]
  {
    if cs[0] == cs[|cs| - 1] {
      assert WaitsFor(s, cs[0], cs[1]);
      WaitsClimb(s, cs);
      assert false;
    }
  }

  // ---- something can always move ----

  /** Steps that finish work already begun; arrivals and serve outcomes are the environment's. */
  predicate IsWork(e: Event) {
    e.Enter? || e.Inside? || e.CleanUp? || e.PoolLock? || e.PoolDelete? || e.PoolSend?
  }

  ghost predicate AtRest(s: Sys) {
    && s.waiting == multiset{} && s.inside.None?
    && forall i: nat :: i < |s.instances| ==> s.instances[i].goroutine.Serving? || s.instances[i].goroutine.Gone?
  }

  lemma PoolMoves(s: Sys, c: P.Caller) returns (e: Event)
    requires Inv(s) && c in s.pool.busy && (s.pool.mu.Some? ==> s.pool.mu.value == c)
    ensures Enabled(s, e) && IsWork(e)
  {
    var ph := s.pool.busy[c];
    assert c.Goroutine? ==> L.Failing(s.instances[c.i]);
    if ph.Requeueing? {
      P.RoomToSend(s.pool, c);
      e := PoolSend(c);
    } else if !ph.locked {
      e := PoolLock(c);
    } else if ph.Releasing? {
      e := PoolDelete(c);
    } else {
      e := Inside(PoolRecord);
    }
  }

  lemma InsideMoves(s: Sys) returns (step: Step)
    requires Inv(s) && s.inside.Some? && s.pool.busy == map[]
    ensures At(s, step)
  {
    L.NoGoroutineOwner(s.pool.busy, s.instances, s.amu);
    match s.inside.value
    case Sweeping(todo) =>
      if a :| a in todo { step := SweepVisit(a, false); } else { step := SweepDone; }
    case StopLoop(todo) =>
      if a :| a in todo { step := StopVisit(a); } else { step := StopLoopDone; }
    case ShutdownWait => step := ShutdownSnapshot;
    case ShutdownLoop(_) => step := ShutdownDone;
    case StopWait(_, _) => step := StopServer;
    case Draining(_, _) => step := Drained;
    case Resuming(_) => step := Return;
    case StartWait(_) => NeverExists(s); step := StartServer;
    case StartTry(_, n) =>
      if n > MAX_PORT_BIND_RETRIES { step := StartGivesUp; }
      else if s.pool.free == [] { step := StartExhausted; }
      else { step := TakePort; }
    case StartBind(_, _, _) => step := Bind(true);
    case Started(_, _) => step := Finish;
  }

  /** Nobody inside Release ever waits for room in the channel. */
  lemma SendsAreEnabled(s: Sys)
    requires Inv(s)
    ensures forall c :: c in s.pool.busy && s.pool.busy[c].Requeueing? ==> Enabled(s, PoolSend(c))
  {
    forall c | c in s.pool.busy && s.pool.busy[c].Requeueing?
      ensures Enabled(s, PoolSend(c))
    {
      P.RoomToSend(s.pool, c);
      assert c.Goroutine? ==> L.Failing(s.instances[c.i]);
    }
  }

  /** Unless everything is at rest, some call or goroutine can take a step. */
  lemma SomethingMoves(s: Sys) returns (e: Event)
    requires Inv(s) && !AtRest(s)
    ensures Enabled(s, e) && IsWork(e)
    ensures forall c :: c in s.pool.busy && s.pool.busy[c].Requeueing? ==> Enabled(s, PoolSend(c))
  {
    SendsAreEnabled(s);
    if s.pool.mu.Some? {
      e := PoolMoves(s, s.pool.mu.value);
    } else if c :| c in s.pool.busy {
      e := PoolMoves(s, c);
    } else if s.inside.Some? {
      assert s.pool.busy == map[];
      var step := InsideMoves(s);
      e := Inside(step);
    } else if call :| call in s.waiting {
      e := Enter(call);
    } else {
      var i: nat :| i < |s.instances| && !s.instances[i].goroutine.Serving? && !s.instances[i].goroutine.Gone?;
      assert s.pool.busy == map[];
      L.NoGoroutineOwner(s.pool.busy, s.instances, s.amu);
      e := CleanUp(i);
    }
  }

  /** At rest every server ever started is in the map with its port recorded, or has released it exactly once. */
  lemma ReleasedAtRest(lo: int, hi: int, history: seq<Event>, i: nat)
    requires 1 <= lo <= hi && IsRun(Initial(lo, hi), history) && AtRest(Run(Initial(lo, hi), history))
    requires i < |Run(Initial(lo, hi), history).instances|
    ensures var s := Run(Initial(lo, hi), history);
      var x := s.instances[i];
      if x.agent in s.servers && s.servers[x.agent] == i then
        x.releases == 0 && x.port in s.pool.taken && s.pool.taken[x.port] == x.agent
      else
        x.releases == 1
  {
    InitialInv(lo, hi);
    RunInv(Initial(lo, hi), history);
    assert O.StageOk(Run(Initial(lo, hi), history).instances[i], false);
  }

  // ---- and it cannot move forever ----

  function PhaseRank(ph: P.Phase): nat {
    match ph
    case Recording(_, _, locked) => if locked then 1 else 2
    case Releasing(_, locked) => if locked then 2 else 3
    case Requeueing(_) => 1
  }

  function MainPhaseRank(s: Sys): nat {
    if P.Main in s.pool.busy then PhaseRank(s.pool.busy[P.Main]) else 0
  }

  function ContRank(k: Cont): nat {
    match k
    case ThenStart(_) => 60
    case ThenForget(_) => 0
    case ThenSweep(_, todo) => 10 * |todo| + 1
    case ThenStop(todo) => 10 * |todo| + 5
    case ThenShutdown(todo) => 10 * |todo| + 1
  }

  function AttemptRank(n: nat): nat {
    if n <= MAX_PORT_BIND_RETRIES then 12 * (MAX_PORT_BIND_RETRIES + 1 - n) else 0
  }

  /** How much the call that owns the registry's mutex still has to do, at most. */
  function PcRank(pc: Pc, phase: nat): nat {
    match pc
    case Sweeping(todo) => 10 * |todo| + 1
    case StopLoop(todo) => 10 * |todo| + 5
    case ShutdownWait => 3
    case ShutdownLoop(todo) => 10 * |todo| + 1
    case StopWait(_, k) => 7 + ContRank(k)
    case Draining(_, k) => 6 + ContRank(k)
    case StopRelease(_, k) => 2 + phase + ContRank(k)
    case StopRequeue(k) => 2 + phase + ContRank(k)
    case Resuming(k) => 2 + ContRank(k)
    case StartWait(_) => 59
    case StartTry(_, n) => AttemptRank(n) + 3
    case StartRecord(_, n) => AttemptRank(n) + phase
    case StartBind(_, n, _) => AttemptRank(n)
    case StartRelease(_, n, _) => if AttemptRank(n) >= 5 then AttemptRank(n) - 5 + phase else phase
    case StartRequeue(_, n) => if AttemptRank(n) >= 5 then AttemptRank(n) - 5 + phase else phase
    case Started(_, _) => 1
  }

  function InsideRank(s: Sys): nat {
    match s.inside
    case None => 0
    case Some(pc) => PcRank(pc, MainPhaseRank(s))
  }

  /** Failed goroutines that have not yet entered their cleanup. */
  function CountWaiting(xs: seq<Instance>): nat {
    if xs == [] then 0 else (if xs[0].goroutine.FailWait? then 1 else 0) + CountWaiting(xs[1..])
  }

  lemma {:induction false} CountUpdate(xs: seq<Instance>, i: nat, y: Instance)
    requires i < |xs|
    ensures CountWaiting(xs[i := y]) + (if xs[i].goroutine.FailWait? then 1 else 0)
         == CountWaiting(xs) + (if y.goroutine.FailWait? then 1 else 0)
  {
    if i == 0 {
      assert xs[i := y][1..] == xs[1..];
    } else {
      assert xs[i := y][1..] == xs[1..][i - 1 := y];
      CountUpdate(xs[1..], i - 1, y);
    }
  }

  /** How far the goroutine that owns AgentServerManager.mu still has to go. */
  function CleanerRank(s: Sys): nat {
    if s.amu.Some? && s.amu.value.Goroutine? && s.amu.value in s.pool.busy then PhaseRank(s.pool.busy[s.amu.value]) else 0
  }

  /** The rest of the work shrinks, in lexicographic order. */
  ghost predicate Shrinks(s: Sys, t: Sys) {
    || |t.waiting| < |s.waiting|
    || (|t.waiting| == |s.waiting| &&
        (|| InsideRank(t) < InsideRank(s)
         || (InsideRank(t) == InsideRank(s) &&
             (|| CountWaiting(t.instances) < CountWaiting(s.instances)
              || (CountWaiting(t.instances) == CountWaiting(s.instances) && CleanerRank(t) < CleanerRank(s))))))
  }

  predicate IsStartStep(step: Step) {
    || step.StartServer? || step.TakePort? || step.StartExhausted? || step.StartGivesUp?
    || step.Bind? || step.Finish? || step.PoolRecord?
  }

  lemma StartRankDrops(s: Sys, step: Step)
    requires MutexInv(s) && At(s, step) && IsStartStep(step) && LoopOk(s.agents, s.pool, s.inside.value)
    ensures InsideRank(ApplyInside(s, step)) < InsideRank(s)
  {
  }

  predicate IsStopStep(step: Step) {
    step.StopServer? || step.Drained? || step.Return?
  }

  lemma StopRankDrops(s: Sys, step: Step)
    requires MutexInv(s) && At(s, step) && IsStopStep(step)
    ensures InsideRank(ApplyInside(s, step)) < InsideRank(s)
  {
  }

  predicate IsVisit(step: Step) {
    step.SweepVisit? || step.StopVisit? || step.ShutdownVisit?
  }

  lemma VisitRankDrops(s: Sys, step: Step)
    requires MutexInv(s) && At(s, step) && IsVisit(step)
    ensures InsideRank(ApplyInside(s, step)) < InsideRank(s)
  {
    assert |s.inside.value.todo - {step.agent}| == |s.inside.value.todo| - 1;
  }

  lemma LoopRankDrops(s: Sys, step: Step)
    requires MutexInv(s) && At(s, step) && !IsStartStep(step) && !IsStopStep(step) && !IsVisit(step) && !step.StartExists?
    requires step.ShutdownSnapshot? ==> s.servers == map[]
    ensures InsideRank(ApplyInside(s, step)) < InsideRank(s)
  {
  }

  lemma InsideShrinks(s: Sys, step: Step)
    requires Inv(s) && At(s, step)
    ensures Shrinks(s, ApplyInside(s, step))
  {
    if step.StartExists? {
      NeverExists(s);
    } else if IsStartStep(step) {
      StartRankDrops(s, step);
    } else if IsStopStep(step) {
      StopRankDrops(s, step);
    } else if IsVisit(step) {
      VisitRankDrops(s, step);
    } else {
      if step.ShutdownSnapshot? {
        ShutdownSnapshotInv(s);
      }
      LoopRankDrops(s, step);
    }
  }

  lemma CleanUpShrinks(s: Sys, i: nat)
    requires Inv(s) && Enabled(s, CleanUp(i))
    ensures Shrinks(s, Apply(s, CleanUp(i)))
  {
    CountUpdate(s.instances, i, Apply(s, CleanUp(i)).instances[i]);
  }

  /** Lock, delete and send each lower what the call inside still has to do in the pool. */
  lemma MainLockShrinks(s: Sys)
    requires MutexInv(s) && s.inside.Some? && LoopOk(s.agents, s.pool, s.inside.value) && Enabled(s, PoolLock(P.Main))
    ensures InsideRank(Apply(s, PoolLock(P.Main))) < InsideRank(s)
  {
  }

  lemma MainDeleteShrinks(s: Sys)
    requires MutexInv(s) && s.inside.Some? && LoopOk(s.agents, s.pool, s.inside.value) && Enabled(s, PoolDelete(P.Main))
    requires s.pool.busy[P.Main].port in s.pool.taken
    ensures InsideRank(Apply(s, PoolDelete(P.Main))) < InsideRank(s)
  {
  }

  lemma MainSendShrinks(s: Sys)
    requires MutexInv(s) && s.inside.Some? && LoopOk(s.agents, s.pool, s.inside.value) && Enabled(s, PoolSend(P.Main))
    ensures InsideRank(Apply(s, PoolSend(P.Main))) < InsideRank(s)
  {
  }

  lemma MainPoolShrinks(s: Sys, e: Event)
    requires MutexInv(s) && s.inside.Some? && LoopOk(s.agents, s.pool, s.inside.value)
    requires Enabled(s, e) && (e.PoolLock? || e.PoolDelete? || e.PoolSend?) && e.c.Main?
    requires e.PoolDelete? ==> s.pool.busy[P.Main].port in s.pool.taken
    ensures Shrinks(s, Apply(s, e))
  {
    match e
    case PoolLock(_) => MainLockShrinks(s);
    case PoolDelete(_) => MainDeleteShrinks(s);
    case PoolSend(_) => MainSendShrinks(s);
  }

  lemma GoroutinePoolShrinks(s: Sys, e: Event)
    requires MutexInv(s) && Enabled(s, e) && (e.PoolLock? || e.PoolDelete? || e.PoolSend?) && e.c.Goroutine?
    requires e.PoolDelete? ==> s.pool.busy[e.c].port in s.pool.taken
    ensures Shrinks(s, Apply(s, e))
  {
    var t := Apply(s, e);
    assert L.Failing(s.instances[e.c.i]);
    assert InsideRank(t) == InsideRank(s);
    CountUpdate(s.instances, e.c.i, t.instances[e.c.i]);
    assert s.instances[e.c.i := s.instances[e.c.i]] == s.instances;
  }

  lemma PoolShrinks(s: Sys, e: Event)
    requires Inv(s) && Enabled(s, e) && (e.PoolLock? || e.PoolDelete? || e.PoolSend?)
    ensures Shrinks(s, Apply(s, e))
  {
    if e.PoolDelete? {
      ReleaseFindsItsRecord(s, e.c);
    }
    if e.c.Main? {
      MainPoolShrinks(s, e);
    } else {
      GoroutinePoolShrinks(s, e);
    }
  }

  lemma WorkShrinks(s: Sys, e: Event)
    requires Inv(s) && Enabled(s, e) && IsWork(e)
    ensures Shrinks(s, Apply(s, e))
  {
    match e
    case Enter(call) => assert s.waiting == (s.waiting - multiset{call}) + multiset{call};
    case Inside(step) => InsideShrinks(s, step);
    case CleanUp(i) => CleanUpShrinks(s, i);
    case PoolLock(_) => PoolShrinks(s, e);
    case PoolDelete(_) => PoolShrinks(s, e);
    case PoolSend(_) => PoolShrinks(s, e);
  }

  // ---- so the system comes to rest ----

  ghost predicate AllWork(es: seq<Event>) {
    forall k :: 0 <= k < |es| ==> IsWork(es[k])
  }

  lemma OneMore(s: Sys, e: Event, rest: seq<Event>)
    requires Enabled(s, e) && IsRun(Apply(s, e), rest) && IsWork(e) && AllWork(rest)
    ensures IsRun(s, [e] + rest) && Run(s, [e] + rest) == Run(Apply(s, e), rest) && AllWork([e] + rest)
  {
    assert ([e] + rest)[1..] == rest;
  }

  /** A longest run of work from s, which therefore ends at rest. */
  lemma Settles(s: Sys) returns (es: seq<Event>)
    requires Inv(s)
    ensures IsRun(s, es) && AllWork(es) && AtRest(Run(s, es))
    decreases |s.waiting|, InsideRank(s), CountWaiting(s.instances), CleanerRank(s)
  {
    if AtRest(s) {
      es := [];
    } else {
      var e := SomethingMoves(s);
      WorkShrinks(s, e);
      StepInv(s, e);
      var rest := Settles(Apply(s, e));
      es := [e] + rest;
      OneMore(s, e, rest);
    }
  }

  /**
   After every history, whatever has failed or is blocked: no circular wait; and unless all calls have
   returned and all failed servers are cleaned up some step of them is enabled, every such step brings the
   end strictly closer, and a sequence of them reaches it.
   */
  lemma NoDeadlock(lo: int, hi: int, history: seq<Event>) returns (rest: seq<Event>)
    requires 1 <= lo <= hi && IsRun(Initial(lo, hi), history)
    ensures var s := Run(Initial(lo, hi), history);
      && (forall cs :: |cs| >= 2 && IsWaitChain(s, cs) ==> cs[0] != cs[|cs| - 1])
      && (!AtRest(s) ==> exists e :: Enabled(s, e) && IsWork(e))
      && (forall e :: Enabled(s, e) && IsWork(e) ==> Shrinks(s, Apply(s, e)))
      && IsRun(s, rest) && AllWork(rest) && AtRest(Run(s, rest))
  {
    InitialInv(lo, hi);
    RunInv(Initial(lo, hi), history);
    var s := Run(Initial(lo, hi), history);
    forall cs | |cs| >= 2 && IsWaitChain(s, cs)
      ensures cs[0] != cs[|cs| - 1]
    {
      NoCircularWait(s, cs);
    }
    if !AtRest(s) {
      var e := SomethingMoves(s);
    }
    forall e | Enabled(s, e) && IsWork(e)
      ensures Shrinks(s, Apply(s, e))
    {
      WorkShrinks(s, e);
    }
    rest := Settles(s);
  }
}
