/**
 Calls that run in the concurrent system without interruption: what their steps are, stretch by stretch, and
 that each of them can run to its end.  What every such run comes to is in CallsAlone.
 */
module Uninterrupted {
  import opened Basics
  import P = PoolSteps
  import opened ThreeLayer
  import opened ThreeLayerInv
  import Q = PortPool
  import A = AgentServers
  import R = RegistryInv
  import V = ServersInv

  /** Nobody owns the server manager's mutex or is inside the pool. */
  predicate Idle(s: Sys) {
    s.amu.None? && s.pool.busy == map[] && s.pool.mu.None?
  }

  /** And nobody owns the registry's. */
  predicate Calm(s: Sys) {
    s.inside.None? && Idle(s)
  }

  ghost predicate ServersKnown(s: Sys) {
    forall a :: a in s.servers ==> s.servers[a] < |s.instances|
  }

  /** What the classes see of it. */
  ghost function FleetOf(s: Sys): A.Fleet
    requires ServersKnown(s)
  {
    A.Fleet(map a | a in s.servers :: s.instances[s.servers[a]].port, s.pool.free)
  }

  // ---- runs ----

  lemma {:induction false} Append(s: Sys, es: seq<Event>, fs: seq<Event>)
    requires IsRun(s, es) && IsRun(Run(s, es), fs)
    ensures IsRun(s, es + fs) && Run(s, es + fs) == Run(Run(s, es), fs)
    decreases |es|
  {
    if es == [] {
      assert es + fs == fs;
    } else {
      Append(Apply(s, es[0]), es[1..], fs);
      assert (es + fs)[1..] == es[1..] + fs;
    }
  }

  lemma Single(s: Sys, e: Event)
    requires Enabled(s, e)
    ensures IsRun(s, [e]) && Run(s, [e]) == Apply(s, e)
  {
    assert [e][1..] == [];
  }

  lemma Then(s: Sys, e: Event, fs: seq<Event>)
    requires Enabled(s, e) && IsRun(Apply(s, e), fs)
    ensures IsRun(s, [e] + fs) && Run(s, [e] + fs) == Run(Apply(s, e), fs)
  {
    Single(s, e);
    Append(s, [e], fs);
  }

  // ---- the steps of the call inside ----

  /** A step of the call that owns the registry's mutex. */
  predicate Own(e: Event) {
    e.Inside? || ((e.PoolLock? || e.PoolDelete? || e.PoolSend?) && e.c.Main?)
  }

  /** A step at which the environment, or the order of ranging over a map, has a choice. */
  predicate IsChoice(e: Event) {
    e.Inside? && (e.step.Bind? || e.step.SweepVisit? || e.step.StopVisit? || e.step.ShutdownVisit?)
  }

  ghost predicate AllOwn(es: seq<Event>) {
    forall k :: 0 <= k < |es| ==> Own(es[k])
  }

  /** Own steps without a choice among them. */
  ghost predicate Forced(es: seq<Event>) {
    forall k :: 0 <= k < |es| ==> Own(es[k]) && !IsChoice(es[k])
  }

  /** The call arrives, gets the mutex and runs to its return, and nobody else moves. */
  ghost predicate Alone(s: Sys, call: Call, es: seq<Event>) {
    && IsRun(s, es) && |es| >= 2 && es[0] == Arrive(call) && es[1] == Enter(call) && AllOwn(es[2..])
    && Run(s, es).inside.None?
  }

  /** The outcomes of the binds in a run, in order. */
  function BindsOf(es: seq<Event>): seq<bool> {
    if es == [] then []
    else (if es[0].Inside? && es[0].step.Bind? then [es[0].step.ok] else []) + BindsOf(es[1..])
  }

  lemma {:induction false} BindsAppend(es: seq<Event>, fs: seq<Event>)
    ensures BindsOf(es + fs) == BindsOf(es) + BindsOf(fs)
  {
    if es == [] {
      assert es + fs == fs;
    } else {
      assert (es + fs)[1..] == es[1..] + fs;
      BindsAppend(es[1..], fs);
    }
  }

  lemma {:induction false} ForcedBinds(es: seq<Event>)
    requires Forced(es)
    ensures BindsOf(es) == []
  {
    if es != [] {
      assert !IsChoice(es[0]);
      ForcedBinds(es[1..]);
    }
  }

  /** The agents that a sweep in this run finds stale. */
  function StaleIn(es: seq<Event>): set<string> {
    if es == [] then {}
    else (if es[0].Inside? && es[0].step.SweepVisit? && es[0].step.stale then {es[0].step.agent} else {}) + StaleIn(es[1..])
  }

  /** The agents that a sweep in this run looks at. */
  function VisitedIn(es: seq<Event>): set<string> {
    if es == [] then {}
    else (if es[0].Inside? && es[0].step.SweepVisit? then {es[0].step.agent} else {}) + VisitedIn(es[1..])
  }

  // ---- Release ----

  predicate InRelease(s: Sys, port: int) {
    && s.inside.Some? && (s.inside.value.StartRelease? || s.inside.value.StopRelease?)
    && (s.inside.value.StopRelease? ==> s.inside.value.i < |s.instances|)
    && s.pool.busy == map[P.Main := P.Releasing(port, false)] && s.pool.mu.None?
    && port in s.pool.taken && |s.pool.free| < P.Capacity(s.pool)
  }

  function Returned(p: P.Pool, port: int): P.Pool {
    p.(free := p.free + [port], taken := p.taken - {port}, busy := map[])
  }

  function AfterRelease(s: Sys, port: int): Sys
    requires InRelease(s, port)
  {
    var t := s.(pool := Returned(s.pool, port));
    match s.inside.value
    case StopRelease(i, k) => t.(instances := s.instances[i := MarkReleased(s.instances[i])], inside := Some(Resuming(k)))
    case StartRelease(agent, attempt, _) => t.(inside := Some(StartTry(agent, attempt + 1)))
    case _ => t
  }

  /** One step from s to t. */
  ghost predicate Steps(s: Sys, e: Event, t: Sys) {
    Enabled(s, e) && Apply(s, e) == t
  }

  lemma Three(s: Sys, e1: Event, s1: Sys, e2: Event, s2: Sys, e3: Event, s3: Sys) returns (es: seq<Event>)
    requires Steps(s, e1, s1) && Steps(s1, e2, s2) && Steps(s2, e3, s3)
    ensures IsRun(s, es) && Run(s, es) == s3 && es == [e1, e2, e3]
  {
    Single(s2, e3);
    Then(s1, e2, [e3]);
    Then(s, e1, [e2] + [e3]);
    es := [e1] + ([e2] + [e3]);
  }

  lemma MainLocks(s: Sys, ph: P.Phase)
    requires s.pool.busy == map[P.Main := ph] && !ph.Requeueing? && !ph.locked && s.pool.mu.None?
    ensures Steps(s, PoolLock(P.Main),
                  s.(pool := s.pool.(mu := Some(P.Main), busy := map[P.Main := ph.(locked := true)])))
  {
  }

  function Deleted(p: P.Pool, port: int): P.Pool {
    p.(mu := None, taken := p.taken - {port}, busy := map[P.Main := P.Requeueing(port)])
  }

  function AfterDelete(s: Sys, port: int): Sys
    requires InRelease(s, port)
  {
    var t := s.(pool := Deleted(s.pool, port));
    match s.inside.value
    case StopRelease(i, k) => t.(instances := s.instances[i := MarkReleased(s.instances[i])], inside := Some(StopRequeue(k)))
    case StartRelease(agent, attempt, _) => t.(inside := Some(StartRequeue(agent, attempt)))
    case _ => t
  }

  lemma MainDeletes(s: Sys, port: int)
    requires InRelease(s, port)
    ensures Steps(s.(pool := s.pool.(mu := Some(P.Main), busy := map[P.Main := P.Releasing(port, true)])),
                  PoolDelete(P.Main), AfterDelete(s, port))
  {
    var s1 := s.(pool := s.pool.(mu := Some(P.Main), busy := map[P.Main := P.Releasing(port, true)]));
    assert P.Apply(s1.pool, P.Delete(P.Main)) == Deleted(s.pool, port);
  }

  lemma PoolSends(p: P.Pool, port: int)
    requires p.mu.None? && |p.free| < P.Capacity(p)
    ensures P.Enabled(Deleted(p, port), P.Send(P.Main))
    ensures P.Apply(Deleted(p, port), P.Send(P.Main)) == Returned(p, port)
  {
    assert Deleted(p, port).busy - {P.Main} == map[];
  }

  lemma SendReturns(s: Sys, port: int)
    requires InRelease(s, port)
    ensures KnowsCaller(AfterDelete(s, port).(pool := Returned(s.pool, port)), P.Main)
    ensures ReleaseReturns(AfterDelete(s, port).(pool := Returned(s.pool, port)), P.Main) == AfterRelease(s, port)
  {
    var t := AfterDelete(s, port).(pool := Returned(s.pool, port));
    if s.inside.value.StopRelease? {
      assert t.inside == Some(StopRequeue(s.inside.value.k));
      assert ReleaseReturns(t, P.Main) == t.(inside := Some(Resuming(s.inside.value.k)));
    } else {
      var agent, attempt := s.inside.value.agent, s.inside.value.attempt;
      assert t.inside == Some(StartRequeue(agent, attempt));
      assert ReleaseReturns(t, P.Main) == t.(inside := Some(StartTry(agent, attempt + 1)));
    }
  }

  lemma MainSends(s: Sys, port: int)
    requires InRelease(s, port)
    ensures Steps(AfterDelete(s, port), PoolSend(P.Main), AfterRelease(s, port))
  {
    PoolSends(s.pool, port);
    var t := AfterDelete(s, port);
    assert KnowsCaller(t, P.Main);
    SendReturns(s, port);
    assert Apply(t, PoolSend(P.Main)) == ReleaseReturns(t.(pool := Returned(s.pool, port)), P.Main);
  }

  lemma ReleaseRun(s: Sys, port: int) returns (es: seq<Event>)
    requires InRelease(s, port)
    ensures IsRun(s, es) && Run(s, es) == AfterRelease(s, port) && Forced(es)
  {
    MainLocks(s, P.Releasing(port, false));
    MainDeletes(s, port);
    MainSends(s, port);
    es := Three(s, PoolLock(P.Main),
                s.(pool := s.pool.(mu := Some(P.Main), busy := map[P.Main := P.Releasing(port, true)])),
                PoolDelete(P.Main), AfterDelete(s, port),
                PoolSend(P.Main), AfterRelease(s, port));
  }

  // ---- StopAgentServer ----

  function WithoutServer(s: Sys, a: string): Sys
    requires a in s.servers ==> s.servers[a] < |s.instances|
  {
    if a !in s.servers then s
    else
      var i := s.servers[a];
      s.(servers := s.servers - {a},
         instances := s.instances[i := MarkReleased(s.instances[i])],
         pool := Returned(s.pool, s.instances[i].port))
  }

  predicate AtStop(s: Sys, a: string, k: Cont) {
    s.inside == Some(StopWait(a, k)) && s.amu.None? && s.pool.busy == map[] && s.pool.mu.None?
  }

  ghost predicate MayStop(s: Sys, a: string, k: Cont) {
    && AtStop(s, a, k) && ServersKnown(s)
    && (a in s.servers ==>
          var port := s.instances[s.servers[a]].port; port in s.pool.taken && |s.pool.free| < P.Capacity(s.pool))
  }

  /** The instance is out of the map and drained; Release has been called. */
  function Stopping(s: Sys, a: string, k: Cont): Sys
    requires a in s.servers && s.servers[a] < |s.instances|
  {
    var i := s.servers[a];
    s.(servers := s.servers - {a},
       instances := s.instances[i := s.instances[i].(stage := Closing)],
       pool := s.pool.(busy := map[P.Main := P.Releasing(s.instances[i].port, false)]),
       inside := Some(StopRelease(i, k)))
  }

  lemma BeginStop(s: Sys, a: string, k: Cont) returns (es: seq<Event>)
    requires MayStop(s, a, k) && a in s.servers
    ensures IsRun(s, es) && Run(s, es) == Stopping(s, a, k) && Forced(es)
  {
    var i := s.servers[a];
    var s1 := s.(servers := s.servers - {a}, instances := s.instances[i := s.instances[i].(stage := Closing)],
                 inside := Some(Draining(i, k)));
    assert Steps(s, Inside(StopServer), s1);
    assert Steps(s1, Inside(Drained), Stopping(s, a, k)) by {
      assert map[][P.Main := P.Releasing(s.instances[i].port, false)] == map[P.Main := P.Releasing(s.instances[i].port, false)];
    }
    Single(s1, Inside(Drained));
    Then(s, Inside(StopServer), [Inside(Drained)]);
    es := [Inside(StopServer)] + [Inside(Drained)];
  }

  lemma EndStop(s: Sys, a: string, k: Cont)
    requires MayStop(s, a, k) && a in s.servers
    ensures InRelease(Stopping(s, a, k), s.instances[s.servers[a]].port)
    ensures Steps(AfterRelease(Stopping(s, a, k), s.instances[s.servers[a]].port), Inside(Return),
                  Resume(WithoutServer(s, a), k))
  {
    var i := s.servers[a];
    var t := AfterRelease(Stopping(s, a, k), s.instances[i].port);
    assert t.instances == s.instances[i := MarkReleased(s.instances[i])];
    assert t == WithoutServer(s, a).(inside := Some(Resuming(k)));
    ResumeAnywhere(WithoutServer(s, a), Some(Resuming(k)), k);
  }

  /** Resume does not look at the program point it is called at. */
  lemma ResumeAnywhere(s: Sys, inside: Option<Pc>, k: Cont)
    ensures Resume(s.(inside := inside), k) == Resume(s, k)
  {
  }

  lemma StopRun(s: Sys, a: string, k: Cont) returns (es: seq<Event>)
    requires MayStop(s, a, k)
    ensures IsRun(s, es) && Run(s, es) == Resume(WithoutServer(s, a), k) && Forced(es)
  {
    if a in s.servers {
      var port := s.instances[s.servers[a]].port;
      es := BeginStop(s, a, k);
      EndStop(s, a, k);
      var fs := ReleaseRun(Stopping(s, a, k), port);
      Append(s, es, fs);
      Single(AfterRelease(Stopping(s, a, k), port), Inside(Return));
      Append(s, es + fs, [Inside(Return)]);
      es := es + fs + [Inside(Return)];
    } else {
      StopFindsNone(s, a, k);
      var s1 := s.(inside := Some(Resuming(k)));
      Single(s1, Inside(Return));
      Then(s, Inside(StopServer), [Inside(Return)]);
      es := [Inside(StopServer)] + [Inside(Return)];
    }
  }

  lemma StopFindsNone(s: Sys, a: string, k: Cont)
    requires MayStop(s, a, k) && a !in s.servers
    ensures Steps(s, Inside(StopServer), s.(inside := Some(Resuming(k))))
    ensures Steps(s.(inside := Some(Resuming(k))), Inside(Return), Resume(s, k))
  {
    ResumeAnywhere(s, Some(Resuming(k)), k);
  }

  // ---- StartAgentServer ----

  predicate AtStartTry(s: Sys, a: string, n: nat) {
    s.inside == Some(StartTry(a, n)) && s.amu == Some(P.Main) && s.pool.busy == map[] && s.pool.mu.None?
  }

  ghost predicate AtTry(s: Sys, a: string, n: nat) {
    AtStartTry(s, a, n) && P.Inv(s.pool)
  }

  /** The server of agent a on the port, started and registered. */
  function Joined(s: Sys, a: string, port: int): Sys {
    s.(servers := s.servers[a := |s.instances|],
       instances := s.instances + [Instance(a, port, Live, Serving, 0)],
       amu := None,
       conns := s.conns + [Connection(a, port, false, 0)],
       agents := s.agents[a := |s.conns|],
       inside := None)
  }

  /** Allocate has received the port. */
  function Taking(s: Sys, a: string, n: nat, locked: bool): Sys
    requires s.pool.free != []
  {
    s.(pool := s.pool.(free := s.pool.free[1..], mu := if locked then Some(P.Main) else None,
                       busy := map[P.Main := P.Recording(s.pool.free[0], a, locked)]),
       inside := Some(StartRecord(a, n)))
  }

  /** And recorded it. */
  function Taken(s: Sys, a: string, n: nat): Sys
    requires s.pool.free != []
  {
    var port := s.pool.free[0];
    s.(pool := s.pool.(free := s.pool.free[1..], taken := s.pool.taken[port := a]), inside := Some(StartBind(a, n, port)))
  }

  lemma Takes(s: Sys, a: string, n: nat)
    requires AtTry(s, a, n) && n <= MAX_PORT_BIND_RETRIES && s.pool.free != []
    ensures Steps(s, Inside(TakePort), Taking(s, a, n, false))
  {
  }

  lemma Records(s: Sys, a: string, n: nat)
    requires AtTry(s, a, n) && s.pool.free != []
    ensures Steps(Taking(s, a, n, true), Inside(PoolRecord), Taken(s, a, n))
  {
    assert Taking(s, a, n, true).pool.busy - {P.Main} == map[];
  }

  /** Allocate, up to the bind. */
  lemma TakeRun(s: Sys, a: string, n: nat) returns (es: seq<Event>)
    requires AtTry(s, a, n) && n <= MAX_PORT_BIND_RETRIES && s.pool.free != []
    ensures IsRun(s, es) && Forced(es) && Run(s, es) == Taken(s, a, n)
  {
    Takes(s, a, n);
    MainLocks(Taking(s, a, n, false), P.Recording(s.pool.free[0], a, false));
    Records(s, a, n);
    es := Three(s, Inside(TakePort), Taking(s, a, n, false), PoolLock(P.Main), Taking(s, a, n, true),
                Inside(PoolRecord), Taken(s, a, n));
  }

  lemma BindsOnce(es: seq<Event>, ok: bool, fs: seq<Event>)
    requires Forced(es) && Forced(fs)
    ensures AllOwn(es + ([Inside(Bind(ok))] + fs)) && BindsOf(es + ([Inside(Bind(ok))] + fs)) == [ok]
  {
    ForcedBinds(es);
    ForcedBinds(fs);
    BindsAppend(es, [Inside(Bind(ok))] + fs);
    assert ([Inside(Bind(ok))] + fs)[1..] == fs;
  }

  lemma BindSucceeds(s: Sys, a: string, n: nat)
    requires AtTry(s, a, n) && s.pool.free != []
    ensures var t := Apply(Taken(s, a, n), Inside(Bind(true)));
      && Enabled(Taken(s, a, n), Inside(Bind(true))) && Enabled(t, Inside(Finish))
      && Apply(t, Inside(Finish)) == Bound(s, a)
  {
  }

  /** The head of the queue bound, and the agent registered on it. */
  function Bound(s: Sys, a: string): Sys
    requires s.pool.free != []
  {
    var port := s.pool.free[0];
    Joined(s.(pool := s.pool.(free := s.pool.free[1..], taken := s.pool.taken[port := a])), a, port)
  }

  lemma BindRun(s: Sys, a: string, n: nat) returns (es: seq<Event>)
    requires AtTry(s, a, n) && n <= MAX_PORT_BIND_RETRIES && s.pool.free != []
    ensures IsRun(s, es) && AllOwn(es) && BindsOf(es) == [true] && Run(s, es) == Bound(s, a)
  {
    es := TakeRun(s, a, n);
    BindSucceeds(s, a, n);
    var t := Apply(Taken(s, a, n), Inside(Bind(true)));
    Single(t, Inside(Finish));
    Then(Taken(s, a, n), Inside(Bind(true)), [Inside(Finish)]);
    Append(s, es, [Inside(Bind(true))] + [Inside(Finish)]);
    BindsOnce(es, true, [Inside(Finish)]);
    es := es + ([Inside(Bind(true))] + [Inside(Finish)]);
  }

  /** A bind has failed and Release has been called. */
  function Unbound(s: Sys, a: string, n: nat): Sys
    requires s.pool.free != []
  {
    var port := s.pool.free[0];
    s.(pool := s.pool.(free := s.pool.free[1..], taken := s.pool.taken[port := a],
                       busy := map[P.Main := P.Releasing(port, false)]),
       inside := Some(StartRelease(a, n, port)))
  }

  lemma BindFails(s: Sys, a: string, n: nat)
    requires AtTry(s, a, n) && s.pool.free != []
    ensures Steps(Taken(s, a, n), Inside(Bind(false)), Unbound(s, a, n))
  {
    var port := s.pool.free[0];
    assert s.pool.busy[P.Main := P.Releasing(port, false)] == map[P.Main := P.Releasing(port, false)];
  }

  /** The head of the queue put back at its end, and the next attempt. */
  function Turned(s: Sys, a: string, n: nat): Sys
    requires s.pool.free != []
  {
    s.(pool := s.pool.(free := s.pool.free[1..] + [s.pool.free[0]]), inside := Some(StartTry(a, n + 1)))
  }

  /** The port that could not be bound ends up at the end of the queue. */
  lemma AfterFailedBind(s: Sys, a: string, n: nat)
    requires AtTry(s, a, n) && s.pool.free != []
    ensures InRelease(Unbound(s, a, n), s.pool.free[0])
    ensures AfterRelease(Unbound(s, a, n), s.pool.free[0]) == Turned(s, a, n)
  {
    var port := s.pool.free[0];
    TailHasRoom(s.pool);
    assert port in s.pool.free && port !in s.pool.taken;
    assert s.pool.taken[port := a] - {port} == s.pool.taken;
  }

  lemma FailRun(s: Sys, a: string, n: nat) returns (es: seq<Event>)
    requires AtTry(s, a, n) && n <= MAX_PORT_BIND_RETRIES && s.pool.free != []
    ensures IsRun(s, es) && AllOwn(es) && BindsOf(es) == [false] && Run(s, es) == Turned(s, a, n)
  {
    es := TakeRun(s, a, n);
    BindFails(s, a, n);
    AfterFailedBind(s, a, n);
    var fs := ReleaseRun(Unbound(s, a, n), s.pool.free[0]);
    Then(Taken(s, a, n), Inside(Bind(false)), fs);
    Append(s, es, [Inside(Bind(false))] + fs);
    BindsOnce(es, false, fs);
    es := es + ([Inside(Bind(false))] + fs);
  }

  lemma TailHasRoom(p: P.Pool)
    requires P.Inv(p) && p.free != []
    ensures |p.free[1..]| < P.Capacity(p)
  {
    var port := p.free[0];
    assert P.InRange(p, port);
    assert p.free == [port] + p.free[1..];
    assert forall x :: x in p.free[1..] ==> x in p.free && P.InRange(p, x);
    MissingLeavesRoom(p.free[1..], p.lo, p.hi, port);
  }

  /** All that StartAgentServer and Register do, given the outcomes of the binds that are left. */
  function Tried(s: Sys, a: string, binds: seq<bool>): Sys {
    var k := A.Failures(binds);
    var q := Q.Rotated(s.pool.free, k);
    if s.pool.free == [] then s.(amu := None, inside := None)
    else if k == |binds| then s.(pool := s.pool.(free := q), amu := None, inside := None)
    else Joined(s.(pool := s.pool.(free := q[1..], taken := s.pool.taken[q[0] := a])), a, q[0])
  }

  lemma RotationKeepsPool(p: P.Pool)
    requires P.Inv(p) && p.free != []
    ensures P.Inv(p.(free := p.free[1..] + [p.free[0]]))
  {
    var x := p.free[0];
    var r := p.(free := p.free[1..] + [x]);
    assert p.free == [x] + p.free[1..];
    assert forall y :: y in p.free <==> y in r.free;
    assert forall y :: P.Carried(p, y) <==> P.Carried(r, y);
    assert forall y :: P.InRange(p, y) <==> P.InRange(r, y);
    DistinctAppend(p.free[1..], x);
  }

  lemma TriedNext(s: Sys, a: string, n: nat, binds: seq<bool>)
    requires AtTry(s, a, n) && s.pool.free != [] && binds != [] && !binds[0]
    ensures Tried(s, a, binds) == Tried(Turned(s, a, n), a, binds[1..]) && AtTry(Turned(s, a, n), a, n + 1)
  {
    var q := s.pool.free[1..] + [s.pool.free[0]];
    assert Q.Rotated(s.pool.free, A.Failures(binds)) == Q.Rotated(q, A.Failures(binds[1..]));
    RotationKeepsPool(s.pool);
  }

  lemma TriedLast(s: Sys, a: string, n: nat, binds: seq<bool>)
    requires AtTry(s, a, n) && n + |binds| == MAX_PORT_BIND_RETRIES + 1
    ensures binds == [] ==> Steps(s, Inside(StartGivesUp), Tried(s, a, binds))
    ensures binds != [] && s.pool.free == [] ==> Steps(s, Inside(StartExhausted), Tried(s, a, binds))
    ensures binds != [] && s.pool.free != [] && binds[0] ==> Bound(s, a) == Tried(s, a, binds)
  {
  }

  lemma OneStep(s: Sys, e: Event, t: Sys)
    requires Steps(s, e, t) && Own(e) && !IsChoice(e)
    ensures IsRun(s, [e]) && Run(s, [e]) == t && Forced([e]) && AllOwn([e]) && BindsOf([e]) == []
  {
    Single(s, e);
    ForcedBinds([e]);
  }

  lemma Chain(s: Sys, es: seq<Event>, fs: seq<Event>)
    requires IsRun(s, es) && IsRun(Run(s, es), fs) && AllOwn(es) && AllOwn(fs)
    ensures IsRun(s, es + fs) && Run(s, es + fs) == Run(Run(s, es), fs)
    ensures AllOwn(es + fs) && BindsOf(es + fs) == BindsOf(es) + BindsOf(fs)
  {
    Append(s, es, fs);
    BindsAppend(es, fs);
  }

  lemma LastAttempt(s: Sys, a: string, n: nat, binds: seq<bool>) returns (es: seq<Event>)
    requires AtTry(s, a, n) && n + |binds| == MAX_PORT_BIND_RETRIES + 1
    requires binds == [] || s.pool.free == [] || binds[0]
    ensures IsRun(s, es) && Run(s, es) == Tried(s, a, binds) && AllOwn(es) && BindsOf(es) <= binds
  {
    TriedLast(s, a, n, binds);
    if binds == [] {
      es := [Inside(StartGivesUp)];
      OneStep(s, Inside(StartGivesUp), Tried(s, a, binds));
    } else if s.pool.free == [] {
      es := [Inside(StartExhausted)];
      OneStep(s, Inside(StartExhausted), Tried(s, a, binds));
    } else {
      es := BindRun(s, a, n);
    }
  }

  lemma FirstTried(s: Sys, a: string, n: nat, binds: seq<bool>) returns (t: Sys, m: nat, more: seq<bool>)
    requires AtTry(s, a, n) && n + |binds| == MAX_PORT_BIND_RETRIES + 1
    requires binds != [] && s.pool.free != [] && !binds[0]
    ensures t == Turned(s, a, n) && binds == [false] + more
    ensures AtTry(t, a, m) && m + |more| == MAX_PORT_BIND_RETRIES + 1 && Tried(t, a, more) == Tried(s, a, binds)
  {
    TriedNext(s, a, n, binds);
    t, m, more := Turned(s, a, n), n + 1, binds[1..];
  }

  /** A failed bind, after which there is one outcome less to come. */
  lemma FirstFails(s: Sys, a: string, n: nat, binds: seq<bool>)
    returns (t: Sys, m: nat, more: seq<bool>, es: seq<Event>)
    requires AtTry(s, a, n) && n + |binds| == MAX_PORT_BIND_RETRIES + 1
    requires binds != [] && s.pool.free != [] && !binds[0]
    ensures IsRun(s, es) && Run(s, es) == t && AllOwn(es) && BindsOf(es) == [false] && binds == [false] + more
    ensures AtTry(t, a, m) && m + |more| == MAX_PORT_BIND_RETRIES + 1 && Tried(t, a, more) == Tried(s, a, binds)
  {
    t, m, more := FirstTried(s, a, n, binds);
    es := FailRun(s, a, n);
  }

  lemma {:induction false} AttemptsRun(s: Sys, a: string, n: nat, binds: seq<bool>) returns (es: seq<Event>)
    requires AtTry(s, a, n) && n + |binds| == MAX_PORT_BIND_RETRIES + 1
    ensures IsRun(s, es) && Run(s, es) == Tried(s, a, binds) && AllOwn(es) && BindsOf(es) <= binds
    decreases |binds|
  {
    if binds == [] || s.pool.free == [] || binds[0] {
      es := LastAttempt(s, a, n, binds);
    } else {
      var t, m, more, fs := FirstFails(s, a, n, binds);
      var gs := AttemptsRun(t, a, m, more);
      Chain(s, fs, gs);
      es := fs + gs;
    }
  }

  lemma Starts(s: Sys, a: string, binds: seq<bool>) returns (t: Sys)
    requires s.inside == Some(StartWait(a)) && a !in s.servers && Idle(s) && P.Inv(s.pool)
    ensures Steps(s, Inside(StartServer), t) && AtTry(t, a, 1) && Tried(t, a, binds) == Tried(s, a, binds)
  {
    t := s.(amu := Some(P.Main), inside := Some(StartTry(a, 1)));
  }

  lemma StartRun(s: Sys, a: string, binds: seq<bool>) returns (es: seq<Event>)
    requires s.inside == Some(StartWait(a)) && a !in s.servers && |binds| == MAX_PORT_BIND_RETRIES
    requires Idle(s) && P.Inv(s.pool)
    ensures IsRun(s, es) && Run(s, es) == Tried(s, a, binds) && AllOwn(es) && BindsOf(es) <= binds
  {
    var t := Starts(s, a, binds);
    OneStep(s, Inside(StartServer), t);
    var fs := AttemptsRun(t, a, 1, binds);
    Chain(s, [Inside(StartServer)], fs);
    es := [Inside(StartServer)] + fs;
  }

  // ---- Register and Deregister ----

  /** The agent's connection retired and gone, and its server with it. */
  function Departed(s: Sys, a: string): Sys
    requires KnowsCurrent(s, a) && (a in s.servers ==> s.servers[a] < |s.instances|)
  {
    if a in s.agents then Forget(WithoutServer(Retire(s, a), a), a) else s
  }

  lemma InvKnows(s: Sys, a: string)
    requires Inv(s) && Idle(s) && !V.ViewOf(s.inside).Fresh?
    ensures ServersKnown(s) && KnowsCurrent(s, a)
    ensures a in s.servers ==>
      a in s.agents && s.managed && CurrentPort(s, a) != 0 &&
      s.instances[s.servers[a]].port in s.pool.taken && |s.pool.free| < P.Capacity(s.pool)
  {
    if a in s.servers {
      var x := s.instances[s.servers[a]];
      HeldPortsPositive(s);
      assert P.InRange(s.pool, x.port) && x.port !in s.pool.free;
      MissingLeavesRoom(s.pool.free, s.pool.lo, s.pool.hi, x.port);
    }
  }

  lemma EnterRun(s: Sys, call: Call) returns (es: seq<Event>)
    requires s.inside.None? && ((call.Register? || call.Deregister?) ==> KnowsCurrent(s, call.agent))
    ensures IsRun(s, es) && Run(s, es) == EnterCall(s.(waiting := s.waiting + multiset{call}), call)
    ensures es == [Arrive(call), Enter(call)]
  {
    var t := Apply(s, Arrive(call));
    Single(t, Enter(call));
    Then(s, Arrive(call), [Enter(call)]);
    es := [Arrive(call)] + [Enter(call)];
  }

  /** From the retirement of a connection to the rest of the call. */
  lemma RetireRun(s: Sys, a: string, k: Cont) returns (es: seq<Event>)
    requires Inv(s) && Idle(s) && !V.ViewOf(s.inside).Fresh?
    requires a in s.agents && KnowsCurrent(s, a) && ServersKnown(s)
    ensures IsRun(RetireThen(s, a, k), es) && Forced(es)
    ensures Run(RetireThen(s, a, k), es) == Resume(WithoutServer(Retire(s, a), a), k)
  {
    InvKnows(s, a);
    var t := RetireThen(s, a, k);
    if t.inside.value.StopWait? {
      es := StopRun(t, a, k);
      ResumeAnywhere(WithoutServer(Retire(s, a), a), t.inside, k);
    } else {
      Single(t, Inside(Return));
      ResumeAnywhere(Retire(s, a), Some(Resuming(k)), k);
      es := [Inside(Return)];
    }
  }

  ghost predicate OneEach(s: Sys) {
    forall a, b :: a in s.servers && b in s.servers && a != b ==> s.servers[a] != s.servers[b]
  }

  lemma WithoutServerFleet(s: Sys, a: string)
    requires ServersKnown(s) && OneEach(s)
    ensures ServersKnown(WithoutServer(s, a)) && a !in WithoutServer(s, a).servers
    ensures FleetOf(WithoutServer(s, a)) == A.Stopped(FleetOf(s), a)
  {
    if a in s.servers {
      var t := WithoutServer(s, a);
      assert forall b :: b in t.servers ==> t.instances[t.servers[b]] == s.instances[s.servers[b]];
      assert FleetOf(t).ports == FleetOf(s).ports - {a};
    }
  }

  lemma InvOneEach(s: Sys)
    requires Inv(s)
    ensures OneEach(s)
  {
  }

  lemma DepartedFleet(s: Sys, a: string)
    requires ServersKnown(s) && KnowsCurrent(s, a) && OneEach(s) && (a in s.servers ==> a in s.agents)
    ensures ServersKnown(Departed(s, a)) && FleetOf(Departed(s, a)) == A.Stopped(FleetOf(s), a)
    ensures a !in Departed(s, a).agents && a !in Departed(s, a).servers
  {
    WithoutServerFleet(s, a);
    var t := Departed(s, a);
    assert t.servers == WithoutServer(s, a).servers && t.instances == WithoutServer(s, a).instances;
  }

  lemma TriedFleet(s: Sys, a: string, binds: seq<bool>)
    requires ServersKnown(s) && a !in s.servers && |binds| == MAX_PORT_BIND_RETRIES
    ensures ServersKnown(Tried(s, a, binds))
    ensures FleetOf(Tried(s, a, binds)) == A.StartOutcome(FleetOf(s), a, binds).1
  {
    var t := Tried(s, a, binds);
    if s.pool.free == [] || A.Failures(binds) == |binds| {
      assert t.servers == s.servers && t.instances == s.instances;
    } else {
      assert forall b :: b in s.servers ==> t.instances[s.servers[b]] == s.instances[s.servers[b]];
      assert FleetOf(t).ports == FleetOf(s).ports[a := Q.Rotated(s.pool.free, A.Failures(binds))[0]];
    }
  }

  /** A call that has entered and then takes own steps to its return has run alone. */
  lemma IsAlone(s: Sys, call: Call, es: seq<Event>, fs: seq<Event>)
    requires es == [Arrive(call), Enter(call)] && IsRun(s, es) && IsRun(Run(s, es), fs) && AllOwn(fs)
    requires Run(Run(s, es), fs).inside.None?
    ensures Alone(s, call, es + fs) && BindsOf(es + fs) == BindsOf(fs) && StaleIn(es + fs) == StaleIn(fs)
  {
    Append(s, es, fs);
    assert (es + fs)[2..] == fs;
    assert (es + fs)[1..] == [Enter(call)] + fs && ([Enter(call)] + fs)[1..] == fs;
  }

  lemma DeregisterReturns(s: Sys, a: string) returns (es: seq<Event>)
    requires Inv(s) && Calm(s)
    ensures Alone(s, Deregister(a), es)
  {
    InvKnows(s, a);
    var call := Deregister(a);
    var fs := EnterRun(s, call);
    assert s.waiting + multiset{call} - multiset{call} == s.waiting;
    var gs: seq<Event> := [];
    if a in s.agents {
      gs := RetireRun(s, a, ThenForget(a));
    }
    IsAlone(s, call, fs, gs);
    es := fs + gs;
  }

  /** The registration's first half: the old connection is gone, and a server is wanted or not. */
  lemma LeaveRun(s: Sys, a: string) returns (es: seq<Event>, fs: seq<Event>)
    requires Inv(s) && Calm(s)
    ensures KnowsCurrent(s, a) && ServersKnown(s)
    ensures es == [Arrive(Register(a)), Enter(Register(a))] && IsRun(s, es) && IsRun(Run(s, es), fs) && Forced(fs)
    ensures Run(Run(s, es), fs) == BeginStart(Departed(s, a), a)
  {
    InvKnows(s, a);
    var call := Register(a);
    es := EnterRun(s, call);
    assert s.waiting + multiset{call} - multiset{call} == s.waiting;
    fs := [];
    if a in s.agents {
      fs := RetireRun(s, a, ThenStart(a));
    }
  }

  /** The same with a server wanted, and where it leads. */
  lemma LeaveTo(s: Sys, a: string) returns (es: seq<Event>, fs: seq<Event>, t: Sys)
    requires Inv(s) && Calm(s) && s.managed
    ensures es == [Arrive(Register(a)), Enter(Register(a))] && IsRun(s, es) && IsRun(Run(s, es), fs) && Forced(fs)
    ensures Run(Run(s, es), fs) == t
    ensures P.Inv(t.pool) && Idle(t) && t.inside == Some(StartWait(a)) && a !in t.servers
  {
    InvKnows(s, a);
    InvOneEach(s);
    DepartedFleet(s, a);
    es, fs := LeaveRun(s, a);
    t := BeginStart(Departed(s, a), a);
    RunInv(s, es);
    RunInv(Run(s, es), fs);
  }

  /** What follows the entry, with any outcomes of the binds, as far as they are needed. */
  lemma JoinRun(s: Sys, a: string, binds: seq<bool>) returns (es: seq<Event>, fs: seq<Event>)
    requires Inv(s) && Calm(s) && s.managed && |binds| == MAX_PORT_BIND_RETRIES
    ensures es == [Arrive(Register(a)), Enter(Register(a))] && IsRun(s, es) && IsRun(Run(s, es), fs)
    ensures AllOwn(fs) && BindsOf(fs) <= binds && Run(Run(s, es), fs).inside.None?
  {
    var gs, t;
    es, gs, t := LeaveTo(s, a);
    ForcedBinds(gs);
    var hs := StartRun(t, a, binds);
    Chain(Run(s, es), gs, hs);
    fs := gs + hs;
  }

  lemma RegisterReturns(s: Sys, a: string, binds: seq<bool>) returns (es: seq<Event>)
    requires Inv(s) && Calm(s) && |binds| == MAX_PORT_BIND_RETRIES
    ensures Alone(s, Register(a), es) && BindsOf(es) <= binds
  {
    var fs, gs;
    if s.managed {
      fs, gs := JoinRun(s, a, binds);
    } else {
      fs, gs := LeaveRun(s, a);
      ForcedBinds(gs);
    }
    IsAlone(s, Register(a), fs, gs);
    es := fs + gs;
  }

  // ---- the sweep ----

  /** Connection c is the current one of an agent among these. */
  predicate IsOneOf(s: Sys, c: nat, names: set<string>)
    requires c < |s.conns|
  {
    var a := s.conns[c].agent;
    a in names && a in s.agents && s.agents[a] == c
  }

  /** The connections of these agents are retired and gone and their servers stopped; nothing else has changed. */
  ghost predicate SweptTo(s: Sys, t: Sys, names: set<string>) {
    && t.agents == s.agents - names && ServersKnown(s) && ServersKnown(t)
    && FleetOf(t).ports == FleetOf(s).ports - names
    && |t.conns| == |s.conns|
    && forall c: nat :: c < |s.conns| ==> t.conns[c] == if IsOneOf(s, c, names) then R.RetiredConn(s.conns[c]) else s.conns[c]
  }

  lemma DepartedSwept(s: Sys, a: string)
    requires ServersKnown(s) && OneEach(s) && a in s.agents && s.agents[a] < |s.conns|
    requires s.conns[s.agents[a]].agent == a
    ensures SweptTo(s, Departed(s, a), {a})
  {
    DepartedFleet(s, a);
    assert FleetOf(Departed(s, a)).ports == FleetOf(s).ports - {a};
  }

  lemma SweptMore(s: Sys, t: Sys, u: Sys, first: set<string>, more: set<string>)
    requires SweptTo(s, t, first) && SweptTo(t, u, more) && first !! more
    ensures SweptTo(s, u, first + more)
  {
    assert s.agents - first - more == s.agents - (first + more);
    assert FleetOf(s).ports - first - more == FleetOf(s).ports - (first + more);
    forall c: nat | c < |s.conns|
      ensures u.conns[c] == if IsOneOf(s, c, first + more) then R.RetiredConn(s.conns[c]) else s.conns[c]
    {
      assert t.conns[c].agent == s.conns[c].agent;
    }
  }

  lemma NothingSwept(s: Sys, t: Sys)
    requires ServersKnown(s) && t == s.(inside := t.inside)
    ensures SweptTo(s, t, {})
  {
    assert s.agents - {} == s.agents;
    assert FleetOf(s).ports - {} == FleetOf(s).ports;
  }

  /** The visit of one stale agent, up to the next. */
  lemma VisitRun(s: Sys, todo: set<string>, a: string) returns (es: seq<Event>)
    requires Inv(s) && Idle(s) && s.inside == Some(Sweeping(todo)) && a in todo && a in s.agents
    ensures KnowsCurrent(s, a) && ServersKnown(s)
    ensures IsRun(s, es) && Run(s, es) == Departed(s, a).(inside := Some(Sweeping(todo - {a})))
    ensures AllOwn(es) && StaleIn(es) == {a}
  {
    InvKnows(s, a);
    var k := ThenSweep(a, todo - {a});
    var fs := RetireRun(s, a, k);
    assert Steps(s, Inside(SweepVisit(a, true)), RetireThen(s, a, k));
    Then(s, Inside(SweepVisit(a, true)), fs);
    es := [Inside(SweepVisit(a, true))] + fs;
    assert es[1..] == fs;
    ForcedStale(fs);
  }

  lemma {:induction false} ForcedStale(es: seq<Event>)
    requires Forced(es)
    ensures StaleIn(es) == {}
  {
    if es != [] {
      assert !IsChoice(es[0]);
      ForcedStale(es[1..]);
    }
  }

  lemma {:induction false} StaleAppend(es: seq<Event>, fs: seq<Event>)
    ensures StaleIn(es + fs) == StaleIn(es) + StaleIn(fs)
  {
    if es == [] {
      assert es + fs == fs;
    } else {
      assert (es + fs)[1..] == es[1..] + fs;
      StaleAppend(es[1..], fs);
    }
  }

  lemma SweepOne(s: Sys, todo: set<string>, a: string, stale: bool) returns (es: seq<Event>)
    requires Inv(s) && Idle(s) && s.inside == Some(Sweeping(todo)) && a in todo
    ensures IsRun(s, es) && Inv(Run(s, es)) && Idle(Run(s, es)) && Run(s, es).inside == Some(Sweeping(todo - {a}))
    ensures AllOwn(es) && StaleIn(es) == if stale then {a} else {}
  {
    InvKnows(s, a);
    if stale {
      es := VisitRun(s, todo, a);
    } else {
      Single(s, Inside(SweepVisit(a, false)));
      es := [Inside(SweepVisit(a, false))];
    }
    RunInv(s, es);
  }

  lemma SweepJoin(s: Sys, es: seq<Event>, fs: seq<Event>)
    requires IsRun(s, es) && IsRun(Run(s, es), fs) && AllOwn(es) && AllOwn(fs)
    ensures IsRun(s, es + fs) && Run(s, es + fs) == Run(Run(s, es), fs) && AllOwn(es + fs)
    ensures StaleIn(es + fs) == StaleIn(es) + StaleIn(fs)
  {
    StaleAppend(es, fs);
    Append(s, es, fs);
  }

  /** One agent of those left, and the state and the agents left after it. */
  lemma SweepNext(s: Sys, todo: set<string>, stale: set<string>) returns (t: Sys, left: set<string>, es: seq<Event>)
    requires Inv(s) && Idle(s) && s.inside == Some(Sweeping(todo)) && todo != {}
    ensures IsRun(s, es) && Run(s, es) == t && Inv(t) && Idle(t) && t.inside == Some(Sweeping(left)) && |left| < |todo|
    ensures AllOwn(es) && StaleIn(es) + left * stale == todo * stale
  {
    var a :| a in todo;
    left := todo - {a};
    es := SweepOne(s, todo, a, a in stale);
    t := Run(s, es);
  }

  lemma {:induction false} SweepLoop(s: Sys, todo: set<string>, stale: set<string>) returns (es: seq<Event>)
    requires Inv(s) && Idle(s) && s.inside == Some(Sweeping(todo))
    ensures IsRun(s, es) && Run(s, es).inside.None? && AllOwn(es) && StaleIn(es) == todo * stale
    decreases |todo|
  {
    if todo == {} {
      Single(s, Inside(SweepDone));
      es := [Inside(SweepDone)];
      ForcedStale(es);
    } else {
      var t, left, fs := SweepNext(s, todo, stale);
      var gs := SweepLoop(t, left, stale);
      SweepJoin(s, fs, gs);
      es := fs + gs;
    }
  }

  /** Whatever agents it finds stale. */
  lemma SweepReturns(s: Sys, stale: set<string>) returns (es: seq<Event>)
    requires Inv(s) && Calm(s)
    ensures Alone(s, Sweep, es) && StaleIn(es) == s.agents.Keys * stale
  {
    var fs := EnterRun(s, Sweep);
    assert s.waiting + multiset{Sweep} - multiset{Sweep} == s.waiting;
    RunInv(s, fs);
    var gs := SweepLoop(Run(s, fs), s.agents.Keys, stale);
    IsAlone(s, Sweep, fs, gs);
    es := fs + gs;
  }

  // ---- Stop ----

  lemma {:induction false} StopLoopRun(s: Sys, todo: set<string>) returns (es: seq<Event>)
    requires Inv(s) && Idle(s) && s.inside == Some(StopLoop(todo))
    ensures IsRun(s, es) && Inv(Run(s, es)) && Idle(Run(s, es)) && Run(s, es).inside == Some(StopLoop({}))
    ensures AllOwn(es)
    decreases |todo|
  {
    if todo == {} {
      es := [];
    } else {
      var a :| a in todo;
      es := StopVisitRun(s, todo, a);
      var fs := StopLoopRun(Run(s, es), todo - {a});
      Append(s, es, fs);
      es := es + fs;
    }
  }

  lemma StopVisitRun(s: Sys, todo: set<string>, a: string) returns (es: seq<Event>)
    requires Inv(s) && Idle(s) && s.inside == Some(StopLoop(todo)) && a in todo
    ensures IsRun(s, es) && Inv(Run(s, es)) && Idle(Run(s, es)) && Run(s, es).inside == Some(StopLoop(todo - {a}))
    ensures AllOwn(es)
  {
    InvKnows(s, a);
    var k := ThenStop(todo - {a});
    var fs := RetireRun(s, a, k);
    assert Steps(s, Inside(StopVisit(a)), RetireThen(s, a, k));
    Then(s, Inside(StopVisit(a)), fs);
    es := [Inside(StopVisit(a))] + fs;
    RunInv(s, es);
  }

  /** From the end of the loop to the return of Stop. */
  lemma ShutdownRun(s: Sys) returns (es: seq<Event>)
    requires Inv(s) && Idle(s) && s.inside == Some(StopLoop({}))
    ensures IsRun(s, es) && AllOwn(es) && Run(s, es).inside.None?
  {
    var t := Apply(s, Inside(StopLoopDone));
    if s.managed {
      StepInv(s, Inside(StopLoopDone));
      ShutdownSnapshotInv(t);
      var u := Apply(t, Inside(ShutdownSnapshot));
      Single(u, Inside(ShutdownDone));
      Then(t, Inside(ShutdownSnapshot), [Inside(ShutdownDone)]);
      Then(s, Inside(StopLoopDone), [Inside(ShutdownSnapshot)] + [Inside(ShutdownDone)]);
      es := [Inside(StopLoopDone)] + ([Inside(ShutdownSnapshot)] + [Inside(ShutdownDone)]);
    } else {
      Single(s, Inside(StopLoopDone));
      es := [Inside(StopLoopDone)];
    }
  }

  lemma StopReturns(s: Sys) returns (es: seq<Event>)
    requires Inv(s) && Calm(s)
    ensures Alone(s, Stop, es)
  {
    var fs := EnterRun(s, Stop);
    assert s.waiting + multiset{Stop} - multiset{Stop} == s.waiting;
    RunInv(s, fs);
    var t := Run(s, fs);
    var gs := StopLoopRun(t, s.agents.Keys);
    var hs := ShutdownRun(Run(t, gs));
    Append(t, gs, hs);
    IsAlone(s, Stop, fs, gs + hs);
    es := fs + (gs + hs);
  }

  // ---- a server that fails ----

  /** The failed goroutine has taken its own server out of the map and called Release. */
  predicate InFailure(s: Sys, i: nat) {
    && i < |s.instances| && s.instances[i].goroutine.FailRelease? && s.amu == Some(P.Goroutine(i))
    && s.pool.busy == map[P.Goroutine(i) := P.Releasing(s.instances[i].port, false)] && s.pool.mu.None?
    && s.instances[i].port in s.pool.taken && |s.pool.free| < P.Capacity(s.pool)
  }

  function AfterFailure(s: Sys, i: nat): Sys
    requires i < |s.instances|
  {
    s.(pool := Returned(s.pool, s.instances[i].port), amu := None,
       instances := s.instances[i := MarkReleased(s.instances[i]).(goroutine := Gone)])
  }

  function FailureLocked(s: Sys, i: nat): Sys
    requires i < |s.instances|
  {
    s.(pool := s.pool.(mu := Some(P.Goroutine(i)),
                       busy := map[P.Goroutine(i) := P.Releasing(s.instances[i].port, true)]))
  }

  function FailureDeleted(s: Sys, i: nat): Sys
    requires i < |s.instances|
  {
    var port := s.instances[i].port;
    s.(pool := s.pool.(taken := s.pool.taken - {port}, busy := map[P.Goroutine(i) := P.Requeueing(port)]),
       instances := s.instances[i := MarkReleased(s.instances[i]).(goroutine := FailRequeue)])
  }

  lemma FailureLocks(s: Sys, i: nat)
    requires InFailure(s, i)
    ensures Steps(s, PoolLock(P.Goroutine(i)), FailureLocked(s, i))
  {
  }

  lemma FailureDeletes(s: Sys, i: nat)
    requires InFailure(s, i)
    ensures Steps(FailureLocked(s, i), PoolDelete(P.Goroutine(i)), FailureDeleted(s, i))
  {
  }

  lemma FailureSends(s: Sys, i: nat)
    requires InFailure(s, i)
    ensures Steps(FailureDeleted(s, i), PoolSend(P.Goroutine(i)), AfterFailure(s, i))
  {
    assert FailureDeleted(s, i).pool.busy - {P.Goroutine(i)} == map[];
  }

  lemma FailureReleases(s: Sys, i: nat) returns (es: seq<Event>)
    requires InFailure(s, i)
    ensures IsRun(s, es) && Run(s, es) == AfterFailure(s, i) && AllOf(es, i)
  {
    FailureLocks(s, i);
    FailureDeletes(s, i);
    FailureSends(s, i);
    es := Three(s, PoolLock(P.Goroutine(i)), FailureLocked(s, i), PoolDelete(P.Goroutine(i)), FailureDeleted(s, i),
                PoolSend(P.Goroutine(i)), AfterFailure(s, i));
  }

  /** The instance's server as the failed goroutine leaves it. */
  function Failed(s: Sys, i: nat): Sys
    requires i < |s.instances|
  {
    var x := s.instances[i];
    if x.agent in s.servers && s.servers[x.agent] == i then
      var t := WithoutServer(s, x.agent);
      t.(instances := t.instances[i := t.instances[i].(goroutine := Gone)])
    else
      s.(instances := s.instances[i := x.(goroutine := Gone)])
  }

  function Cleaning(s: Sys, i: nat): Sys
    requires i < |s.instances|
  {
    var x := s.instances[i];
    s.(servers := s.servers - {x.agent},
       instances := s.instances[i := x.(stage := Closing, goroutine := FailRelease)],
       amu := Some(P.Goroutine(i)),
       pool := s.pool.(busy := map[P.Goroutine(i) := P.Releasing(x.port, false)]))
  }

  lemma CleanUpBegins(s: Sys, i: nat)
    requires Idle(s) && i < |s.instances| && s.instances[i].goroutine.Serving?
    requires s.instances[i].agent in s.servers && s.servers[s.instances[i].agent] == i
    ensures Steps(Apply(s, ServeFails(i)), CleanUp(i), Cleaning(s, i))
  {
    var x := s.instances[i];
    var s1 := s.(instances := s.instances[i := x.(goroutine := FailWait)]);
    assert Steps(s, ServeFails(i), s1);
    assert s1.instances[i := x.(stage := Closing, goroutine := FailRelease)] == Cleaning(s, i).instances;
  }

  lemma CleanUpEnds(s: Sys, i: nat)
    requires Idle(s) && i < |s.instances|
    requires s.instances[i].agent in s.servers && s.servers[s.instances[i].agent] == i
    ensures AfterFailure(Cleaning(s, i), i) == Failed(s, i)
  {
    assert AfterFailure(Cleaning(s, i), i).instances == Failed(s, i).instances;
  }

  lemma GoneFleet(s: Sys, i: nat)
    requires ServersKnown(s) && i < |s.instances|
    ensures var t := s.(instances := s.instances[i := s.instances[i].(goroutine := Gone)]);
      ServersKnown(t) && FleetOf(t) == FleetOf(s)
  {
    var t := s.(instances := s.instances[i := s.instances[i].(goroutine := Gone)]);
    assert FleetOf(t).ports == FleetOf(s).ports;
  }

  predicate IsLive(s: Sys, i: nat) {
    i < |s.instances| && s.instances[i].agent in s.servers && s.servers[s.instances[i].agent] == i
  }

  lemma FailedFleet(s: Sys, i: nat)
    requires ServersKnown(s) && OneEach(s) && i < |s.instances|
    ensures ServersKnown(Failed(s, i))
    ensures FleetOf(Failed(s, i)) == if IsLive(s, i) then A.Stopped(FleetOf(s), s.instances[i].agent) else FleetOf(s)
  {
    var a := s.instances[i].agent;
    if IsLive(s, i) {
      WithoutServerFleet(s, a);
      GoneFleet(WithoutServer(s, a), i);
    } else {
      GoneFleet(s, i);
    }
  }

  lemma LiveFailureRun(s: Sys, i: nat) returns (es: seq<Event>)
    requires Idle(s) && IsLive(s, i) && s.instances[i].goroutine.Serving?
    requires s.instances[i].port in s.pool.taken && |s.pool.free| < P.Capacity(s.pool)
    ensures IsRun(Apply(s, ServeFails(i)), es) && Run(Apply(s, ServeFails(i)), es) == Failed(s, i)
    ensures es != [] && es[0] == CleanUp(i) && AllOf(es[1..], i)
  {
    CleanUpBegins(s, i);
    CleanUpEnds(s, i);
    es := FailureReleases(Cleaning(s, i), i);
    Then(Apply(s, ServeFails(i)), CleanUp(i), es);
    es := [CleanUp(i)] + es;
  }

  lemma StaleFailureRun(s: Sys, i: nat) returns (es: seq<Event>)
    requires Idle(s) && i < |s.instances| && !IsLive(s, i) && s.instances[i].goroutine.Serving?
    ensures IsRun(Apply(s, ServeFails(i)), es) && Run(Apply(s, ServeFails(i)), es) == Failed(s, i)
    ensures es != [] && es[0] == CleanUp(i) && AllOf(es[1..], i)
  {
    var s1 := Apply(s, ServeFails(i));
    assert s1.instances[i := s1.instances[i].(goroutine := Gone)] == Failed(s, i).instances;
    Single(s1, CleanUp(i));
    es := [CleanUp(i)];
  }

  /** A step of the failed server's goroutine inside Release. */
  predicate OwnOf(e: Event, i: nat) {
    (e.PoolLock? || e.PoolDelete? || e.PoolSend?) && e.c == P.Goroutine(i)
  }

  ghost predicate AllOf(es: seq<Event>, i: nat) {
    forall k :: 0 <= k < |es| ==> OwnOf(es[k], i)
  }

  /** The server fails and its goroutine cleans up to its end, and nobody else moves. */
  ghost predicate FailsAlone(s: Sys, i: nat, es: seq<Event>) {
    && IsRun(s, es) && |es| >= 2 && es[0] == ServeFails(i) && es[1] == CleanUp(i) && AllOf(es[2..], i)
    && i < |Run(s, es).instances| && Run(s, es).instances[i].goroutine.Gone?
  }

  lemma FailureReturns(s: Sys, i: nat) returns (es: seq<Event>)
    requires Inv(s) && Calm(s) && i < |s.instances| && s.instances[i].goroutine.Serving?
    ensures FailsAlone(s, i, es)
  {
    InvKnows(s, s.instances[i].agent);
    var fs: seq<Event>;
    if IsLive(s, i) {
      fs := LiveFailureRun(s, i);
    } else {
      fs := StaleFailureRun(s, i);
    }
    Then(s, ServeFails(i), fs);
    es := [ServeFails(i)] + fs;
    assert es[2..] == fs[1..];
  }
}
