/**
 The two views of the system agree: every run of a call in the concurrent system without interruption does to
 servers, ports and connections what the same call of the classes does.
 */
module CallsAlone {
  import opened Basics
  import P = PoolSteps
  import opened ThreeLayer
  import opened ThreeLayerInv
  import A = AgentServers
  import R = RegistryInv
  import V = ServersInv
  import T = ThreeLayerTheorems
  import opened Uninterrupted

  // ---- a call alone has no choice but its choices ----

  /** With nobody inside there is no such step. */
  lemma NoneMoves(s: Sys, e: Event)
    requires MutexInv(s) && s.inside.None? && Own(e)
    ensures !Enabled(s, e)
  {
  }

  /** Two steps that the call inside can take are the same, unless both are choices. */
  lemma OneNext(s: Sys, e: Event, f: Event)
    requires MutexInv(s) && Own(e) && Own(f) && Enabled(s, e) && Enabled(s, f)
    ensures e == f || (IsChoice(e) && IsChoice(f))
  {
  }

  /** A run of own steps to the return of the call. */
  ghost predicate RunsOut(s: Sys, fs: seq<Event>) {
    IsRun(s, fs) && AllOwn(fs) && Run(s, fs).inside.None?
  }

  lemma SameFirst(s: Sys, e: Event, fs: seq<Event>)
    requires Inv(s) && Enabled(s, e) && Own(e) && !IsChoice(e) && RunsOut(s, fs)
    ensures fs != [] && fs[0] == e && Inv(Apply(s, e)) && RunsOut(Apply(s, e), fs[1..])
    ensures Run(Apply(s, e), fs[1..]) == Run(s, fs)
  {
    if fs == [] {
      NoneMoves(s, e);
    }
    OneNext(s, e, fs[0]);
    StepInv(s, e);
  }

  /** A stretch without choices, and a run to the return of the call, from the same state. */
  ghost predicate BothFrom(s: Sys, es: seq<Event>, fs: seq<Event>) {
    Inv(s) && IsRun(s, es) && Forced(es) && RunsOut(s, fs)
  }

  lemma FollowsOne(s: Sys, es: seq<Event>, fs: seq<Event>) returns (t: Sys, e: Event, es': seq<Event>, fs': seq<Event>)
    requires BothFrom(s, es, fs) && es != []
    ensures es == [e] + es' && fs == [e] + fs' && BothFrom(t, es', fs')
    ensures Run(t, es') == Run(s, es) && Run(t, fs') == Run(s, fs)
  {
    SameFirst(s, es[0], fs);
    t, e, es', fs' := Apply(s, es[0]), es[0], es[1..], fs[1..];
  }

  lemma Associate(e: Event, es: seq<Event>, gs: seq<Event>)
    ensures [e] + (es + gs) == ([e] + es) + gs
  {
  }

  /** It starts with any stretch of steps that leaves no choice. */
  lemma {:induction false} Follows(s: Sys, es: seq<Event>, fs: seq<Event>) returns (gs: seq<Event>)
    requires BothFrom(s, es, fs)
    ensures fs == es + gs && RunsOut(Run(s, es), gs) && Run(Run(s, es), gs) == Run(s, fs)
    decreases |es|
  {
    if es == [] {
      gs := fs;
    } else {
      var t, e, es', fs' := FollowsOne(s, es, fs);
      gs := Follows(t, es', fs');
      Associate(e, es', gs);
    }
  }

  lemma Ends(s: Sys, fs: seq<Event>)
    requires Inv(s) && s.inside.None? && RunsOut(s, fs)
    ensures fs == []
  {
    if fs != [] {
      NoneMoves(s, fs[0]);
    }
  }

  /** Its first step, where the call is at a choice, is one. */
  lemma Chooses(s: Sys, e: Event, fs: seq<Event>)
    requires Inv(s) && Enabled(s, e) && IsChoice(e) && RunsOut(s, fs)
    ensures fs != [] && IsChoice(fs[0]) && Enabled(s, fs[0])
    ensures Inv(Apply(s, fs[0])) && RunsOut(Apply(s, fs[0]), fs[1..])
    ensures Run(Apply(s, fs[0]), fs[1..]) == Run(s, fs)
  {
    if fs == [] {
      NoneMoves(s, e);
    }
    OneNext(s, e, fs[0]);
    StepInv(s, fs[0]);
  }

  // ---- StartAgentServer ----

  lemma BindsFirst(es: seq<Event>, fs: seq<Event>)
    requires Forced(es)
    ensures BindsOf(es + fs) == BindsOf(fs)
  {
    ForcedBinds(es);
    BindsAppend(es, fs);
  }

  /** The outcome of this attempt is the first of the binds. */
  lemma OneAttempt(s: Sys, a: string, n: nat, fs: seq<Event>) returns (ok: bool, rest: seq<Event>)
    requires Inv(s) && AtTry(s, a, n) && n <= MAX_PORT_BIND_RETRIES && s.pool.free != [] && RunsOut(s, fs)
    ensures BindsOf(fs) == [ok] + BindsOf(rest)
    ensures var t := Taken(s, a, n);
      && Enabled(t, Inside(Bind(ok))) && RunsOut(Apply(t, Inside(Bind(ok))), rest)
      && Run(Apply(t, Inside(Bind(ok))), rest) == Run(s, fs)
  {
    var es := TakeRun(s, a, n);
    var gs := Follows(s, es, fs);
    BindsFirst(es, gs);
    RunInv(s, es);
    BindSucceeds(s, a, n);
    Chooses(Taken(s, a, n), Inside(Bind(true)), gs);
    ok, rest := gs[0].step.ok, gs[1..];
  }

  lemma BindKeeps(s: Sys, a: string, n: nat, ok: bool)
    requires Inv(s) && AtTry(s, a, n) && n <= MAX_PORT_BIND_RETRIES && s.pool.free != []
    requires Enabled(Taken(s, a, n), Inside(Bind(ok)))
    ensures Inv(Apply(Taken(s, a, n), Inside(Bind(ok))))
  {
    var es := TakeRun(s, a, n);
    RunInv(s, es);
    StepInv(Taken(s, a, n), Inside(Bind(ok)));
  }

  lemma AfterBind(s: Sys, a: string, n: nat, rest: seq<Event>)
    requires Inv(s) && AtTry(s, a, n) && n <= MAX_PORT_BIND_RETRIES && s.pool.free != []
    requires Enabled(Taken(s, a, n), Inside(Bind(true))) && RunsOut(Apply(Taken(s, a, n), Inside(Bind(true))), rest)
    ensures Run(Apply(Taken(s, a, n), Inside(Bind(true))), rest) == Bound(s, a)
  {
    BindKeeps(s, a, n, true);
    BindSucceeds(s, a, n);
    var t := Apply(Taken(s, a, n), Inside(Bind(true)));
    SameFirst(t, Inside(Finish), rest);
    Ends(Bound(s, a), rest[1..]);
  }

  lemma AfterNoBind(s: Sys, a: string, n: nat, rest: seq<Event>) returns (gs: seq<Event>)
    requires Inv(s) && AtTry(s, a, n) && n <= MAX_PORT_BIND_RETRIES && s.pool.free != []
    requires Enabled(Taken(s, a, n), Inside(Bind(false))) && RunsOut(Apply(Taken(s, a, n), Inside(Bind(false))), rest)
    ensures RunsOut(Turned(s, a, n), gs) && BindsOf(gs) == BindsOf(rest)
    ensures Run(Turned(s, a, n), gs) == Run(Apply(Taken(s, a, n), Inside(Bind(false))), rest)
  {
    BindKeeps(s, a, n, false);
    BindFails(s, a, n);
    AfterFailedBind(s, a, n);
    var es := ReleaseRun(Unbound(s, a, n), s.pool.free[0]);
    gs := Follows(Unbound(s, a, n), es, rest);
    BindsFirst(es, gs);
  }

  /** s is reached from a state in which the invariant holds. */
  ghost predicate From(root: Sys, s: Sys) {
    Inv(root) && exists es :: IsRun(root, es) && Run(root, es) == s
  }

  lemma FromInv(root: Sys, s: Sys)
    requires From(root, s)
    ensures Inv(s)
  {
    var es :| IsRun(root, es) && Run(root, es) == s;
    RunInv(root, es);
  }

  lemma FromItself(s: Sys)
    requires Inv(s)
    ensures From(s, s)
  {
    assert IsRun(s, []) && Run(s, []) == s;
  }

  lemma FromMore(root: Sys, s: Sys, fs: seq<Event>)
    requires From(root, s) && IsRun(s, fs)
    ensures From(root, Run(s, fs))
  {
    var es :| IsRun(root, es) && Run(root, es) == s;
    Append(root, es, fs);
  }

  lemma TurnFrom(root: Sys, s: Sys, a: string, n: nat)
    requires From(root, s) && AtStartTry(s, a, n) && n <= MAX_PORT_BIND_RETRIES && s.pool.free != []
    ensures From(root, Turned(s, a, n))
  {
    FromInv(root, s);
    var es := FailRun(s, a, n);
    FromMore(root, s, es);
  }

  /** A run to the return of the call from the start of attempt n, with these outcomes left. */
  ghost predicate Trying(root: Sys, s: Sys, a: string, n: nat, binds: seq<bool>, fs: seq<Event>) {
    && From(root, s) && AtStartTry(s, a, n) && n + |binds| == MAX_PORT_BIND_RETRIES + 1
    && RunsOut(s, fs) && BindsOf(fs) <= binds
  }

  lemma NoAttempt(root: Sys, s: Sys, a: string, n: nat, binds: seq<bool>, fs: seq<Event>)
    requires Trying(root, s, a, n, binds, fs) && (binds == [] || s.pool.free == [])
    ensures Run(s, fs) == Tried(s, a, binds)
  {
    FromInv(root, s);
    TriedLast(s, a, n, binds);
    SameFirst(s, if binds == [] then Inside(StartGivesUp) else Inside(StartExhausted), fs);
    Ends(Tried(s, a, binds), fs[1..]);
  }

  lemma NextAttempt(root: Sys, s: Sys, a: string, n: nat, binds: seq<bool>, fs: seq<Event>) returns (gs: seq<Event>)
    requires Trying(root, s, a, n, binds, fs) && binds != [] && s.pool.free != []
    ensures binds[0] ==> Run(s, fs) == Bound(s, a)
    ensures !binds[0] ==>
      RunsOut(Turned(s, a, n), gs) && BindsOf(gs) <= binds[1..] && Run(Turned(s, a, n), gs) == Run(s, fs)
  {
    FromInv(root, s);
    var ok, rest := OneAttempt(s, a, n, fs);
    assert ok == BindsOf(fs)[0] == binds[0];
    assert BindsOf(rest) == BindsOf(fs)[1..];
    if ok {
      AfterBind(s, a, n, rest);
      gs := [];
    } else {
      gs := AfterNoBind(s, a, n, rest);
    }
  }

  lemma TurnsTrying(root: Sys, s: Sys, a: string, n: nat, binds: seq<bool>, fs: seq<Event>) returns (gs: seq<Event>)
    requires Trying(root, s, a, n, binds, fs) && binds != [] && s.pool.free != [] && !binds[0]
    ensures Trying(root, Turned(s, a, n), a, n + 1, binds[1..], gs) && Run(Turned(s, a, n), gs) == Run(s, fs)
  {
    gs := NextAttempt(root, s, a, n, binds, fs);
    TurnFrom(root, s, a, n);
  }

  lemma AttemptFails(root: Sys, s: Sys, a: string, n: nat, binds: seq<bool>, fs: seq<Event>)
    returns (t: Sys, m: nat, more: seq<bool>, gs: seq<Event>)
    requires Trying(root, s, a, n, binds, fs) && binds != [] && s.pool.free != [] && !binds[0]
    ensures Trying(root, t, a, m, more, gs) && |more| < |binds|
    ensures Run(t, gs) == Run(s, fs) && Tried(t, a, more) == Tried(s, a, binds)
  {
    gs := TurnsTrying(root, s, a, n, binds, fs);
    t, m, more := Turned(s, a, n), n + 1, binds[1..];
    TurnedTried(root, s, a, n, binds, fs);
  }

  lemma TurnedTried(root: Sys, s: Sys, a: string, n: nat, binds: seq<bool>, fs: seq<Event>)
    requires Trying(root, s, a, n, binds, fs) && binds != [] && s.pool.free != [] && !binds[0]
    ensures Tried(Turned(s, a, n), a, binds[1..]) == Tried(s, a, binds)
  {
    FromInv(root, s);
    TriedNext(s, a, n, binds);
  }

  lemma AttemptSucceeds(root: Sys, s: Sys, a: string, n: nat, binds: seq<bool>, fs: seq<Event>)
    requires Trying(root, s, a, n, binds, fs) && binds != [] && s.pool.free != [] && binds[0]
    ensures Run(s, fs) == Tried(s, a, binds)
  {
    var gs := NextAttempt(root, s, a, n, binds, fs);
    FromInv(root, s);
    TriedLast(s, a, n, binds);
  }

  /** Whatever the binds of the run came to, it ends as they say. */
  lemma {:induction false} AttemptsEnd(root: Sys, s: Sys, a: string, n: nat, binds: seq<bool>, fs: seq<Event>)
    requires Trying(root, s, a, n, binds, fs)
    ensures Run(s, fs) == Tried(s, a, binds)
    decreases |binds|
  {
    if binds == [] || s.pool.free == [] {
      NoAttempt(root, s, a, n, binds, fs);
    } else if binds[0] {
      AttemptSucceeds(root, s, a, n, binds, fs);
    } else {
      var t, m, more, gs := AttemptFails(root, s, a, n, binds, fs);
      AttemptsEnd(root, t, a, m, more, gs);
    }
  }

  // ---- Register and Deregister ----

  /** After the arrival and the entry the rest is the call's own. */
  lemma Enters(s: Sys, call: Call, es: seq<Event>)
    requires Inv(s) && Calm(s) && Alone(s, call, es)
    requires (call.Register? || call.Deregister?) ==> KnowsCurrent(s, call.agent)
    ensures var t := EnterCall(s.(waiting := s.waiting + multiset{call}), call);
      Inv(t) && RunsOut(t, es[2..]) && Run(t, es[2..]) == Run(s, es)
  {
    var fs := EnterRun(s, call);
    RunInv(s, fs);
    assert es == fs + es[2..];
    Parts(s, fs, es[2..]);
  }

  lemma {:induction false} Parts(s: Sys, es: seq<Event>, fs: seq<Event>)
    requires IsRun(s, es + fs) && IsRun(s, es)
    ensures IsRun(Run(s, es), fs) && Run(Run(s, es), fs) == Run(s, es + fs)
    decreases |es|
  {
    if es == [] {
      assert es + fs == fs;
    } else {
      assert (es + fs)[1..] == es[1..] + fs;
      Parts(Apply(s, es[0]), es[1..], fs);
    }
  }

  /** The call retires the agent's connection and goes on as its continuation says. */
  lemma Retires(s: Sys, a: string, k: Cont, fs: seq<Event>) returns (es: seq<Event>, gs: seq<Event>)
    requires Inv(s) && Idle(s) && !V.ViewOf(s.inside).Fresh? && a in s.agents && KnowsCurrent(s, a) && ServersKnown(s)
    requires Inv(RetireThen(s, a, k)) && RunsOut(RetireThen(s, a, k), fs)
    ensures Forced(es) && fs == es + gs && BindsOf(gs) == BindsOf(fs)
    ensures var t := Resume(WithoutServer(Retire(s, a), a), k);
      Inv(t) && RunsOut(t, gs) && Run(t, gs) == Run(RetireThen(s, a, k), fs)
  {
    es := RetireRun(s, a, k);
    gs := Follows(RetireThen(s, a, k), es, fs);
    RunInv(RetireThen(s, a, k), es);
    BindsFirst(es, gs);
  }

  /** Every uninterrupted removal stops the server and puts back the port that the classes' Deregister does. */
  lemma DeregisterAlone(s: Sys, a: string, es: seq<Event>)
    requires Inv(s) && Calm(s) && Alone(s, Deregister(a), es)
    ensures KnowsCurrent(s, a) && ServersKnown(s) && Run(s, es) == Departed(s, a)
    ensures ServersKnown(Run(s, es)) && FleetOf(Run(s, es)) == A.Stopped(FleetOf(s), a)
  {
    InvKnows(s, a);
    InvOneEach(s);
    DepartedFleet(s, a);
    Enters(s, Deregister(a), es);
    assert s.waiting + multiset{Deregister(a)} - multiset{Deregister(a)} == s.waiting;
    if a in s.agents {
      var _, gs := Retires(s, a, ThenForget(a), es[2..]);
      Ends(Departed(s, a), gs);
    } else {
      Ends(s, es[2..]);
    }
  }

  /** The registration's first half. */
  lemma Leaves(s: Sys, a: string, es: seq<Event>) returns (gs: seq<Event>)
    requires Inv(s) && Calm(s) && Alone(s, Register(a), es)
    ensures KnowsCurrent(s, a) && ServersKnown(s)
    ensures var t := BeginStart(Departed(s, a), a);
      Inv(t) && RunsOut(t, gs) && Run(t, gs) == Run(s, es) && BindsOf(gs) == BindsOf(es)
  {
    InvKnows(s, a);
    Enters(s, Register(a), es);
    assert s.waiting + multiset{Register(a)} - multiset{Register(a)} == s.waiting;
    assert es[1..][1..] == es[2..];
    if a in s.agents {
      var _, rest := Retires(s, a, ThenStart(a), es[2..]);
      gs := rest;
    } else {
      gs := es[2..];
    }
  }

  lemma StartEnters(s: Sys, a: string, binds: seq<bool>, fs: seq<Event>) returns (t: Sys, gs: seq<Event>)
    requires Inv(s) && s.inside == Some(StartWait(a)) && a !in s.servers && |binds| == MAX_PORT_BIND_RETRIES
    requires Idle(s) && RunsOut(s, fs) && BindsOf(fs) <= binds
    ensures Trying(t, t, a, 1, binds, gs) && Run(t, gs) == Run(s, fs) && Tried(t, a, binds) == Tried(s, a, binds)
  {
    t := Starts(s, a, binds);
    SameFirst(s, Inside(StartServer), fs);
    FromItself(t);
    gs := fs[1..];
  }

  lemma StartEnds(s: Sys, a: string, binds: seq<bool>, fs: seq<Event>)
    requires Inv(s) && s.inside == Some(StartWait(a)) && a !in s.servers && |binds| == MAX_PORT_BIND_RETRIES
    requires Idle(s) && RunsOut(s, fs) && BindsOf(fs) <= binds
    ensures Run(s, fs) == Tried(s, a, binds)
  {
    var t, gs := StartEnters(s, a, binds, fs);
    AttemptsEnd(t, t, a, 1, binds, gs);
  }

  /**
   Every uninterrupted registration ends as the classes' Register does for the outcomes its binds had: same
   servers, same queue of free ports; the old connection retired, the new one current on the port that was
   bound.
   */
  lemma RegisterAlone(s: Sys, a: string, binds: seq<bool>, es: seq<Event>)
    requires Inv(s) && Calm(s) && s.managed && |binds| == MAX_PORT_BIND_RETRIES
    requires Alone(s, Register(a), es) && BindsOf(es) <= binds
    ensures KnowsCurrent(s, a) && ServersKnown(s) && Run(s, es) == Tried(Departed(s, a), a, binds)
    ensures ServersKnown(Run(s, es)) && FleetOf(Run(s, es)) == A.StartOutcome(A.Stopped(FleetOf(s), a), a, binds).1
  {
    InvKnows(s, a);
    InvOneEach(s);
    DepartedFleet(s, a);
    TriedFleet(Departed(s, a), a, binds);
    var gs := Leaves(s, a, es);
    StartEnds(BeginStart(Departed(s, a), a), a, binds, gs);
  }

  /** Without a server manager the new connection has port 0 and there is no server before or after. */
  lemma RegisterAloneUnmanaged(s: Sys, a: string, es: seq<Event>)
    requires Inv(s) && Calm(s) && !s.managed && Alone(s, Register(a), es)
    ensures KnowsCurrent(s, a) && ServersKnown(s) && Run(s, es) == AddConnection(Departed(s, a), a, 0)
    ensures Run(s, es).servers == s.servers == map[] && Run(s, es).pool == s.pool
  {
    var gs := Leaves(s, a, es);
    Ends(AddConnection(Departed(s, a), a, 0), gs);
    assert forall b :: b !in s.servers;
  }

  // ---- the sweep ----

  lemma {:induction false} ForcedVisits(es: seq<Event>, fs: seq<Event>)
    requires Forced(es)
    ensures StaleIn(es + fs) == StaleIn(fs) && VisitedIn(es + fs) == VisitedIn(fs)
  {
    if es == [] {
      assert es + fs == fs;
    } else {
      assert !IsChoice(es[0]);
      assert (es + fs)[1..] == es[1..] + fs;
      ForcedVisits(es[1..], fs);
    }
  }

  /** The next agent the loop looks at, in whatever order. */
  lemma NextVisit(s: Sys, todo: set<string>, fs: seq<Event>)
    requires Inv(s) && s.inside == Some(Sweeping(todo)) && todo != {} && RunsOut(s, fs)
    ensures fs != [] && fs[0].Inside? && fs[0].step.SweepVisit? && fs[0].step.agent in todo && Enabled(s, fs[0])
    ensures RunsOut(Apply(s, fs[0]), fs[1..]) && Run(Apply(s, fs[0]), fs[1..]) == Run(s, fs)
  {
    var x :| x in todo;
    Chooses(s, Inside(SweepVisit(x, false)), fs);
  }

  /** s goes to t with one visit, and the rest of the run is gs. */
  ghost predicate Visits(root: Sys, s: Sys, t: Sys, todo: set<string>, a: string, stale: bool,
                         fs: seq<Event>, gs: seq<Event>)
    requires IsRun(s, fs)
  {
    && Looping(root, t, todo - {a}, gs) && Run(t, gs) == Run(s, fs) && SweptTo(s, t, if stale then {a} else {})
    && StaleIn(fs) == (if stale then {a} else {}) + StaleIn(gs) && VisitedIn(fs) == {a} + VisitedIn(gs)
  }

  /** A run to the return of the sweep, with these agents left. */
  ghost predicate Looping(root: Sys, s: Sys, todo: set<string>, fs: seq<Event>) {
    From(root, s) && Idle(s) && s.inside == Some(Sweeping(todo)) && RunsOut(s, fs)
  }

  lemma VisitRetires(s: Sys, todo: set<string>, a: string, fs: seq<Event>) returns (gs: seq<Event>)
    requires Inv(s) && Idle(s) && s.inside == Some(Sweeping(todo)) && a in todo && Enabled(s, Inside(SweepVisit(a, true)))
    requires RunsOut(Apply(s, Inside(SweepVisit(a, true))), fs)
    ensures KnowsCurrent(s, a) && ServersKnown(s)
    ensures var t := Departed(s, a).(inside := Some(Sweeping(todo - {a})));
      RunsOut(t, gs) && Run(t, gs) == Run(Apply(s, Inside(SweepVisit(a, true))), fs)
    ensures StaleIn(fs) == StaleIn(gs) && VisitedIn(fs) == VisitedIn(gs)
  {
    InvKnows(s, a);
    StepInv(s, Inside(SweepVisit(a, true)));
    var es, rest := Retires(s, a, ThenSweep(a, todo - {a}), fs);
    ForcedVisits(es, rest);
    gs := rest;
  }

  lemma DepartedFrom(root: Sys, s: Sys, todo: set<string>, a: string)
    requires From(root, s) && Idle(s) && s.inside == Some(Sweeping(todo)) && a in todo && a in s.agents
    ensures KnowsCurrent(s, a) && ServersKnown(s)
    ensures From(root, Departed(s, a).(inside := Some(Sweeping(todo - {a}))))
    ensures SweptTo(s, Departed(s, a).(inside := Some(Sweeping(todo - {a}))), {a})
  {
    FromInv(root, s);
    var es := VisitRun(s, todo, a);
    FromMore(root, s, es);
    InvOneEach(s);
    DepartedSwept(s, a);
  }

  lemma StaleVisit(root: Sys, s: Sys, todo: set<string>, a: string, fs: seq<Event>) returns (t: Sys, gs: seq<Event>)
    requires Looping(root, s, todo, fs) && fs != [] && fs[0] == Inside(SweepVisit(a, true)) && a in todo
    requires RunsOut(Apply(s, fs[0]), fs[1..]) && Run(Apply(s, fs[0]), fs[1..]) == Run(s, fs)
    ensures Visits(root, s, t, todo, a, true, fs, gs)
  {
    FromInv(root, s);
    gs := VisitRetires(s, todo, a, fs[1..]);
    DepartedFrom(root, s, todo, a);
    t := Departed(s, a).(inside := Some(Sweeping(todo - {a})));
  }

  lemma FreshVisit(root: Sys, s: Sys, todo: set<string>, a: string, fs: seq<Event>) returns (t: Sys, gs: seq<Event>)
    requires Looping(root, s, todo, fs) && fs != [] && fs[0] == Inside(SweepVisit(a, false)) && a in todo
    requires RunsOut(Apply(s, fs[0]), fs[1..]) && Run(Apply(s, fs[0]), fs[1..]) == Run(s, fs)
    ensures Visits(root, s, t, todo, a, false, fs, gs)
  {
    FromInv(root, s);
    InvKnows(s, a);
    t, gs := Apply(s, fs[0]), fs[1..];
    Single(s, fs[0]);
    FromMore(root, s, [fs[0]]);
    NothingSwept(s, t);
  }

  lemma OneVisit(root: Sys, s: Sys, todo: set<string>, fs: seq<Event>)
    returns (t: Sys, a: string, stale: bool, gs: seq<Event>)
    requires Looping(root, s, todo, fs) && todo != {}
    ensures a in todo && Visits(root, s, t, todo, a, stale, fs, gs)
  {
    FromInv(root, s);
    NextVisit(s, todo, fs);
    a, stale := fs[0].step.agent, fs[0].step.stale;
    if stale {
      t, gs := StaleVisit(root, s, todo, a, fs);
    } else {
      t, gs := FreshVisit(root, s, todo, a, fs);
    }
  }

  lemma NoVisit(root: Sys, s: Sys, fs: seq<Event>)
    requires Looping(root, s, {}, fs)
    ensures VisitedIn(fs) == {} && StaleIn(fs) == {} && SweptTo(s, Run(s, fs), {})
  {
    FromInv(root, s);
    InvKnows(s, "");
    SameFirst(s, Inside(SweepDone), fs);
    Ends(Apply(s, Inside(SweepDone)), fs[1..]);
    NothingSwept(s, Apply(s, Inside(SweepDone)));
  }

  lemma VisitThenRest(root: Sys, s: Sys, t: Sys, u: Sys, todo: set<string>, a: string, stale: bool,
                      fs: seq<Event>, gs: seq<Event>)
    requires IsRun(s, fs) && a in todo && Visits(root, s, t, todo, a, stale, fs, gs) && SweptTo(t, u, StaleIn(gs))
    requires VisitedIn(gs) == todo - {a} && StaleIn(gs) <= VisitedIn(gs)
    ensures VisitedIn(fs) == todo && StaleIn(fs) <= todo && SweptTo(s, u, StaleIn(fs))
  {
    SweptMore(s, t, u, if stale then {a} else {}, StaleIn(gs));
  }

  /** Whatever order the loop takes and whatever it finds stale. */
  lemma {:induction false} SweepEnds(root: Sys, s: Sys, todo: set<string>, fs: seq<Event>)
    requires Looping(root, s, todo, fs)
    ensures VisitedIn(fs) == todo && StaleIn(fs) <= todo && SweptTo(s, Run(s, fs), StaleIn(fs))
    decreases |todo|
  {
    if todo == {} {
      NoVisit(root, s, fs);
    } else {
      var t, a, stale, gs := OneVisit(root, s, todo, fs);
      SweepEnds(root, t, todo - {a}, gs);
      VisitThenRest(root, s, t, Run(s, fs), todo, a, stale, fs, gs);
    }
  }

  lemma EntryVisitsNobody(call: Call, es: seq<Event>)
    requires |es| >= 2 && es[0] == Arrive(call) && es[1] == Enter(call)
    ensures StaleIn(es) == StaleIn(es[2..]) && VisitedIn(es) == VisitedIn(es[2..])
  {
    assert es[1..][1..] == es[2..];
    assert StaleIn(es[1..]) == StaleIn(es[1..][1..]) && VisitedIn(es[1..]) == VisitedIn(es[1..][1..]);
  }

  lemma SweepEnters(s: Sys, es: seq<Event>) returns (t: Sys, fs: seq<Event>)
    requires Inv(s) && Calm(s) && Alone(s, Sweep, es)
    ensures t == s.(inside := t.inside) && Looping(t, t, s.agents.Keys, fs) && Run(t, fs) == Run(s, es)
    ensures StaleIn(es) == StaleIn(fs) && VisitedIn(es) == VisitedIn(fs)
  {
    Enters(s, Sweep, es);
    assert s.waiting + multiset{Sweep} - multiset{Sweep} == s.waiting;
    t := s.(inside := Some(Sweeping(s.agents.Keys)));
    FromItself(t);
    fs := es[2..];
    EntryVisitsNobody(Sweep, es);
  }

  lemma SweptInside(s: Sys, t: Sys, u: Sys, names: set<string>)
    requires t == s.(inside := t.inside) && SweptTo(t, u, names)
    ensures SweptTo(s, u, names)
  {
  }

  /**
   Every uninterrupted sweep looks at every connection and does what the classes' RemoveStaleConnections does for
   those it finds stale: their connections are retired and gone, their servers stopped, and nothing else changes.
   */
  lemma SweepAlone(s: Sys, es: seq<Event>)
    requires Inv(s) && Calm(s) && Alone(s, Sweep, es)
    ensures VisitedIn(es) == s.agents.Keys && StaleIn(es) <= s.agents.Keys && SweptTo(s, Run(s, es), StaleIn(es))
  {
    var t, fs := SweepEnters(s, es);
    SweepEnds(t, t, s.agents.Keys, fs);
    SweptInside(s, t, Run(s, es), StaleIn(es));
  }

  // ---- Stop ----

  predicate InStop(v: R.View) {
    v.Clearing? || v.Cleared?
  }

  /** Stop stays Stop until it returns. */
  lemma StopStays(s: Sys, e: Event)
    requires Own(e) && Enabled(s, e) && s.inside.Some? && InStop(R.ViewOf(s.inside))
    ensures T.StopReturns(s, e) || (Apply(s, e).inside.Some? && InStop(R.ViewOf(Apply(s, e).inside)))
  {
  }

  lemma {:induction false} StopEnds(s: Sys, fs: seq<Event>) returns (last: Sys, e: Event)
    requires Inv(s) && s.inside.Some? && InStop(R.ViewOf(s.inside)) && RunsOut(s, fs)
    ensures Inv(last) && Enabled(last, e) && T.StopReturns(last, e) && Run(s, fs) == Apply(last, e)
    decreases |fs|
  {
    StopStays(s, fs[0]);
    StepInv(s, fs[0]);
    if T.StopReturns(s, fs[0]) {
      last, e := s, fs[0];
      Ends(Apply(s, e), fs[1..]);
    } else {
      last, e := StopEnds(Apply(s, fs[0]), fs[1..]);
    }
  }

  /** Every uninterrupted shutdown ends as the classes' Stop does. */
  lemma StopAlone(s: Sys, es: seq<Event>)
    requires Inv(s) && Calm(s) && Alone(s, Stop, es)
    ensures var t := Run(s, es);
      && t.agents == map[] && t.servers == map[] && t.inside.None? && t.pool.taken == map[] && t.pool.lo <= t.pool.hi + 1
      && multiset(t.pool.free) == multiset(PortRange(t.pool.lo, t.pool.hi))
      && forall c: nat :: c < |t.conns| ==> T.Retired(t, c)
  {
    Enters(s, Stop, es);
    assert s.waiting + multiset{Stop} - multiset{Stop} == s.waiting;
    var last, e := StopEnds(s.(inside := Some(StopLoop(s.agents.Keys))), es[2..]);
    T.StopLeavesNothing(last, e);
  }

  // ---- a server that fails ----

  lemma OneNextOf(s: Sys, e: Event, f: Event, i: nat)
    requires OwnOf(e, i) && OwnOf(f, i) && Enabled(s, e) && Enabled(s, f)
    ensures e == f
  {
  }

  /** A run of the goroutine's steps starts with the one that is enabled. */
  lemma SameFirstOf(s: Sys, e: Event, t: Sys, i: nat, fs: seq<Event>)
    requires Steps(s, e, t) && OwnOf(e, i) && i < |s.instances| && !s.instances[i].goroutine.Gone?
    requires IsRun(s, fs) && AllOf(fs, i) && i < |Run(s, fs).instances| && Run(s, fs).instances[i].goroutine.Gone?
    ensures fs != [] && IsRun(t, fs[1..]) && AllOf(fs[1..], i) && Run(t, fs[1..]) == Run(s, fs)
  {
    assert fs != [];
    OneNextOf(s, e, fs[0], i);
  }

  lemma FailureReleasesAlone(s: Sys, i: nat, fs: seq<Event>)
    requires InFailure(s, i) && IsRun(s, fs) && AllOf(fs, i)
    requires i < |Run(s, fs).instances| && Run(s, fs).instances[i].goroutine.Gone?
    ensures Run(s, fs) == AfterFailure(s, i)
  {
    FailureLocks(s, i);
    SameFirstOf(s, PoolLock(P.Goroutine(i)), FailureLocked(s, i), i, fs);
    FailureDeletes(s, i);
    SameFirstOf(FailureLocked(s, i), PoolDelete(P.Goroutine(i)), FailureDeleted(s, i), i, fs[1..]);
    FailureSends(s, i);
    SameFirstOf(FailureDeleted(s, i), PoolSend(P.Goroutine(i)), AfterFailure(s, i), i, fs[1..][1..]);
    NoneMovesOf(AfterFailure(s, i), i, fs[1..][1..][1..]);
  }

  lemma IdleOf(s: Sys, e: Event, i: nat)
    requires s.pool.busy == map[] && OwnOf(e, i)
    ensures !Enabled(s, e)
  {
  }

  lemma NoneMovesOf(s: Sys, i: nat, fs: seq<Event>)
    requires s.pool.busy == map[] && IsRun(s, fs) && AllOf(fs, i)
    ensures fs == []
  {
    if fs != [] {
      IdleOf(s, fs[0], i);
    }
  }

  /** After the failure and the entry into the cleanup the rest is Release. */
  lemma FailureEnters(s: Sys, i: nat, es: seq<Event>)
    requires i < |s.instances| && s.instances[i].goroutine.Serving? && Idle(s) && FailsAlone(s, i, es)
    ensures var s1 := Apply(s, ServeFails(i));
      && Enabled(s1, CleanUp(i)) && IsRun(Apply(s1, CleanUp(i)), es[2..]) && Run(Apply(s1, CleanUp(i)), es[2..]) == Run(s, es)
  {
    var s1 := Apply(s, ServeFails(i));
    Single(s1, CleanUp(i));
    Then(s, ServeFails(i), [CleanUp(i)]);
    assert es == ([ServeFails(i)] + [CleanUp(i)]) + es[2..];
    Parts(s, [ServeFails(i)] + [CleanUp(i)], es[2..]);
  }

  lemma LiveFailureEnds(s: Sys, i: nat, es: seq<Event>)
    requires Idle(s) && IsLive(s, i) && s.instances[i].goroutine.Serving? && FailsAlone(s, i, es)
    requires s.instances[i].port in s.pool.taken && |s.pool.free| < P.Capacity(s.pool)
    ensures Run(s, es) == Failed(s, i)
  {
    FailureEnters(s, i, es);
    CleanUpBegins(s, i);
    CleanUpEnds(s, i);
    FailureReleasesAlone(Cleaning(s, i), i, es[2..]);
  }

  lemma StaleFailureEnds(s: Sys, i: nat, es: seq<Event>)
    requires Idle(s) && i < |s.instances| && !IsLive(s, i) && s.instances[i].goroutine.Serving? && FailsAlone(s, i, es)
    ensures Run(s, es) == Failed(s, i)
  {
    FailureEnters(s, i, es);
    var s1 := Apply(s, ServeFails(i));
    assert s1.instances[i := s1.instances[i].(goroutine := Gone)] == Failed(s, i).instances;
    NoneMovesOf(Apply(s1, CleanUp(i)), i, es[2..]);
  }

  /** Every server that fails, cleaned up without interruption, leaves what the classes' ServeFailed leaves. */
  lemma FailureAlone(s: Sys, i: nat, es: seq<Event>)
    requires Inv(s) && Calm(s) && i < |s.instances| && s.instances[i].goroutine.Serving? && FailsAlone(s, i, es)
    ensures Run(s, es) == Failed(s, i) && ServersKnown(s) && ServersKnown(Failed(s, i))
    ensures FleetOf(Run(s, es)) == if IsLive(s, i) then A.Stopped(FleetOf(s), s.instances[i].agent) else FleetOf(s)
  {
    InvKnows(s, s.instances[i].agent);
    InvOneEach(s);
    FailedFleet(s, i);
    if IsLive(s, i) {
      LiveFailureEnds(s, i, es);
    } else {
      StaleFailureEnds(s, i, es);
    }
  }

  // ---- a server does start ----

  lemma ManagedFromTheStart(lo: int, hi: int)
    requires 1 <= lo <= hi
    ensures Enabled(Initial(lo, hi), InstallManager)
    ensures var s := Apply(Initial(lo, hi), InstallManager);
      Inv(s) && Calm(s) && s.managed && s.servers == map[] && s.agents == map[] && s.pool.free == PortRange(lo, hi)
  {
    InitialInv(lo, hi);
    StepInv(Initial(lo, hi), InstallManager);
  }

  lemma FirstPort(lo: int, hi: int, a: string, binds: seq<bool>)
    requires lo <= hi && |binds| == MAX_PORT_BIND_RETRIES && binds[0]
    ensures A.StartOutcome(A.Stopped(A.Fleet(map[], PortRange(lo, hi)), a), a, binds).1 ==
      A.Fleet(map[a := lo], PortRange(lo, hi)[1..])
  {
    assert A.Failures(binds) == 0;
  }

  /** After a manager has been installed, an agent that registers and whose first bind succeeds has its server. */
  lemma ServerStarts(lo: int, hi: int, a: string) returns (es: seq<Event>)
    requires 1 <= lo <= hi
    ensures T.IsHistory(lo, hi, es)
    ensures var s := T.After(lo, hi, es);
      && a in s.servers && s.servers[a] < |s.instances| && s.instances[s.servers[a]].port == lo
      && a in s.agents && T.Current(s, s.agents[a]) && s.conns[s.agents[a]].port == lo
  {
    var binds := [true, true, true];
    ManagedFromTheStart(lo, hi);
    var s := Apply(Initial(lo, hi), InstallManager);
    var fs := RegisterReturns(s, a, binds);
    RegisterAlone(s, a, binds, fs);
    assert FleetOf(s) == A.Fleet(map[], PortRange(lo, hi));
    FirstPort(lo, hi, a, binds);
    Then(Initial(lo, hi), InstallManager, fs);
    es := [InstallManager] + fs;
    StartedIsRegistered(lo, hi, es, a);
  }

  lemma StartedIsRegistered(lo: int, hi: int, es: seq<Event>, a: string)
    requires T.IsHistory(lo, hi, es) && T.After(lo, hi, es).inside.None? && ServersKnown(T.After(lo, hi, es))
    requires FleetOf(T.After(lo, hi, es)).ports == map[a := lo]
    ensures var s := T.After(lo, hi, es);
      && a in s.servers && s.servers[a] < |s.instances| && s.instances[s.servers[a]].port == lo
      && a in s.agents && T.Current(s, s.agents[a]) && s.conns[s.agents[a]].port == lo
  {
    var s := T.After(lo, hi, es);
    assert a in FleetOf(s).ports;
    T.ServersAreRegistered(lo, hi, es, a);
    T.CurrentOrRetired(lo, hi, es, s.agents[a]);
  }
}
