/**
 The registry's calls with everything else going on: however servers fail and are cleaned up between a call's steps,
 from the moment it gets the mutex to its return it does to the registry exactly what it would do alone.
 */
module CallsInterleaved {
  import opened Basics
  import P = PoolSteps
  import opened ThreeLayer
  import opened ThreeLayerInv
  import R = RegistryInv
  import V = ServersInv
  import U = Uninterrupted

  /** A run to the return of the call inside, with any events in between. */
  ghost predicate ToReturn(s: Sys, es: seq<Event>)
    decreases |es|
  {
    if s.inside.None? then es == []
    else es != [] && Enabled(s, es[0]) && ToReturn(Apply(s, es[0]), es[1..])
  }

  ghost function Returned(s: Sys, es: seq<Event>): Sys
    requires ToReturn(s, es)
    decreases |es|
  {
    if s.inside.None? then s else Returned(Apply(s, es[0]), es[1..])
  }

  lemma {:induction false} IsARun(s: Sys, es: seq<Event>)
    requires ToReturn(s, es)
    ensures IsRun(s, es) && Run(s, es) == Returned(s, es) && Returned(s, es).inside.None?
    decreases |es|
  {
    if s.inside.Some? {
      IsARun(Apply(s, es[0]), es[1..]);
    }
  }

  predicate SameRegistry(s: Sys, t: Sys) {
    t.agents == s.agents && t.conns == s.conns && t.managed == s.managed
  }

  // ---- StopAgentServer inside a call ----

  /** StopAgentServer is under way, and after it the call goes on with k. */
  predicate InStop(s: Sys, k: Cont) {
    s.inside.Some? &&
    match s.inside.value
    case StopWait(_, j) => j == k
    case Draining(_, j) => j == k
    case StopRelease(_, j) => j == k
    case StopRequeue(j) => j == k
    case Resuming(j) => j == k
    case _ => false
  }

  lemma StopInside(s: Sys, step: Step, k: Cont)
    requires InStop(s, k) && At(s, step)
    ensures if step.Return? then ApplyInside(s, step) == Resume(s, k)
            else InStop(ApplyInside(s, step), k) && SameRegistry(s, ApplyInside(s, step))
  {
  }

  lemma StopPool(s: Sys, c: P.Caller, k: Cont)
    requires InStop(s, k) && KnowsCaller(s, c)
    ensures InStop(RecordRemoved(s, c), k) && SameRegistry(s, RecordRemoved(s, c))
    ensures InStop(ReleaseReturns(s, c), k) && SameRegistry(s, ReleaseReturns(s, c))
  {
  }

  /** Everything that can happen meanwhile leaves the registry as it is, until the call itself goes on. */
  lemma StopPhase(s: Sys, e: Event, k: Cont)
    requires InStop(s, k) && Enabled(s, e)
    ensures if e == Inside(Return) then Apply(s, e) == Resume(s, k)
            else InStop(Apply(s, e), k) && SameRegistry(s, Apply(s, e))
  {
    match e
    case Inside(step) => StopInside(s, step, k);
    case PoolDelete(c) => StopPool(s.(pool := P.Apply(s.pool, P.Delete(c))), c, k);
    case PoolSend(c) => StopPool(s.(pool := P.Apply(s.pool, P.Send(c))), c, k);
    case _ =>
  }

  ghost predicate IsSuffix(fs: seq<Event>, es: seq<Event>) {
    |fs| <= |es| && fs == es[|es| - |fs|..] && U.StaleIn(es) == U.StaleIn(fs) && U.VisitedIn(es) == U.VisitedIn(fs)
  }

  /** The call's next step, and the rest. */
  lemma StopNext(s: Sys, es: seq<Event>, k: Cont)
    requires InStop(s, k) && ToReturn(s, es)
    ensures es != [] && Enabled(s, es[0]) && ToReturn(Apply(s, es[0]), es[1..])
    ensures Returned(Apply(s, es[0]), es[1..]) == Returned(s, es) && IsSuffix(es[1..], es)
    ensures if es[0] == Inside(Return) then Apply(s, es[0]) == Resume(s, k)
            else InStop(Apply(s, es[0]), k) && SameRegistry(s, Apply(s, es[0]))
  {
    StopPhase(s, es[0], k);
    NoVisitInStop(s, es[0], k);
  }

  lemma SuffixOfSuffix(gs: seq<Event>, fs: seq<Event>, es: seq<Event>)
    requires IsSuffix(gs, fs) && IsSuffix(fs, es)
    ensures IsSuffix(gs, es)
  {
  }

  /** Up to the point where it goes on. */
  lemma {:induction false} StopEnds(s: Sys, es: seq<Event>, k: Cont) returns (t: Sys, fs: seq<Event>)
    requires InStop(s, k) && ToReturn(s, es)
    ensures SameRegistry(s, t) && IsSuffix(fs, es)
    ensures ToReturn(Resume(t, k), fs) && Returned(Resume(t, k), fs) == Returned(s, es)
    decreases |es|
  {
    StopNext(s, es, k);
    if es[0] == Inside(Return) {
      t, fs := s, es[1..];
    } else {
      t, fs := StopEnds(Apply(s, es[0]), es[1..], k);
      SuffixOfSuffix(fs, es[1..], es);
    }
  }

  lemma NoVisitInStop(s: Sys, e: Event, k: Cont)
    requires InStop(s, k) && Enabled(s, e)
    ensures !(e.Inside? && e.step.SweepVisit?)
  {
  }

  // ---- Deregister ----

  function Gone(s: Sys, a: string): seq<Connection>
    requires KnowsCurrent(s, a)
  {
    if a in s.agents then s.conns[s.agents[a] := R.RetiredConn(s.conns[s.agents[a]])] else s.conns
  }

  lemma NoServerLeft(s: Sys, a: string)
    requires Inv(s) && s.inside.None? && a !in s.agents
    ensures a !in s.servers
  {
  }

  /** With the mutex the call has retired the agent's connection, if there is one, and goes on with k. */
  lemma Entered(s: Sys, call: Call)
    requires (call.Register? || call.Deregister?) && Enabled(s, Enter(call))
    ensures var a := call.agent;
      var k := if call.Register? then ThenStart(a) else ThenForget(a);
      var t := EnterCall(s, call);
      if a in s.agents then InStop(t, k) && t.agents == s.agents && t.conns == Gone(s, a) && t.managed == s.managed
      else t == if call.Register? then BeginStart(s.(waiting := s.waiting - multiset{call}), a)
                else s.(waiting := s.waiting - multiset{call})
  {
  }

  lemma LeavesNoServer(s: Sys, e: Event, es: seq<Event>, a: string)
    requires Inv(s) && Enabled(s, e) && ToReturn(Apply(s, e), es) && a !in Returned(Apply(s, e), es).agents
    ensures a !in Returned(Apply(s, e), es).servers
  {
    StepInv(s, e);
    IsARun(Apply(s, e), es);
    RunInv(Apply(s, e), es);
    NoServerLeft(Returned(Apply(s, e), es), a);
  }

  /** In every interleaving a removal retires and forgets the agent's connection, no other, and its server is gone. */
  lemma DeregisterInterleaved(s: Sys, a: string, es: seq<Event>)
    requires Inv(s) && Enabled(s, Enter(Deregister(a))) && ToReturn(Apply(s, Enter(Deregister(a))), es)
    ensures var t := Returned(Apply(s, Enter(Deregister(a))), es);
      t.agents == s.agents - {a} && t.conns == Gone(s, a) && a !in t.servers
  {
    Entered(s, Deregister(a));
    if a in s.agents {
      var t, fs := StopEnds(EnterCall(s, Deregister(a)), es, ThenForget(a));
    }
    LeavesNoServer(s, Enter(Deregister(a)), es, a);
  }

  // ---- Register ----

  /** StartAgentServer is under way for agent a, or has returned a port. */
  predicate InStart(s: Sys, a: string) {
    s.inside.Some? &&
    match s.inside.value
    case StartWait(b) => a == b
    case StartTry(b, _) => a == b
    case StartRecord(b, _) => a == b
    case StartBind(b, _, _) => a == b
    case StartRelease(b, _, _) => a == b
    case StartRequeue(b, _) => a == b
    case Started(b, _) => a == b
    case _ => false
  }

  predicate Fails(e: Event) {
    e == Inside(StartExists) || e == Inside(StartExhausted) || e == Inside(StartGivesUp)
  }

  lemma StartInside(s: Sys, step: Step, a: string)
    requires InStart(s, a) && At(s, step)
    ensures var t := ApplyInside(s, step);
      if step.Finish? then t == AddConnection(s, a, s.inside.value.port)
      else SameRegistry(s, t) && if Fails(Inside(step)) then t.inside.None? else InStart(t, a)
  {
  }

  lemma StartPool(s: Sys, c: P.Caller, a: string)
    requires InStart(s, a) && KnowsCaller(s, c)
    ensures InStart(RecordRemoved(s, c), a) && SameRegistry(s, RecordRemoved(s, c))
    ensures InStart(ReleaseReturns(s, c), a) && SameRegistry(s, ReleaseReturns(s, c))
  {
  }

  lemma StartPhase(s: Sys, e: Event, a: string)
    requires InStart(s, a) && Enabled(s, e)
    ensures var t := Apply(s, e);
      if e == Inside(Finish) then t == AddConnection(s, a, s.inside.value.port)
      else SameRegistry(s, t) && if Fails(e) then t.inside.None? else InStart(t, a)
  {
    match e
    case Inside(step) => StartInside(s, step, a);
    case PoolDelete(c) => StartPool(s.(pool := P.Apply(s.pool, P.Delete(c))), c, a);
    case PoolSend(c) => StartPool(s.(pool := P.Apply(s.pool, P.Send(c))), c, a);
    case _ =>
  }

  /** The registration has failed, or added exactly this connection. */
  predicate Joined(s: Sys, t: Sys, a: string, port: int, ok: bool) {
    if ok then t.agents == s.agents[a := |s.conns|] && t.conns == s.conns + [Connection(a, port, false, 0)]
    else t.agents == s.agents && t.conns == s.conns
  }

  lemma {:induction false} StartEnds(s: Sys, es: seq<Event>, a: string) returns (port: int, ok: bool)
    requires InStart(s, a) && ToReturn(s, es)
    ensures Joined(s, Returned(s, es), a, port, ok) && es != []
    ensures ok <==> es[|es| - 1] == Inside(Finish)
    ensures !ok ==> Fails(es[|es| - 1])
    decreases |es|
  {
    StartPhase(s, es[0], a);
    if es[0] == Inside(Finish) || Fails(es[0]) {
      port, ok := if es[0] == Inside(Finish) then s.inside.value.port else 0, es[0] == Inside(Finish);
    } else {
      port, ok := StartEnds(Apply(s, es[0]), es[1..], a);
    }
  }

  /** From the moment a server is wanted, or not. */
  lemma BeginEnds(s: Sys, a: string, es: seq<Event>) returns (port: int, ok: bool)
    requires ToReturn(BeginStart(s, a), es)
    ensures Joined(s, Returned(BeginStart(s, a), es), a, port, ok)
    ensures !s.managed ==> ok && port == 0
    ensures !ok ==> es != [] && Fails(es[|es| - 1])
  {
    if s.managed {
      port, ok := StartEnds(BeginStart(s, a), es, a);
    } else {
      port, ok := 0, true;
    }
  }

  /** The registry when the old connection is gone, and the registration goes on from there with fs. */
  ghost predicate Left(s: Sys, u: Sys, a: string, fs: seq<Event>, end: Sys)
    requires KnowsCurrent(s, a)
  {
    && u.agents == s.agents - {a} && u.conns == Gone(s, a) && u.managed == s.managed
    && ToReturn(BeginStart(u, a), fs) && Returned(BeginStart(u, a), fs) == end
  }

  lemma ForgetLeaves(s: Sys, t: Sys, a: string, fs: seq<Event>, end: Sys) returns (u: Sys)
    requires KnowsCurrent(s, a) && t.agents == s.agents && t.conns == Gone(s, a) && t.managed == s.managed
    requires ToReturn(Resume(t, ThenStart(a)), fs) && Returned(Resume(t, ThenStart(a)), fs) == end
    ensures Left(s, u, a, fs, end)
  {
    u := Forget(t, a);
  }

  lemma KnownLeaves(s: Sys, entered: Sys, a: string, es: seq<Event>) returns (u: Sys, fs: seq<Event>)
    requires KnowsCurrent(s, a) && InStop(entered, ThenStart(a)) && ToReturn(entered, es)
    requires entered.agents == s.agents && entered.conns == Gone(s, a) && entered.managed == s.managed
    ensures Left(s, u, a, fs, Returned(entered, es)) && IsSuffix(fs, es)
  {
    var t;
    t, fs := StopEnds(entered, es, ThenStart(a));
    u := ForgetLeaves(s, t, a, fs, Returned(entered, es));
  }

  lemma UnknownLeaves(s: Sys, u: Sys, a: string, es: seq<Event>)
    requires KnowsCurrent(s, a) && a !in s.agents && SameRegistry(s, u) && ToReturn(BeginStart(u, a), es)
    ensures Left(s, u, a, es, Returned(BeginStart(u, a), es)) && IsSuffix(es, es)
  {
    assert s.agents - {a} == s.agents;
    assert es[0..] == es;
  }

  lemma LeaveEnds(s: Sys, entered: Sys, a: string, es: seq<Event>) returns (u: Sys, fs: seq<Event>)
    requires Enabled(s, Enter(Register(a))) && entered == EnterCall(s, Register(a)) && ToReturn(entered, es)
    ensures Left(s, u, a, fs, Returned(entered, es)) && IsSuffix(fs, es)
  {
    Entered(s, Register(a));
    if a in s.agents {
      u, fs := KnownLeaves(s, entered, a, es);
    } else {
      u, fs := s.(waiting := s.waiting - multiset{Register(a)}), es;
      UnknownLeaves(s, u, a, es);
    }
  }

  /** The registry after a registration: the old connection retired, and a new one added unless it failed. */
  ghost predicate Registered(s: Sys, t: Sys, a: string, port: int, ok: bool)
    requires KnowsCurrent(s, a)
  {
    && t.agents == (if ok then s.agents[a := |s.conns|] else s.agents - {a})
    && t.conns == Gone(s, a) + (if ok then [Connection(a, port, false, 0)] else [])
    && (!s.managed ==> ok && port == 0)
  }

  lemma JoinedAfterGone(s: Sys, u: Sys, t: Sys, a: string, port: int, ok: bool)
    requires KnowsCurrent(s, a) && u.agents == s.agents - {a} && u.conns == Gone(s, a) && u.managed == s.managed
    requires Joined(u, t, a, port, ok) && (!u.managed ==> ok && port == 0)
    ensures Registered(s, t, a, port, ok)
  {
    assert (s.agents - {a})[a := |s.conns|] == s.agents[a := |s.conns|];
  }

  lemma RegisterEnds(s: Sys, a: string, es: seq<Event>) returns (port: int, ok: bool)
    requires Enabled(s, Enter(Register(a))) && ToReturn(EnterCall(s, Register(a)), es)
    ensures Registered(s, Returned(EnterCall(s, Register(a)), es), a, port, ok)
    ensures !ok ==> es != [] && Fails(es[|es| - 1])
  {
    var u, fs := LeaveEnds(s, EnterCall(s, Register(a)), a, es);
    port, ok := BeginEnds(u, a, fs);
    JoinedAfterGone(s, u, Returned(BeginStart(u, a), fs), a, port, ok);
  }

  /**
   In every interleaving a registration retires the agent's old connection, and then adds exactly one new one, or
   none if StartAgentServer failed; no other agent's entry or connection changes.
   */
  lemma RegisterInterleaved(s: Sys, a: string, es: seq<Event>) returns (port: int, ok: bool)
    requires Inv(s) && Enabled(s, Enter(Register(a))) && ToReturn(Apply(s, Enter(Register(a))), es)
    ensures Registered(s, Returned(Apply(s, Enter(Register(a))), es), a, port, ok)
    ensures !ok ==> es != [] && Fails(es[|es| - 1]) && a !in Returned(Apply(s, Enter(Register(a))), es).servers
  {
    port, ok := RegisterEnds(s, a, es);
    if !ok {
      LeavesNoServer(s, Enter(Register(a)), es, a);
    }
  }

  // ---- the sweep ----

  /** Every entry of the map is a connection of that agent. */
  ghost predicate NamesOk(s: Sys) {
    forall a :: a in s.agents ==> s.agents[a] < |s.conns| && s.conns[s.agents[a]].agent == a
  }

  /** These agents' connections are retired and gone, and nothing else has changed in the registry. */
  ghost predicate Without(s: Sys, t: Sys, names: set<string>) {
    && t.agents == s.agents - names && |t.conns| == |s.conns|
    && forall c: nat :: c < |s.conns| ==>
         t.conns[c] == if U.IsOneOf(s, c, names) then R.RetiredConn(s.conns[c]) else s.conns[c]
  }

  lemma WithoutNone(s: Sys, t: Sys)
    requires SameRegistry(s, t)
    ensures Without(s, t, {})
  {
    assert s.agents - {} == s.agents;
  }

  lemma WithoutMore(s: Sys, t: Sys, u: Sys, first: set<string>, more: set<string>)
    requires Without(s, t, first) && Without(t, u, more) && first !! more
    ensures Without(s, u, first + more)
  {
    assert s.agents - first - more == s.agents - (first + more);
    assert forall c: nat :: c < |s.conns| ==> t.conns[c].agent == s.conns[c].agent;
  }

  lemma WithoutOne(s: Sys, t: Sys, a: string)
    requires NamesOk(s) && a in s.agents && t.agents == s.agents - {a} && t.conns == Gone(s, a)
    ensures Without(s, t, {a}) && NamesOk(t)
  {
  }

  /** A visit of the loop, and where it leads. */
  lemma VisitInterleaved(s: Sys, todo: set<string>, es: seq<Event>) returns (t: Sys, fs: seq<Event>, stale: set<string>)
    requires NamesOk(s) && s.inside == Some(Sweeping(todo)) && ToReturn(s, es) && es[0].Inside? && es[0].step.SweepVisit?
    ensures es[0].step.agent in todo && stale == (if es[0].step.stale then {es[0].step.agent} else {})
    ensures NamesOk(t) && t.inside == Some(Sweeping(todo - {es[0].step.agent})) && Without(s, t, stale)
    ensures ToReturn(t, fs) && Returned(t, fs) == Returned(s, es) && |fs| < |es|
    ensures U.StaleIn(es) == stale + U.StaleIn(fs) && U.VisitedIn(es) == {es[0].step.agent} + U.VisitedIn(fs)
  {
    var a := es[0].step.agent;
    if es[0].step.stale {
      var u;
      u, fs := StopEnds(Apply(s, es[0]), es[1..], ThenSweep(a, todo - {a}));
      t, stale := Resume(u, ThenSweep(a, todo - {a})), {a};
      WithoutOne(s, t, a);
    } else {
      t, fs, stale := Apply(s, es[0]), es[1..], {};
      WithoutNone(s, t);
    }
  }

  lemma OtherInSweep(s: Sys, todo: set<string>, e: Event)
    requires s.inside == Some(Sweeping(todo)) && Enabled(s, e) && !(e.Inside? && e.step.SweepVisit?)
    ensures SameRegistry(s, Apply(s, e))
    ensures if e == Inside(SweepDone) then todo == {} && Apply(s, e).inside.None? else Apply(s, e).inside == s.inside
  {
  }

  lemma {:induction false} SweepEnds(s: Sys, todo: set<string>, es: seq<Event>)
    requires NamesOk(s) && s.inside == Some(Sweeping(todo)) && ToReturn(s, es)
    ensures U.VisitedIn(es) == todo && U.StaleIn(es) <= todo && Without(s, Returned(s, es), U.StaleIn(es))
    decreases |es|
  {
    if es[0].Inside? && es[0].step.SweepVisit? {
      var t, fs, stale := VisitInterleaved(s, todo, es);
      SweepEnds(t, todo - {es[0].step.agent}, fs);
      WithoutMore(s, t, Returned(s, es), stale, U.StaleIn(fs));
    } else {
      OtherInSweep(s, todo, es[0]);
      var t := Apply(s, es[0]);
      WithoutNone(s, t);
      if es[0] != Inside(SweepDone) {
        SweepEnds(t, todo, es[1..]);
        WithoutMore(s, t, Returned(s, es), {}, U.StaleIn(es[1..]));
      }
    }
  }

  lemma InvNames(s: Sys)
    requires Inv(s)
    ensures NamesOk(s)
  {
  }

  /** In every interleaving a sweep looks at every connection and removes exactly those it finds stale. */
  lemma SweepInterleaved(s: Sys, es: seq<Event>)
    requires Inv(s) && Enabled(s, Enter(Sweep)) && ToReturn(Apply(s, Enter(Sweep)), es)
    ensures var t := Returned(Apply(s, Enter(Sweep)), es);
      U.VisitedIn(es) == s.agents.Keys && U.StaleIn(es) <= s.agents.Keys && Without(s, t, U.StaleIn(es))
  {
    InvNames(s);
    var s1 := Apply(s, Enter(Sweep));
    SweepEnds(s1, s.agents.Keys, es);
  }
}
