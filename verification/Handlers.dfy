/**
 The stream handlers behind the connections.

 Every successful registration has one handler.  When its stream fails, or the context of its connection is
 cancelled, the handler leaves: its deferred Deregister, which goes by agent id only, waits for the registry's
 mutex like every other call.  Otherwise this is the system of ThreeLayer, whose Deregister calls now all
 come from handlers.
 */
module Handlers {
  import opened Basics
  import opened ThreeLayer
  import opened ThreeLayerInv
  import P = PoolSteps
  import T = ThreeLayerTheorems
  import R = RegistryInv

  datatype Phase =
    | Streaming
    | Leaving          // its Deregister waits for the mutex
    | Left             // its Deregister has got the mutex

  /** handlers[c] belongs to connection c. */
  datatype World = World(sys: Sys, handlers: seq<Phase>)

  datatype Move =
    | Other(e: Event)                   // anything but a Deregister
    | Leaves(c: nat, failed: bool)      // its stream fails, or it sees its context cancelled
    | Removes(c: nat)                   // its Deregister gets the mutex

  function Initially(lo: int, hi: int): World
    requires lo <= hi + 1
  {
    World(Initial(lo, hi), [])
  }

  predicate IsDeregister(e: Event) {
    (e.Arrive? || e.Enter?) && e.call.Deregister?
  }

  /** What the move is to the system below. */
  function Below(w: World, m: Move): Event
    requires !m.Other? ==> m.c < |w.sys.conns|
  {
    match m
    case Other(e) => e
    case Leaves(c, _) => Arrive(Deregister(w.sys.conns[c].agent))
    case Removes(c) => Enter(Deregister(w.sys.conns[c].agent))
  }

  predicate May(w: World, m: Move) {
    match m
    case Other(e) => !IsDeregister(e) && Enabled(w.sys, e)
    case Leaves(c, failed) =>
      c < |w.handlers| && c < |w.sys.conns| && w.handlers[c].Streaming? && (failed || w.sys.conns[c].cancelled)
    case Removes(c) =>
      c < |w.handlers| && c < |w.sys.conns| && w.handlers[c].Leaving? && Enabled(w.sys, Below(w, m))
  }

  function Advanced(hs: seq<Phase>, m: Move): seq<Phase>
    requires !m.Other? ==> m.c < |hs|
  {
    match m
    case Other(_) => hs
    case Leaves(c, _) => hs[c := Leaving]
    case Removes(c) => hs[c := Left]
  }

  function Do(w: World, m: Move): World
    requires May(w, m)
  {
    var t := Apply(w.sys, Below(w, m));
    World(t, Advanced(w.handlers, m) + if |t.conns| > |w.sys.conns| then [Streaming] else [])
  }

  ghost predicate IsPath(w: World, ms: seq<Move>)
    decreases |ms|
  {
    ms == [] || (May(w, ms[0]) && IsPath(Do(w, ms[0]), ms[1..]))
  }

  ghost function Path(w: World, ms: seq<Move>): World
    requires IsPath(w, ms)
    decreases |ms|
  {
    if ms == [] then w else Path(Do(w, ms[0]), ms[1..])
  }

  // ---- it is a system of ThreeLayer ----

  ghost function AllBelow(w: World, ms: seq<Move>): seq<Event>
    requires IsPath(w, ms)
    decreases |ms|
  {
    if ms == [] then [] else [Below(w, ms[0])] + AllBelow(Do(w, ms[0]), ms[1..])
  }

  /** So everything proved about the runs of that system holds of this one. */
  lemma {:induction false} PathIsRun(w: World, ms: seq<Move>)
    requires IsPath(w, ms)
    ensures IsRun(w.sys, AllBelow(w, ms)) && Run(w.sys, AllBelow(w, ms)) == Path(w, ms).sys
    decreases |ms|
  {
    if ms != [] {
      var es := AllBelow(Do(w, ms[0]), ms[1..]);
      PathIsRun(Do(w, ms[0]), ms[1..]);
      assert AllBelow(w, ms) == [Below(w, ms[0])] + es;
      assert AllBelow(w, ms)[1..] == es;
    }
  }

  // ---- how connections change ----

  /** No step takes a connection back, reopens it or changes its agent; at most one is added. */
  predicate Grown(xs: seq<Connection>, ys: seq<Connection>) {
    && |xs| <= |ys| <= |xs| + 1
    && forall c: nat :: c < |xs| ==> ys[c].agent == xs[c].agent && ys[c].closes >= xs[c].closes
  }

  lemma InsideGrows(s: Sys, step: Step)
    requires At(s, step)
    ensures Grown(s.conns, ApplyInside(s, step).conns)
  {
  }

  lemma EnterGrows(s: Sys, call: Call)
    requires Enabled(s, Enter(call))
    ensures Grown(s.conns, EnterCall(s, call).conns)
  {
  }

  lemma ReleaseKeepsConns(s: Sys, c: P.Caller)
    requires KnowsCaller(s, c)
    ensures ReleaseReturns(s, c).conns == s.conns && RecordRemoved(s, c).conns == s.conns
    ensures R.ViewOf(ReleaseReturns(s, c).inside) == R.ViewOf(s.inside) == R.ViewOf(RecordRemoved(s, c).inside)
  {
  }

  lemma PoolKeepsConns(s: Sys, e: Event)
    requires Enabled(s, e) && (e.PoolDelete? || e.PoolSend?)
    ensures Apply(s, e).conns == s.conns && R.ViewOf(Apply(s, e).inside) == R.ViewOf(s.inside)
  {
    ReleaseKeepsConns(s.(pool := P.Apply(s.pool, if e.PoolDelete? then P.Delete(e.c) else P.Send(e.c))), e.c);
  }

  lemma StepGrows(s: Sys, e: Event)
    requires Enabled(s, e)
    ensures Grown(s.conns, Apply(s, e).conns)
  {
    match e
    case Inside(step) => InsideGrows(s, step);
    case Enter(call) => EnterGrows(s, call);
    case PoolDelete(_) => PoolKeepsConns(s, e);
    case PoolSend(_) => PoolKeepsConns(s, e);
    case _ =>
  }

  // ---- invariant ----

  /** A handler whose Deregister has had its turn has a closed connection. */
  ghost predicate HandlersOk(w: World) {
    && Inv(w.sys) && |w.handlers| == |w.sys.conns|
    && forall c: nat :: c < |w.handlers| && w.handlers[c].Left? ==> w.sys.conns[c].closes != 0
  }

  /** Deregister retires whichever connection of the agent is current. */
  lemma DeregisterCloses(s: Sys, c: nat)
    requires Inv(s) && c < |s.conns| && Enabled(s, Enter(Deregister(s.conns[c].agent)))
    ensures c < |Apply(s, Enter(Deregister(s.conns[c].agent))).conns|
    ensures Apply(s, Enter(Deregister(s.conns[c].agent))).conns[c].closes != 0
  {
    StepGrows(s, Enter(Deregister(s.conns[c].agent)));
    assert R.ConnOk(s.agents, c, s.conns[c]);
  }

  lemma HandlersGrow(w: World, m: Move)
    requires |w.handlers| == |w.sys.conns| && May(w, m)
    ensures Grown(w.sys.conns, Do(w, m).sys.conns) && |Do(w, m).handlers| == |Do(w, m).sys.conns|
    ensures forall c: nat :: c < |w.handlers| ==> Do(w, m).handlers[c] == Advanced(w.handlers, m)[c]
    ensures forall c: nat :: |w.handlers| <= c < |Do(w, m).handlers| ==> Do(w, m).handlers[c].Streaming?
  {
    StepGrows(w.sys, Below(w, m));
  }

  lemma MoveKeeps(w: World, m: Move)
    requires HandlersOk(w) && May(w, m)
    ensures HandlersOk(Do(w, m))
  {
    StepInv(w.sys, Below(w, m));
    HandlersGrow(w, m);
    var v := Do(w, m);
    forall c: nat | c < |v.handlers| && v.handlers[c].Left?
      ensures v.sys.conns[c].closes != 0
    {
      if m == Removes(c) {
        DeregisterCloses(w.sys, c);
      } else {
        assert w.handlers[c].Left?;
      }
    }
  }

  lemma {:induction false} PathKeeps(w: World, ms: seq<Move>)
    requires HandlersOk(w) && IsPath(w, ms)
    ensures HandlersOk(Path(w, ms)) && |w.handlers| <= |Path(w, ms).handlers|
    ensures forall c: nat :: c < |w.handlers| ==> Path(w, ms).sys.conns[c].agent == w.sys.conns[c].agent
    decreases |ms|
  {
    if ms != [] {
      MoveKeeps(w, ms[0]);
      HandlersGrow(w, ms[0]);
      PathKeeps(Do(w, ms[0]), ms[1..]);
    }
  }

  lemma Reached(lo: int, hi: int, ms: seq<Move>)
    requires 1 <= lo <= hi && IsPath(Initially(lo, hi), ms)
    ensures HandlersOk(Path(Initially(lo, hi), ms))
  {
    InitialInv(lo, hi);
    PathKeeps(Initially(lo, hi), ms);
  }

  // ---- a late exit takes the replacement with it ----

  /** A handler of the connection's agent, other than its own, that has yet to deregister. */
  ghost predicate Outstanding(w: World, c: nat, h: nat) {
    && c < |w.sys.conns| && h < |w.sys.conns| && h < |w.handlers| && h != c
    && w.sys.conns[h].agent == w.sys.conns[c].agent && !w.handlers[h].Left?
  }

  /** Whatever else happens: once that handler has left, the connection is closed. */
  lemma {:induction false} LateExitCloses(w: World, ms: seq<Move>, c: nat, h: nat)
    requires HandlersOk(w) && IsPath(w, ms) && c < |w.sys.conns| && h < |w.handlers|
    requires w.sys.conns[h].agent == w.sys.conns[c].agent
    requires w.sys.conns[c].closes != 0 || !w.handlers[h].Left?
    ensures HandlersOk(Path(w, ms)) && c < |Path(w, ms).sys.conns| && h < |Path(w, ms).handlers|
    ensures Path(w, ms).handlers[h].Left? ==> Path(w, ms).sys.conns[c].closes != 0
    decreases |ms|
  {
    if ms != [] {
      MoveKeeps(w, ms[0]);
      HandlersGrow(w, ms[0]);
      if ms[0] == Removes(h) {
        DeregisterCloses(w.sys, c);
      }
      LateExitCloses(Do(w, ms[0]), ms[1..], c, h);
    }
  }

  lemma ClosedIsNotCurrent(s: Sys, c: nat)
    requires Inv(s) && c < |s.conns| && s.conns[c].closes != 0
    ensures !T.Current(s, c)
  {
  }

  // ---- and otherwise it survives ----

  /** The call inside, if any, has nothing to do with the agent's connection. */
  predicate Spares(v: R.View, a: string) {
    match v
    case Calm => true
    case Losing(b) => b != a
    case Joining(b) => b != a
    case _ => false
  }

  predicate Meddles(e: Event, a: string) {
    || e == Enter(Register(a)) || e == Enter(Deregister(a)) || e == Enter(Stop)
    || e == Inside(SweepVisit(a, true))
  }

  /** A new connection, if there is one, is not the agent's. */
  predicate NoneAdded(xs: seq<Connection>, ys: seq<Connection>, a: string) {
    |ys| > |xs| ==> ys[|xs|].agent != a
  }

  /** Connection c is open, and the registry is in order and at a point that spares its agent. */
  ghost predicate Spared(s: Sys, c: nat) {
    && R.Registry(s.agents, s.conns, R.ViewOf(s.inside))
    && c < |s.conns| && s.conns[c].closes == 0 && Spares(R.ViewOf(s.inside), s.conns[c].agent)
  }

  ghost predicate StillSpared(s: Sys, t: Sys, c: nat)
    requires c < |s.conns|
  {
    && c < |t.conns| && t.conns[c] == s.conns[c] && Spares(R.ViewOf(t.inside), s.conns[c].agent)
    && NoneAdded(s.conns, t.conns, s.conns[c].agent)
  }

  lemma RetireSpares(s: Sys, b: string, k: Cont, c: nat)
    requires Spared(s, c) && b in s.agents && b != s.conns[c].agent && R.ContView(k) == R.Losing(b)
    ensures StillSpared(s, RetireThen(s, b, k), c)
  {
  }

  lemma ReturnSpares(s: Sys, c: nat)
    requires Spared(s, c) && s.inside.Some? && s.inside.value.Resuming?
    ensures StillSpared(s, Resume(s, s.inside.value.k), c)
  {
  }

  lemma SparedInside(s: Sys, step: Step, c: nat)
    requires Spared(s, c) && At(s, step) && !Meddles(Inside(step), s.conns[c].agent)
    ensures StillSpared(s, ApplyInside(s, step), c)
  {
    match step
    case SweepVisit(b, stale) =>
      if stale {
        RetireSpares(s, b, ThenSweep(b, s.inside.value.todo - {b}), c);
      }
    case Return => ReturnSpares(s, c);
    case _ => StartSpares(s, step, c);
  }

  lemma StartSpares(s: Sys, step: Step, c: nat)
    requires Spared(s, c) && At(s, step) && !step.SweepVisit? && !step.Return?
    ensures StillSpared(s, ApplyInside(s, step), c)
  {
  }

  lemma SparedEnter(s: Sys, call: Call, c: nat)
    requires Spared(s, c) && Enabled(s, Enter(call)) && !Meddles(Enter(call), s.conns[c].agent)
    ensures StillSpared(s, EnterCall(s, call), c)
  {
    var t := s.(waiting := s.waiting - multiset{call});
    match call
    case Register(b) =>
      if b in t.agents {
        RetireSpares(t, b, ThenStart(b), c);
      }
    case Deregister(b) =>
      if b in t.agents {
        RetireSpares(t, b, ThenForget(b), c);
      }
    case _ =>
  }

  lemma SparedStep(s: Sys, e: Event, c: nat)
    requires Spared(s, c) && Enabled(s, e) && !Meddles(e, s.conns[c].agent)
    ensures StillSpared(s, Apply(s, e), c)
  {
    match e
    case Inside(step) => SparedInside(s, step, c);
    case Enter(call) => SparedEnter(s, call, c);
    case PoolDelete(_) => PoolKeepsConns(s, e);
    case PoolSend(_) => PoolKeepsConns(s, e);
    case _ =>
  }

  /** Another registration of the agent, a shutdown, a sweep that finds it stale, or its own stream's failure. */
  predicate Disturbs(m: Move, c: nat, a: string) {
    || m == Other(Enter(Register(a))) || m == Other(Enter(Stop)) || m == Other(Inside(SweepVisit(a, true)))
    || m == Leaves(c, true)
  }

  ghost predicate Undisturbed(ms: seq<Move>, c: nat, a: string) {
    forall k :: 0 <= k < |ms| ==> !Disturbs(ms[k], c, a)
  }

  /** No other handler of the connection's agent is left. */
  ghost predicate Alone(w: World, c: nat) {
    forall h: nat :: !Outstanding(w, c, h)
  }

  ghost predicate Safe(w: World, c: nat) {
    HandlersOk(w) && Spared(w.sys, c) && w.handlers[c].Streaming? && Alone(w, c)
  }

  /** A move of a handler is then one of another agent's. */
  lemma SafeFromHandlers(w: World, m: Move, c: nat)
    requires Safe(w, c) && May(w, m) && !Disturbs(m, c, w.sys.conns[c].agent)
    ensures !m.Other? ==> w.sys.conns[m.c].agent != w.sys.conns[c].agent
    ensures !Meddles(Below(w, m), w.sys.conns[c].agent)
  {
    assert R.ConnOk(w.sys.agents, c, w.sys.conns[c]);
    if !m.Other? {
      assert !Outstanding(w, c, m.c);
    }
  }

  lemma AloneStays(w: World, v: World, m: Move, c: nat)
    requires |w.handlers| == |w.sys.conns| && |v.handlers| == |v.sys.conns| && Grown(w.sys.conns, v.sys.conns)
    requires !m.Other? ==> m.c < |w.handlers|
    requires forall h: nat :: h < |w.handlers| ==> v.handlers[h] == Advanced(w.handlers, m)[h]
    requires c < |w.sys.conns| && NoneAdded(w.sys.conns, v.sys.conns, w.sys.conns[c].agent)
    requires !m.Other? ==> w.sys.conns[m.c].agent != w.sys.conns[c].agent
    requires Alone(w, c)
    ensures Alone(v, c) && v.handlers[c] == w.handlers[c]
  {
    forall h: nat
      ensures !Outstanding(v, c, h)
    {
      assert !Outstanding(w, c, h);
    }
  }

  lemma SafeMove(w: World, m: Move, c: nat)
    requires Safe(w, c) && May(w, m) && !Disturbs(m, c, w.sys.conns[c].agent)
    ensures Safe(Do(w, m), c) && Do(w, m).sys.conns[c] == w.sys.conns[c]
  {
    SafeFromHandlers(w, m, c);
    SparedStep(w.sys, Below(w, m), c);
    HandlersGrow(w, m);
    AloneStays(w, Do(w, m), m, c);
    MoveKeeps(w, m);
  }

  lemma {:induction false} SafePath(w: World, ms: seq<Move>, c: nat)
    requires Safe(w, c) && IsPath(w, ms) && Undisturbed(ms, c, w.sys.conns[c].agent)
    ensures Safe(Path(w, ms), c)
    decreases |ms|
  {
    if ms != [] {
      SafeMove(w, ms[0], c);
      SafePath(Do(w, ms[0]), ms[1..], c);
    }
  }

  /** The move at which a connection joins leaves it current, its handler streaming and the mutex free. */
  lemma Joins(w: World, m: Move)
    requires HandlersOk(w) && May(w, m) && |Do(w, m).sys.conns| > |w.sys.conns|
    ensures HandlersOk(Do(w, m)) && Fresh(Do(w, m), |w.sys.conns|)
  {
    MoveKeeps(w, m);
    HandlersGrow(w, m);
    AddsCurrent(w.sys, Below(w, m));
  }

  ghost predicate Fresh(w: World, c: nat) {
    T.Current(w.sys, c) && w.sys.inside.None? && c < |w.handlers| && w.handlers[c].Streaming?
  }

  lemma InsideAddsCurrent(s: Sys, step: Step)
    requires At(s, step) && |ApplyInside(s, step).conns| > |s.conns|
    ensures T.Current(ApplyInside(s, step), |s.conns|) && ApplyInside(s, step).inside.None?
  {
  }

  lemma EnterAddsCurrent(s: Sys, call: Call)
    requires Enabled(s, Enter(call)) && |EnterCall(s, call).conns| > |s.conns|
    ensures T.Current(EnterCall(s, call), |s.conns|) && EnterCall(s, call).inside.None?
  {
  }

  lemma AddsCurrent(s: Sys, e: Event)
    requires Enabled(s, e) && |Apply(s, e).conns| > |s.conns|
    ensures T.Current(Apply(s, e), |s.conns|) && Apply(s, e).inside.None?
  {
    match e
    case Inside(step) => InsideAddsCurrent(s, step);
    case Enter(call) => EnterAddsCurrent(s, call);
    case PoolDelete(_) => PoolKeepsConns(s, e);
    case PoolSend(_) => PoolKeepsConns(s, e);
    case _ =>
  }

  /**
   Absent another registration of its agent, a stale sweep, Stop and the failure of its own stream, and once the
   agent's other handlers have deregistered: a connection is still current if and only if none of them was
   outstanding at the start, in particular when it was registered.
   */
  lemma SurvivesIff(w: World, ms: seq<Move>, c: nat)
    requires HandlersOk(w) && Fresh(w, c) && IsPath(w, ms)
    requires Undisturbed(ms, c, w.sys.conns[c].agent) && Alone(Path(w, ms), c)
    ensures T.Current(Path(w, ms).sys, c) <==> Alone(w, c)
  {
    var v := Path(w, ms);
    if Alone(w, c) {
      SafePath(w, ms, c);
      assert R.ConnOk(v.sys.agents, c, v.sys.conns[c]);
    } else {
      var h: nat :| Outstanding(w, c, h);
      PathKeeps(w, ms);
      LateExitCloses(w, ms, c, h);
      assert !Outstanding(v, c, h);
      ClosedIsNotCurrent(v.sys, c);
    }
  }

  // ---- a connection that replaced another ----

  /** The handler of a current connection has not deregistered. */
  lemma CurrentIsOutstanding(w: World, c: nat)
    requires HandlersOk(w) && T.Current(w.sys, c)
    ensures !w.handlers[c].Left?
  {
  }

  /** One call owns the registry's mutex all the way. */
  ghost predicate Held(w: World, ms: seq<Move>)
    requires IsPath(w, ms)
    decreases |ms|
  {
    ms == [] || (w.sys.inside.Some? && Held(Do(w, ms[0]), ms[1..]))
  }

  lemma {:induction false} HeldKeepsHandlers(w: World, ms: seq<Move>, h: nat)
    requires HandlersOk(w) && IsPath(w, ms) && Held(w, ms) && h < |w.handlers| && !w.handlers[h].Left?
    ensures HandlersOk(Path(w, ms)) && h < |Path(w, ms).handlers| && !Path(w, ms).handlers[h].Left?
    decreases |ms|
  {
    if ms != [] {
      MoveKeeps(w, ms[0]);
      HandlersGrow(w, ms[0]);
      HeldKeepsHandlers(Do(w, ms[0]), ms[1..], h);
    }
  }

  /**
   A registration that replaces the connection gone: once the replaced connection's handler has deregistered, the
   replacement is not current, whatever else has or has not happened.
   */
  lemma ReplacementNeverSurvives(w: World, gone: nat, ms: seq<Move>, after: seq<Move>)
    requires HandlersOk(w) && T.Current(w.sys, gone) && IsPath(w, ms) && ms != []
    requires ms[0] == Other(Enter(Register(w.sys.conns[gone].agent))) && Held(Do(w, ms[0]), ms[1..])
    requires var c := |w.sys.conns|; var v := Path(w, ms);
      && c < |v.sys.conns| && v.sys.conns[c].agent == w.sys.conns[gone].agent
      && IsPath(v, after) && gone < |Path(v, after).handlers| && Path(v, after).handlers[gone].Left?
    ensures !T.Current(Path(Path(w, ms), after).sys, |w.sys.conns|)
  {
    CurrentIsOutstanding(w, gone);
    MoveKeeps(w, ms[0]);
    HandlersGrow(w, ms[0]);
    HeldKeepsHandlers(Do(w, ms[0]), ms[1..], gone);
    var v := Path(w, ms);
    PathKeeps(w, ms);
    LateExitCloses(v, after, |w.sys.conns|, gone);
    ClosedIsNotCurrent(Path(v, after).sys, |w.sys.conns|);
  }

  // ---- it does happen ----

  lemma Then(w: World, m: Move, ms: seq<Move>)
    requires May(w, m) && IsPath(Do(w, m), ms)
    ensures IsPath(w, [m] + ms) && Path(w, [m] + ms) == Path(Do(w, m), ms)
  {
    assert ([m] + ms)[1..] == ms;
  }

  /** The system without a server manager, with these connections and calls. */
  function Bare(conns: seq<Connection>, agents: map<string, nat>, waiting: multiset<Call>, inside: Option<Pc>): Sys {
    Initial(1, 1).(conns := conns, agents := agents, waiting := waiting, inside := inside)
  }

  lemma FirstJoins() returns (ms: seq<Move>)
    ensures IsPath(Initially(1, 1), ms)
    ensures Path(Initially(1, 1), ms) ==
      World(Bare([Connection("a", 0, false, 0)], map["a" := 0], multiset{}, None), [Streaming])
  {
    var w := Initially(1, 1);
    var w1 := World(Bare([], map[], multiset{Register("a")}, None), []);
    var w2 := World(Bare([Connection("a", 0, false, 0)], map["a" := 0], multiset{}, None), [Streaming]);
    assert Do(w, Other(Arrive(Register("a")))) == w1;
    assert Do(w1, Other(Enter(Register("a")))) == w2;
    Then(w1, Other(Enter(Register("a"))), []);
    Then(w, Other(Arrive(Register("a"))), [Other(Enter(Register("a")))] + []);
    ms := [Other(Arrive(Register("a")))] + ([Other(Enter(Register("a")))] + []);
  }

  const CLOSED := Connection("a", 0, true, 1)

  lemma SecondJoins(w: World) returns (ms: seq<Move>)
    requires w == World(Bare([Connection("a", 0, false, 0)], map["a" := 0], multiset{}, None), [Streaming])
    ensures IsPath(w, ms)
    ensures Path(w, ms) ==
      World(Bare([CLOSED, Connection("a", 0, false, 0)], map["a" := 1], multiset{}, None), [Streaming, Streaming])
  {
    var w1 := World(w.sys.(waiting := multiset{Register("a")}), [Streaming]);
    var w2 := World(Bare([CLOSED], map["a" := 0], multiset{}, Some(Resuming(ThenStart("a")))), [Streaming]);
    var w3 :=
      World(Bare([CLOSED, Connection("a", 0, false, 0)], map["a" := 1], multiset{}, None), [Streaming, Streaming]);
    assert Do(w, Other(Arrive(Register("a")))) == w1;
    assert Do(w1, Other(Enter(Register("a")))) == w2;
    assert w2.sys.agents - {"a"} == map[];
    assert Do(w2, Other(Inside(Return))) == w3;
    Then(w2, Other(Inside(Return)), []);
    Then(w1, Other(Enter(Register("a"))), [Other(Inside(Return))] + []);
    ms := [Other(Enter(Register("a")))] + ([Other(Inside(Return))] + []);
    Then(w, Other(Arrive(Register("a"))), ms);
    ms := [Other(Arrive(Register("a")))] + ms;
  }

  lemma FirstLeaves(w: World) returns (ms: seq<Move>)
    requires w ==
      World(Bare([CLOSED, Connection("a", 0, false, 0)], map["a" := 1], multiset{}, None), [Streaming, Streaming])
    ensures IsPath(w, ms) && Undisturbed(ms, 1, "a")
    ensures Path(w, ms) == World(Bare([CLOSED, CLOSED], map[], multiset{}, None), [Left, Streaming])
  {
    var w1 := World(w.sys.(waiting := multiset{Deregister("a")}), [Leaving, Streaming]);
    var w2 := World(Bare([CLOSED, CLOSED], map["a" := 1], multiset{}, Some(Resuming(ThenForget("a")))), [Left, Streaming]);
    var w3 := World(Bare([CLOSED, CLOSED], map[], multiset{}, None), [Left, Streaming]);
    assert Do(w, Leaves(0, false)) == w1;
    assert Do(w1, Removes(0)) == w2;
    assert w2.sys.agents - {"a"} == map[];
    assert Do(w2, Other(Inside(Return))) == w3;
    Then(w2, Other(Inside(Return)), []);
    Then(w1, Removes(0), [Other(Inside(Return))] + []);
    Then(w, Leaves(0, false), [Removes(0)] + ([Other(Inside(Return))] + []));
    ms := [Leaves(0, false)] + ([Removes(0)] + ([Other(Inside(Return))] + []));
  }

  /**
   An agent joins and joins again.  Nothing is wrong with the second connection's stream, and yet the first
   handler's exit removes it.
   */
  lemma LateExitHappens() returns (first: seq<Move>, second: seq<Move>, after: seq<Move>)
    ensures IsPath(Initially(1, 1), first)
    ensures var w := Path(Initially(1, 1), first);
      && Fresh(w, 0) && IsPath(w, second)
      && var v := Path(w, second);
      && Fresh(v, 1) && v.sys.conns[1].agent == v.sys.conns[0].agent && IsPath(v, after)
      && Undisturbed(after, 1, v.sys.conns[1].agent) && !T.Current(Path(v, after).sys, 1)
  {
    first := FirstJoins();
    second := SecondJoins(Path(Initially(1, 1), first));
    after := FirstLeaves(Path(Path(Initially(1, 1), first), second));
  }
}
