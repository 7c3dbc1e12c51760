/**
 The life of one server instance in every interleaving: which events start it, take it out of the map, release
 its port and end its goroutine, and no others.
 */
module ServerLives {
  import opened Basics
  import P = PoolSteps
  import opened ThreeLayer
  import opened ThreeLayerInv
  import V = ServersInv
  import O = OwnersInv
  import L = LocksInv
  import T = ThreeLayerTheorems
  import G = ThreeLayerProgress

  predicate IsLive(s: Sys, i: nat) {
    i < |s.instances| && s.instances[i].agent in s.servers && s.servers[s.instances[i].agent] == i
  }

  /** StopAgentServer has taken the instance out of the map and not yet released its port. */
  predicate BeingStopped(s: Sys, i: nat) {
    s.inside.Some? &&
    match s.inside.value
    case Draining(j, _) => i == j
    case StopRelease(j, _) => i == j
    case _ => false
  }

  /** A cleanup of the instance itself, or StopAgentServer for its agent. */
  predicate TakesOut(s: Sys, e: Event, i: nat)
    requires i < |s.instances|
  {
    || e == CleanUp(i)
    || (e == Inside(StopServer) && s.inside.Some? && s.inside.value.StopWait? && s.inside.value.agent == s.instances[i].agent)
  }

  /** The deletion of its port's record by whoever took it out. */
  predicate RemovesRecord(s: Sys, e: Event, i: nat) {
    || e == PoolDelete(P.Goroutine(i))
    || (e == PoolDelete(P.Main) && s.inside.Some? && s.inside.value.StopRelease? && s.inside.value.i == i)
  }

  function NextStage(s: Sys, e: Event, i: nat): Stage
    requires i < |s.instances|
  {
    match s.instances[i].stage
    case Live => if TakesOut(s, e, i) then Closing else Live
    case Closing => if RemovesRecord(s, e, i) then Released else Closing
    case Released => Released
  }

  function NextServe(s: Sys, e: Event, i: nat): Serve
    requires i < |s.instances|
  {
    match s.instances[i].goroutine
    case Serving => if e == ServeReturns(i) then Gone else if e == ServeFails(i) then FailWait else Serving
    case FailWait =>
      if e == CleanUp(i) then (if s.instances[i].stage.Live? then FailRelease else Gone) else FailWait
    case FailRelease => if e == PoolDelete(P.Goroutine(i)) then FailRequeue else FailRelease
    case FailRequeue => if e == PoolSend(P.Goroutine(i)) then Gone else FailRequeue
    case Gone => Gone
  }

  /** The instance after the event. */
  function Next(s: Sys, e: Event, i: nat): Instance
    requires i < |s.instances|
  {
    var x := s.instances[i];
    Instance(x.agent, x.port, NextStage(s, e, i), NextServe(s, e, i),
             if x.stage.Closing? && RemovesRecord(s, e, i) then x.releases + 1 else x.releases)
  }

  lemma StopServerLives(s: Sys, i: nat)
    requires V.Servers(s.servers, s.instances, s.agents, s.conns, V.ViewOf(s.inside)) && At(s, StopServer)
    requires i < |s.instances|
    ensures i < |ApplyInside(s, StopServer).instances| && ApplyInside(s, StopServer).instances[i] == Next(s, Inside(StopServer), i)
  {
  }

  lemma InsideKeeps(s: Sys, step: Step)
    requires At(s, step) && !step.StopServer?
    ensures s.instances <= ApplyInside(s, step).instances
  {
  }

  lemma InsideLives(s: Sys, step: Step, i: nat)
    requires V.Servers(s.servers, s.instances, s.agents, s.conns, V.ViewOf(s.inside)) && At(s, step) && i < |s.instances|
    ensures i < |ApplyInside(s, step).instances| && ApplyInside(s, step).instances[i] == Next(s, Inside(step), i)
  {
    if step.StopServer? {
      StopServerLives(s, i);
    } else {
      InsideKeeps(s, step);
    }
  }

  lemma EnterLives(s: Sys, call: Call)
    requires Enabled(s, Enter(call))
    ensures EnterCall(s, call).instances == s.instances
  {
  }

  /** Whoever deletes a recorded port marks the instance it is releasing, if it is one's, and no other. */
  lemma DeleteMarks(s: Sys, c: P.Caller, i: nat)
    requires P.Enabled(s.pool, P.Delete(c)) && KnowsCaller(s, c) && s.pool.busy[c].port in s.pool.taken
    requires c.Main? ==> s.inside.value.StopRelease? || s.inside.value.StartRelease?
    requires i < |s.instances|
    ensures var y := DeleteResult(s, c).instances;
      && |y| == |s.instances|
      && y[i] == if c == P.Goroutine(i) then MarkReleased(s.instances[i]).(goroutine := FailRequeue)
                 else if c.Main? && s.inside.value.StopRelease? && s.inside.value.i == i then MarkReleased(s.instances[i])
                 else s.instances[i]
  {
  }

  lemma DeleterClosed(s: Sys, c: P.Caller)
    requires Inv(s) && Enabled(s, PoolDelete(c))
    ensures s.pool.busy[c].port in s.pool.taken
    ensures c.Main? ==> s.inside.value.StopRelease? || s.inside.value.StartRelease?
    ensures c.Goroutine? ==> s.instances[c.i].stage.Closing? && s.instances[c.i].goroutine.FailRelease?
    ensures c.Main? && s.inside.value.StopRelease? ==>
      s.instances[s.inside.value.i].stage.Closing? && !s.instances[s.inside.value.i].goroutine.FailRelease?
  {
    ReleaseFindsItsRecord(s, c);
    if c.Goroutine? {
      assert L.Failing(s.instances[c.i]);
      assert O.StageOk(s.instances[c.i], O.ClosedByMain(s.inside) == Some(c.i));
    } else if s.inside.value.StopRelease? {
      assert O.StageOk(s.instances[s.inside.value.i], true);
    }
  }

  lemma DeleteNext(s: Sys, c: P.Caller, i: nat)
    requires i < |s.instances| && KnowsCaller(s, c)
    requires c.Goroutine? ==> s.instances[c.i].stage.Closing? && s.instances[c.i].goroutine.FailRelease?
    requires c.Main? && s.inside.value.StopRelease? ==>
      s.instances[s.inside.value.i].stage.Closing? && !s.instances[s.inside.value.i].goroutine.FailRelease?
    ensures Next(s, PoolDelete(c), i) ==
      if c == P.Goroutine(i) then MarkReleased(s.instances[i]).(goroutine := FailRequeue)
      else if c.Main? && s.inside.value.StopRelease? && s.inside.value.i == i then MarkReleased(s.instances[i])
      else s.instances[i]
  {
  }

  lemma DeleteLives(s: Sys, c: P.Caller, i: nat)
    requires Inv(s) && Enabled(s, PoolDelete(c)) && i < |s.instances|
    ensures i < |DeleteResult(s, c).instances| && DeleteResult(s, c).instances[i] == Next(s, PoolDelete(c), i)
  {
    DeleterClosed(s, c);
    DeleteMarks(s, c, i);
    DeleteNext(s, c, i);
  }

  lemma SendLives(s: Sys, c: P.Caller, i: nat)
    requires MutexInv(s) && Enabled(s, PoolSend(c)) && i < |s.instances|
    ensures i < |Apply(s, PoolSend(c)).instances| && Apply(s, PoolSend(c)).instances[i] == Next(s, PoolSend(c), i)
  {
    assert c.Goroutine? ==> L.Failing(s.instances[c.i]);
  }

  lemma CleanUpLives(s: Sys, j: nat, i: nat)
    requires FrontInv(s) && Enabled(s, CleanUp(j)) && i < |s.instances|
    ensures i < |CleanUpResult(s, j).instances| && CleanUpResult(s, j).instances[i] == Next(s, CleanUp(j), i)
  {
  }

  lemma OtherLives(s: Sys, e: Event, i: nat)
    requires Enabled(s, e) && i < |s.instances|
    requires e.Arrive? || e.InstallManager? || e.ServeReturns? || e.ServeFails? || e.PoolLock?
    ensures i < |Apply(s, e).instances| && Apply(s, e).instances[i] == Next(s, e, i)
  {
  }

  lemma LifeStep(s: Sys, e: Event, i: nat)
    requires Inv(s) && Enabled(s, e) && i < |s.instances|
    ensures i < |Apply(s, e).instances| && Apply(s, e).instances[i] == Next(s, e, i)
  {
    match e
    case Inside(step) => InsideLives(s, step, i);
    case Enter(call) => EnterLives(s, call);
    case PoolDelete(c) => DeleteLives(s, c, i);
    case PoolSend(c) => SendLives(s, c, i);
    case CleanUp(j) => CleanUpLives(s, j, i);
    case _ => OtherLives(s, e, i);
  }

  /** Only a successful bind starts an instance: for the agent and on the port that StartAgentServer is at. */
  lemma BirthStep(s: Sys, e: Event)
    requires Enabled(s, e)
    ensures var xs, ys := s.instances, Apply(s, e).instances;
      && |ys| == |xs| + (if e == Inside(Bind(true)) then 1 else 0)
      && (e == Inside(Bind(true)) ==> ys[|xs|] == Instance(s.inside.value.agent, s.inside.value.port, Live, Serving, 0))
  {
    if e.PoolDelete? || e.PoolSend? {
      ReleaseKeepsCount(s, e);
    }
  }

  lemma ReleaseKeepsCount(s: Sys, e: Event)
    requires Enabled(s, e) && (e.PoolDelete? || e.PoolSend?)
    ensures |Apply(s, e).instances| == |s.instances|
  {
  }

  /** In every interleaving: an instance changes with the events named above and with no others. */
  lemma LifeCycle(lo: int, hi: int, es: seq<Event>, e: Event)
    requires T.IsHistory(lo, hi, es) && Enabled(T.After(lo, hi, es), e)
    ensures var s := T.After(lo, hi, es);
      var t := Apply(s, e);
      && |t.instances| == |s.instances| + (if e == Inside(Bind(true)) then 1 else 0)
      && (forall i: nat :: i < |s.instances| ==> t.instances[i] == Next(s, e, i))
      && (forall a, i: nat :: a in t.servers && t.servers[a] == i <==>
            i < |t.instances| && t.instances[i].agent == a && t.instances[i].stage.Live?)
  {
    T.Reached(lo, hi, es);
    var s := T.After(lo, hi, es);
    BirthStep(s, e);
    StepInv(s, e);
    MapIsLive(Apply(s, e));
    forall i: nat | i < |s.instances|
      ensures Apply(s, e).instances[i] == Next(s, e, i)
    {
      LifeStep(s, e, i);
    }
  }

  lemma MapIsLive(s: Sys)
    requires FrontInv(s)
    ensures forall a, i: nat :: a in s.servers && s.servers[a] == i <==>
      i < |s.instances| && s.instances[i].agent == a && s.instances[i].stage.Live?
  {
  }

  /** A cleanup, whoever else is where, acts on its own instance exactly if the map still holds it. */
  lemma CleanUpActs(lo: int, hi: int, es: seq<Event>, i: nat)
    requires T.IsHistory(lo, hi, es) && Enabled(T.After(lo, hi, es), CleanUp(i))
    ensures var s := T.After(lo, hi, es);
      var t := Apply(s, CleanUp(i));
      && (IsLive(s, i) ==>
            && t.servers == s.servers - {s.instances[i].agent} && t.amu == Some(P.Goroutine(i))
            && t.pool.busy == s.pool.busy[P.Goroutine(i) := P.Releasing(s.instances[i].port, false)]
            && t.instances[i].stage.Closing? && t.instances[i].goroutine.FailRelease?)
      && (!IsLive(s, i) ==>
            t.servers == s.servers && t.amu == s.amu && t.pool == s.pool && t.instances[i].goroutine.Gone?)
      && t.pool.free == s.pool.free && t.pool.taken == s.pool.taken
      && |t.instances| == |s.instances| && (forall j :: 0 <= j < |s.instances| && j != i ==> t.instances[j] == s.instances[j])
      && t.agents == s.agents && t.conns == s.conns && t.inside == s.inside && t.waiting == s.waiting
  {
  }

  /**
   Whatever has happened, serving can end both ways: an orderly return only ends the goroutine, and a failure leaves
   the server in the map until its cleanup gets the mutex.
   */
  lemma ServingEnds(lo: int, hi: int, es: seq<Event>, i: nat)
    requires T.IsHistory(lo, hi, es) && i < |T.After(lo, hi, es).instances|
    requires T.After(lo, hi, es).instances[i].goroutine.Serving?
    ensures var s := T.After(lo, hi, es);
      && Enabled(s, ServeReturns(i)) && Enabled(s, ServeFails(i))
      && Apply(s, ServeReturns(i)) == s.(instances := s.instances[i := s.instances[i].(goroutine := Gone)])
      && Apply(s, ServeFails(i)) == s.(instances := s.instances[i := s.instances[i].(goroutine := FailWait)])
      && (s.amu.None? ==> Enabled(Apply(s, ServeFails(i)), CleanUp(i)))
  {
    T.Reached(lo, hi, es);
    StepInv(T.After(lo, hi, es), ServeFails(i));
  }

  /** StopAgentServer takes out its agent's instance, if there is one, and goes on to drain exactly that. */
  lemma StopActs(lo: int, hi: int, es: seq<Event>)
    requires T.IsHistory(lo, hi, es) && Enabled(T.After(lo, hi, es), Inside(StopServer))
    ensures var s := T.After(lo, hi, es);
      var t := Apply(s, Inside(StopServer));
      var a, k := s.inside.value.agent, s.inside.value.k;
      && t.servers == s.servers - {a} && t.pool == s.pool && t.amu == s.amu && t.agents == s.agents && t.conns == s.conns
      && t.inside == Some(if a in s.servers then Draining(s.servers[a], k) else Resuming(k))
  {
  }

  // ---- what has become of a server that failed ----

  /** Waiting for its cleanup, or out of the map. */
  predicate Failing(s: Sys, i: nat) {
    i < |s.instances| && FailingInstance(s.instances[i])
  }

  predicate TakenOut(s: Sys, i: nat) {
    i < |s.instances| && !s.instances[i].stage.Live?
  }

  predicate FailingInstance(x: Instance) {
    !x.goroutine.Serving? && (x.goroutine.FailWait? || !x.stage.Live?)
  }

  lemma NextKeeps(s: Sys, e: Event, i: nat)
    requires i < |s.instances|
    ensures var x, y := s.instances[i], Next(s, e, i);
      && (!x.stage.Live? || e == CleanUp(i) ==> !y.stage.Live?)
      && (FailingInstance(x) || (e == ServeFails(i) && x.goroutine.Serving?) ==> FailingInstance(y))
  {
  }

  lemma EnabledKnows(s: Sys, e: Event, i: nat)
    requires Enabled(s, e) && (e == CleanUp(i) || e == ServeFails(i))
    ensures i < |s.instances| && (e.ServeFails? ==> s.instances[i].goroutine.Serving?)
  {
  }

  lemma OutStep(s: Sys, e: Event, i: nat)
    requires Inv(s) && Enabled(s, e)
    ensures TakenOut(s, i) || e == CleanUp(i) ==> TakenOut(Apply(s, e), i)
    ensures Failing(s, i) || e == ServeFails(i) ==> Failing(Apply(s, e), i)
  {
    if e == CleanUp(i) || e == ServeFails(i) {
      EnabledKnows(s, e, i);
    }
    if i < |s.instances| {
      LifeStep(s, e, i);
      NextKeeps(s, e, i);
    }
  }

  /** The two facts about instance i that no event undoes. */
  ghost predicate Holds(s: Sys, i: nat, out: bool, failing: bool) {
    (out ==> TakenOut(s, i)) && (failing ==> Failing(s, i))
  }

  lemma {:induction false} EventTells(s: Sys, es: seq<Event>, i: nat, out: bool, failing: bool)
    requires Inv(s) && IsRun(s, es) && Holds(s, i, out, failing)
    ensures Holds(Run(s, es), i, out || CleanUp(i) in es, failing || ServeFails(i) in es)
    decreases |es|
  {
    if es != [] {
      OutStep(s, es[0], i);
      StepInv(s, es[0]);
      EventTells(Apply(s, es[0]), es[1..], i, out || es[0] == CleanUp(i), failing || es[0] == ServeFails(i));
      InTail(es, CleanUp(i));
      InTail(es, ServeFails(i));
    }
  }

  lemma InTail(es: seq<Event>, e: Event)
    requires es != []
    ensures e in es <==> e == es[0] || e in es[1..]
  {
    assert es == [es[0]] + es[1..];
  }

  /**
   After every history in which instance i was cleaned up after a failure, it is not in the map; and once its
   goroutine has ended its port has been released exactly once, unless StopAgentServer came first and is still
   about to release it.
   */
  lemma CleanedUp(lo: int, hi: int, es: seq<Event>, i: nat)
    requires T.IsHistory(lo, hi, es) && CleanUp(i) in es
    ensures var s := T.After(lo, hi, es);
      && i < |s.instances| && !IsLive(s, i)
      && (s.instances[i].goroutine.Gone? ==> s.instances[i].releases == if BeingStopped(s, i) then 0 else 1)
  {
    T.Reached(lo, hi, es);
    InitialInv(lo, hi);
    EventTells(Initial(lo, hi), es, i, false, false);
    var s := T.After(lo, hi, es);
    MapIsLive(s);
    assert O.StageOk(s.instances[i], O.ClosedByMain(s.inside) == Some(i));
  }

  /** At rest every server that ever failed is out of the map and has released its port exactly once. */
  lemma FailedAtRest(lo: int, hi: int, es: seq<Event>, i: nat)
    requires T.IsHistory(lo, hi, es) && ServeFails(i) in es && G.AtRest(T.After(lo, hi, es))
    ensures var s := T.After(lo, hi, es);
      i < |s.instances| && !IsLive(s, i) && s.instances[i].releases == 1 && s.instances[i].goroutine.Gone?
  {
    T.Reached(lo, hi, es);
    InitialInv(lo, hi);
    EventTells(Initial(lo, hi), es, i, false, false);
    var s := T.After(lo, hi, es);
    MapIsLive(s);
    assert O.StageOk(s.instances[i], O.ClosedByMain(s.inside) == Some(i));
  }
}
