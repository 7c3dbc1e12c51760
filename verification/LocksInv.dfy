/** Who owns AgentServerManager.mu and who is inside the pool, read off the program points. */
module LocksInv {
  import opened ThreeLayer
  import opened Basics
  import P = PoolSteps

  /** Program points between taking and giving back AgentServerManager.mu inside StartAgentServer. */
  predicate OwnsAmu(inside: Option<Pc>) {
    inside.Some? &&
    var pc := inside.value;
    pc.StartTry? || pc.StartRecord? || pc.StartBind? || pc.StartRelease? || pc.StartRequeue?
  }

  predicate InPool(inside: Option<Pc>) {
    inside.Some? &&
    var pc := inside.value;
    pc.StopRelease? || pc.StopRequeue? || pc.StartRecord? || pc.StartRelease? || pc.StartRequeue?
  }

  predicate MainPhase(ph: P.Phase, xs: seq<Instance>, pc: Pc) {
    match pc
    case StartRecord(a, _) => ph.Recording? && ph.agent == a
    case StartRelease(_, _, p) => ph.Releasing? && ph.port == p
    case StopRelease(i, _) => ph.Releasing? && i < |xs| && ph.port == xs[i].port
    case StopRequeue(_) => ph.Requeueing?
    case StartRequeue(_, _) => ph.Requeueing?
    case _ => false
  }

  predicate MainBusy(busy: map<P.Caller, P.Phase>, xs: seq<Instance>, inside: Option<Pc>) {
    if InPool(inside) then P.Main in busy && MainPhase(busy[P.Main], xs, inside.value) else P.Main !in busy
  }

  predicate Failing(x: Instance) {
    x.goroutine.FailRelease? || x.goroutine.FailRequeue?
  }

  predicate GoroutinePhase(ph: P.Phase, x: Instance) {
    if x.goroutine.FailRelease? then ph.Releasing? && ph.port == x.port else ph.Requeueing?
  }

  ghost predicate Goroutines(busy: map<P.Caller, P.Phase>, xs: seq<Instance>, amu: Option<P.Caller>) {
    && (forall c :: c in busy && c.Goroutine? ==> c.i < |xs| && Failing(xs[c.i]))
    && (forall i: nat :: i < |xs| && Failing(xs[i]) ==>
          amu == Some(P.Goroutine(i)) && P.Goroutine(i) in busy && GoroutinePhase(busy[P.Goroutine(i)], xs[i]))
    && (amu.Some? && amu.value.Goroutine? ==> amu.value.i < |xs| && Failing(xs[amu.value.i]))
  }

  predicate AmuOk(amu: Option<P.Caller>, inside: Option<Pc>) {
    amu == Some(P.Main) <==> OwnsAmu(inside)
  }

  lemma Relabels(busy: map<P.Caller, P.Phase>, xs: seq<Instance>, amu: Option<P.Caller>, i: nat, y: Instance)
    requires Goroutines(busy, xs, amu) && i < |xs|
    requires !Failing(xs[i]) && !Failing(y)
    ensures Goroutines(busy, xs[i := y], amu)
  {
  }

  ghost predicate SameButFor(m: P.Caller, busy: map<P.Caller, P.Phase>, busy': map<P.Caller, P.Phase>) {
    forall c :: c != m ==> (c in busy' <==> c in busy) && (c in busy ==> busy'[c] == busy[c])
  }

  /** The registry's call enters or leaves the pool, or takes or gives back the mutex. */
  lemma MainMoves(busy: map<P.Caller, P.Phase>, xs: seq<Instance>, amu: Option<P.Caller>,
                  busy': map<P.Caller, P.Phase>, amu': Option<P.Caller>)
    requires Goroutines(busy, xs, amu) && SameButFor(P.Main, busy, busy')
    requires amu' == amu || (amu == None && amu' == Some(P.Main)) || (amu == Some(P.Main) && amu' == None)
    ensures Goroutines(busy', xs, amu')
  {
  }

  lemma GoroutineEnters(busy: map<P.Caller, P.Phase>, xs: seq<Instance>, i: nat, y: Instance, busy': map<P.Caller, P.Phase>)
    requires Goroutines(busy, xs, None) && i < |xs| && SameButFor(P.Goroutine(i), busy, busy')
    requires Failing(y) && P.Goroutine(i) in busy' && GoroutinePhase(busy'[P.Goroutine(i)], y)
    ensures Goroutines(busy', xs[i := y], Some(P.Goroutine(i)))
  {
  }

  lemma GoroutineSteps(busy: map<P.Caller, P.Phase>, xs: seq<Instance>, amu: Option<P.Caller>,
                       i: nat, y: Instance, busy': map<P.Caller, P.Phase>)
    requires Goroutines(busy, xs, amu) && i < |xs| && SameButFor(P.Goroutine(i), busy, busy')
    requires Failing(xs[i]) && Failing(y) && P.Goroutine(i) in busy' && GoroutinePhase(busy'[P.Goroutine(i)], y)
    ensures Goroutines(busy', xs[i := y], amu)
  {
  }

  lemma GoroutineLeaves(busy: map<P.Caller, P.Phase>, xs: seq<Instance>, amu: Option<P.Caller>,
                        i: nat, y: Instance, busy': map<P.Caller, P.Phase>)
    requires Goroutines(busy, xs, amu) && i < |xs| && SameButFor(P.Goroutine(i), busy, busy')
    requires Failing(xs[i]) && !Failing(y) && P.Goroutine(i) !in busy'
    ensures Goroutines(busy', xs[i := y], None)
  {
  }

  lemma MainElsewhere(busy: map<P.Caller, P.Phase>, xs: seq<Instance>, inside: Option<Pc>,
                      i: nat, y: Instance, busy': map<P.Caller, P.Phase>)
    requires MainBusy(busy, xs, inside) && i < |xs| && y.port == xs[i].port
    requires SameButFor(P.Goroutine(i), busy, busy')
    ensures MainBusy(busy', xs[i := y], inside)
  {
  }

  /** Nobody inside the pool means no goroutine owns the mutex. */
  lemma NoGoroutineOwner(busy: map<P.Caller, P.Phase>, xs: seq<Instance>, amu: Option<P.Caller>)
    requires busy == map[] && Goroutines(busy, xs, amu)
    ensures amu == None || amu == Some(P.Main)
  {
    assert forall i: nat :: i < |xs| ==> P.Goroutine(i) !in busy;
    assert forall i: nat :: i < |xs| ==> !Failing(xs[i]);
  }
}
