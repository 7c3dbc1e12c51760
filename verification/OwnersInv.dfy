/**
 Who owns which port.  Every recorded port belongs to exactly one owner: an instance that has not given
 it back yet, or the StartAgentServer call that has just recorded it.  Every instance is closed by exactly
 one caller, and its record is removed exactly once.
 */
module OwnersInv {
  import opened ThreeLayer
  import opened Basics

  datatype Starter = Starter(agent: string, port: int)

  /** The port StartAgentServer holds between recording it and handing it to an instance or giving it back. */
  function StarterOf(inside: Option<Pc>): Option<Starter> {
    match inside
    case Some(StartBind(a, _, p)) => Some(Starter(a, p))
    case Some(StartRelease(a, _, p)) => Some(Starter(a, p))
    case _ => None
  }

  /** The instance StopAgentServer has taken out of the map and not yet released. */
  function ClosedByMain(inside: Option<Pc>): Option<nat> {
    match inside
    case Some(Draining(i, _)) => Some(i)
    case Some(StopRelease(i, _)) => Some(i)
    case _ => None
  }

  predicate Holds(x: Instance) {
    !x.stage.Released?
  }

  predicate HoldsPort(xs: seq<Instance>, i: nat, p: int) {
    i < |xs| && Holds(xs[i]) && xs[i].port == p
  }

  ghost predicate Owned(xs: seq<Instance>, st: Option<Starter>, p: int) {
    (st.Some? && st.value.port == p) || exists i: nat :: HoldsPort(xs, i, p)
  }

  ghost predicate Owners(taken: map<int, string>, xs: seq<Instance>, st: Option<Starter>) {
    && (forall i: nat :: i < |xs| && Holds(xs[i]) ==> xs[i].port in taken && taken[xs[i].port] == xs[i].agent)
    && (forall i: nat :: i < |xs| && Holds(xs[i]) && st.Some? ==> xs[i].port != st.value.port)
    && (forall i: nat, j: nat :: i < |xs| && j < |xs| && i != j && Holds(xs[i]) && Holds(xs[j]) ==> xs[i].port != xs[j].port)
    && (st.Some? ==> st.value.port in taken && taken[st.value.port] == st.value.agent)
    && (forall p :: p in taken ==> Owned(xs, st, p))
  }

  lemma StillOwned(xs: seq<Instance>, st: Option<Starter>, ys: seq<Instance>, st': Option<Starter>, p: int)
    requires Owned(xs, st, p) && (st.Some? && st.value.port == p ==> Owned(ys, st', p))
    requires forall i: nat :: HoldsPort(xs, i, p) ==> HoldsPort(ys, i, p)
    ensures Owned(ys, st', p)
  {
  }

  lemma Records(taken: map<int, string>, xs: seq<Instance>, a: string, p: int)
    requires Owners(taken, xs, None) && p !in taken
    ensures Owners(taken[p := a], xs, Some(Starter(a, p)))
  {
    forall q | q in taken
      ensures Owned(xs, Some(Starter(a, p)), q)
    {
      StillOwned(xs, None, xs, Some(Starter(a, p)), q);
    }
  }

  lemma HandsOver(taken: map<int, string>, xs: seq<Instance>, y: Instance)
    requires Owners(taken, xs, Some(Starter(y.agent, y.port))) && Holds(y)
    ensures Owners(taken, xs + [y], None)
  {
    var ys := xs + [y];
    forall q | q in taken
      ensures Owned(ys, None, q)
    {
      if q == y.port {
        assert HoldsPort(ys, |xs|, q);
      }
      StillOwned(xs, Some(Starter(y.agent, y.port)), ys, None, q);
    }
  }

  lemma StarterReleases(taken: map<int, string>, xs: seq<Instance>, st: Starter)
    requires Owners(taken, xs, Some(st))
    ensures Owners(taken - {st.port}, xs, None)
  {
    forall q | q in taken - {st.port}
      ensures Owned(xs, None, q)
    {
      StillOwned(xs, Some(st), xs, None, q);
    }
  }

  lemma InstanceReleases(taken: map<int, string>, xs: seq<Instance>, st: Option<Starter>, i: nat, y: Instance)
    requires Owners(taken, xs, st) && i < |xs| && Holds(xs[i]) && !Holds(y)
    ensures Owners(taken - {xs[i].port}, xs[i := y], st)
  {
    var ys := xs[i := y];
    forall q | q in taken - {xs[i].port}
      ensures Owned(ys, st, q)
    {
      StillOwned(xs, st, ys, st, q);
    }
  }

  lemma Relabels(taken: map<int, string>, xs: seq<Instance>, st: Option<Starter>, i: nat, y: Instance)
    requires Owners(taken, xs, st) && i < |xs|
    requires y.agent == xs[i].agent && y.port == xs[i].port && (Holds(y) <==> Holds(xs[i]))
    ensures Owners(taken, xs[i := y], st)
  {
    var ys := xs[i := y];
    forall q | q in taken
      ensures Owned(ys, st, q)
    {
      StillOwned(xs, st, ys, st, q);
    }
  }

  /** With no starter and every instance released, no port is recorded. */
  lemma NoneTaken(taken: map<int, string>, xs: seq<Instance>)
    requires Owners(taken, xs, None) && forall i: nat :: i < |xs| ==> !Holds(xs[i])
    ensures taken == map[]
  {
    assert forall p :: !Owned(xs, None, p);
    assert forall p :: p !in taken;
  }

  // ---- how far each instance is ----

  predicate StageOk(x: Instance, closedByMain: bool) {
    && x.releases == (if x.stage.Released? then 1 else 0)
    && (x.stage.Closing? <==> closedByMain || x.goroutine.FailRelease?)
    && !(closedByMain && x.goroutine.FailRelease?)
    && (x.goroutine.FailRequeue? ==> x.stage.Released?)
  }

  ghost predicate Stages(xs: seq<Instance>, m: Option<nat>) {
    && (m.Some? ==> m.value < |xs|)
    && (forall i: nat :: i < |xs| ==> StageOk(xs[i], m == Some(i)))
  }

  /** One instance moves on; m and m' are what the registry's call was and is closing. */
  lemma StageMoves(xs: seq<Instance>, m: Option<nat>, i: nat, y: Instance, m': Option<nat>)
    requires Stages(xs, m) && i < |xs| && StageOk(y, m' == Some(i))
    requires m' == m || ((m == None || m == Some(i)) && (m' == None || m' == Some(i)))
    ensures Stages(xs[i := y], m')
  {
  }
}
