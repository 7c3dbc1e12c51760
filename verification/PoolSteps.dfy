/**
 The port pool under concurrency.

 PortManager keeps its free ports in a buffered channel and its allocations in a map with
 its own mutex, so Allocate and Release are each two separate actions: Allocate receives from
 the channel and then records the port under the mutex, Release removes the record under the
 mutex and then sends the port back.  Any number of callers may be between those halves.

 Nothing is assumed about the callers: any of them may release any port at any time, including
 a port that is free, that belongs to somebody else, or that is being released already.
 */
module PoolSteps {
  import opened Basics

  /**
   Whoever calls the pool: the one call that owns the registry's mutex, or any of the goroutines.
   Only their being distinct and unboundedly many matters here.
   */
  datatype Caller = Main | Goroutine(i: nat)

  /** Where a caller stands inside Allocate or Release; `locked` says it holds the map's mutex. */
  datatype Phase =
    | Recording(port: int, agent: string, locked: bool)   // received, not yet in the map
    | Releasing(port: int, locked: bool)                  // not yet looked up
    | Requeueing(port: int)                               // out of the map, not yet sent back
  {
    /** The port is in this caller's hands: in neither the channel nor the map. */
    predicate Carrying() {
      !Releasing?
    }

    predicate Carries(p: int) {
      Carrying() && port == p
    }

    predicate Locked() {
      !Requeueing? && locked
    }
  }

  datatype Pool = Pool(
    lo: int,
    hi: int,
    free: seq<int>,
    taken: map<int, string>,
    mu: Option<Caller>,
    busy: map<Caller, Phase>)

  datatype Event =
    | Receive(c: Caller, agent: string)       // Allocate takes the head of the channel
    | BeginRelease(c: Caller, port: int)      // Release is called
    | Lock(c: Caller)                         // either of them takes the mutex
    | Record(c: Caller)                       // Allocate writes the map and unlocks
    | Delete(c: Caller)                       // Release looks up, deletes if present, unlocks
    | Send(c: Caller)                         // Release sends on the channel

  function Initial(lo: int, hi: int): Pool
    requires lo <= hi + 1
  {
    Pool(lo, hi, PortRange(lo, hi), map[], None, map[])
  }

  function Capacity(p: Pool): int {
    p.hi - p.lo + 1
  }

  predicate Enabled(p: Pool, e: Event) {
    match e
    case Receive(c, _) => c !in p.busy && p.free != []
    case BeginRelease(c, _) => c !in p.busy
    case Lock(c) => c in p.busy && !p.busy[c].Requeueing? && !p.busy[c].locked && p.mu.None?
    case Record(c) => c in p.busy && p.busy[c].Recording? && p.busy[c].locked
    case Delete(c) => c in p.busy && p.busy[c].Releasing? && p.busy[c].locked
    case Send(c) => c in p.busy && p.busy[c].Requeueing? && |p.free| < Capacity(p)
  }

  function Apply(p: Pool, e: Event): Pool
    requires Enabled(p, e)
  {
    match e
    case Receive(c, agent) =>
      p.(free := p.free[1..], busy := p.busy[c := Recording(p.free[0], agent, false)])
    case BeginRelease(c, port) =>
      p.(busy := p.busy[c := Releasing(port, false)])
    case Lock(c) =>
      p.(mu := Some(c), busy := p.busy[c := p.busy[c].(locked := true)])
    case Record(c) =>
      p.(mu := None, busy := p.busy - {c},
         taken := p.taken[p.busy[c].port := p.busy[c].agent])
    case Delete(c) =>
      var port := p.busy[c].port;
      if port in p.taken then
        p.(mu := None, busy := p.busy[c := Requeueing(port)], taken := p.taken - {port})
      else
        p.(mu := None, busy := p.busy - {c})
    case Send(c) =>
      p.(free := p.free + [p.busy[c].port], busy := p.busy - {c})
  }

  ghost predicate Carried(p: Pool, port: int) {
    exists c :: c in p.busy && p.busy[c].Carries(port)
  }

  ghost predicate InRange(p: Pool, port: int) {
    p.lo <= port <= p.hi
  }

  ghost predicate Disjoint(p: Pool) {
    && Distinct(p.free)
    && (forall x :: x in p.free ==> InRange(p, x) && x !in p.taken)
    && (forall x :: x in p.taken ==> InRange(p, x))
    && (forall c :: c in p.busy && p.busy[c].Carrying() ==>
          InRange(p, p.busy[c].port) && p.busy[c].port !in p.free && p.busy[c].port !in p.taken)
    && (forall c, d :: c in p.busy && d in p.busy && c != d && p.busy[c].Carrying() && p.busy[d].Carrying() ==>
          p.busy[c].port != p.busy[d].port)
  }

  ghost predicate Covered(p: Pool) {
    forall x :: InRange(p, x) ==> x in p.free || x in p.taken || Carried(p, x)
  }

  ghost predicate LockHeld(p: Pool) {
    && (forall c :: c in p.busy && p.busy[c].Locked() ==> p.mu == Some(c))
    && (p.mu.Some? ==> p.mu.value in p.busy && p.busy[p.mu.value].Locked())
  }

  ghost predicate Inv(p: Pool) {
    p.lo <= p.hi + 1 && Disjoint(p) && Covered(p) && LockHeld(p)
  }

  lemma InitialInv(lo: int, hi: int)
    requires lo <= hi + 1
    ensures Inv(Initial(lo, hi))
  {
    RangeElements(lo, hi);
  }

  /** The caller that a step belongs to. */
  function Actor(e: Event): Caller {
    e.c
  }

  /** A step changes no other caller's position, so what others carry they still carry. */
  lemma OthersStillCarry(p: Pool, e: Event, x: int, c: Caller)
    requires Enabled(p, e) && c in p.busy && p.busy[c].Carries(x) && c != Actor(e)
    ensures Carried(Apply(p, e), x)
  {
    var q := Apply(p, e);
    assert c in q.busy && q.busy[c] == p.busy[c];
  }

  lemma CoveredStep(p: Pool, e: Event)
    requires Inv(p) && Enabled(p, e)
    ensures Covered(Apply(p, e))
  {
    var q := Apply(p, e);
    var c := Actor(e);
    forall x | InRange(q, x)
      ensures x in q.free || x in q.taken || Carried(q, x)
    {
      if Carried(p, x) {
        var d :| d in p.busy && p.busy[d].Carries(x);
        if d != c {
          OthersStillCarry(p, e, x, d);
        } else if e.Lock? {
          assert c in q.busy && q.busy[c].Carries(x);
        } else if e.Send? {
          assert q.free[|q.free| - 1] == x;
        }
      } else if x in p.free {
        if e.Receive? && x == p.free[0] {
          assert c in q.busy && q.busy[c].Carries(x);
        }
      } else if e.Delete? && x == p.busy[c].port {
        assert c in q.busy && q.busy[c].Carries(x);
      }
    }
  }

  lemma DisjointReceive(p: Pool, c: Caller, agent: string)
    requires Disjoint(p) && Enabled(p, Receive(c, agent))
    ensures Disjoint(Apply(p, Receive(c, agent)))
  {
    assert p.free == [p.free[0]] + p.free[1..];
    assert forall x :: x in p.free <==> x == p.free[0] || x in p.free[1..];
  }

  lemma DisjointSend(p: Pool, c: Caller)
    requires Disjoint(p) && Enabled(p, Send(c))
    ensures Disjoint(Apply(p, Send(c)))
  {
    DistinctAppend(p.free, p.busy[c].port);
  }

  lemma DisjointStep(p: Pool, e: Event)
    requires Disjoint(p) && Enabled(p, e)
    ensures Disjoint(Apply(p, e))
  {
    match e
    case Receive(c, agent) => DisjointReceive(p, c, agent);
    case Send(c) => DisjointSend(p, c);
    case BeginRelease(_, _) =>
    case Lock(_) =>
    case Record(_) =>
    case Delete(_) =>
  }

  lemma StepInv(p: Pool, e: Event)
    requires Inv(p) && Enabled(p, e)
    ensures Inv(Apply(p, e))
  {
    DisjointStep(p, e);
    CoveredStep(p, e);
  }

  // ---- runs ----

  ghost predicate IsRun(p: Pool, es: seq<Event>)
    decreases |es|
  {
    es == [] || (Enabled(p, es[0]) && IsRun(Apply(p, es[0]), es[1..]))
  }

  ghost function Run(p: Pool, es: seq<Event>): Pool
    requires IsRun(p, es)
    decreases |es|
  {
    if es == [] then p else Run(Apply(p, es[0]), es[1..])
  }

  lemma {:induction false} RunInv(p: Pool, es: seq<Event>)
    requires Inv(p) && IsRun(p, es)
    ensures Inv(Run(p, es)) && Run(p, es).lo == p.lo && Run(p, es).hi == p.hi
    decreases |es|
  {
    if es != [] {
      StepInv(p, es[0]);
      RunInv(Apply(p, es[0]), es[1..]);
    }
  }

  /**
   After any interleaving of any callers, every port of the range is in exactly one place: in the
   channel (once), in the allocation map, or in the hands of exactly one caller.
   */
  lemma Partition(lo: int, hi: int, es: seq<Event>, x: int)
    requires lo <= hi + 1 && IsRun(Initial(lo, hi), es)
    requires lo <= x <= hi
    ensures var p := Run(Initial(lo, hi), es);
      && multiset(p.free)[x] <= 1
      && (x in p.free || x in p.taken || Carried(p, x))
      && !(x in p.free && x in p.taken)
      && !(x in p.free && Carried(p, x))
      && !(x in p.taken && Carried(p, x))
      && (forall c, d :: c in p.busy && d in p.busy && p.busy[c].Carries(x) && p.busy[d].Carries(x) ==> c == d)
  {
    InitialInv(lo, hi);
    RunInv(Initial(lo, hi), es);
    var p := Run(Initial(lo, hi), es);
    assert Inv(p) && InRange(p, x);
    DistinctCounts(p.free, x);
  }

  /** The other half of the partition: nothing outside the range is ever free, recorded or carried. */
  lemma NothingForeign(lo: int, hi: int, es: seq<Event>, x: int)
    requires lo <= hi + 1 && IsRun(Initial(lo, hi), es)
    requires x < lo || hi < x
    ensures var p := Run(Initial(lo, hi), es);
      x !in p.free && x !in p.taken && !Carried(p, x)
  {
    InitialInv(lo, hi);
    RunInv(Initial(lo, hi), es);
    assert !InRange(Run(Initial(lo, hi), es), x);
  }

  /** Whenever a port is on its way back, the channel has room for it. */
  lemma RoomToSend(p: Pool, c: Caller)
    requires Inv(p) && c in p.busy && p.busy[c].Requeueing?
    ensures Enabled(p, Send(c))
  {
    assert p.busy[c].Carries(p.busy[c].port);
    assert InRange(p, p.busy[c].port);
    MissingLeavesRoom(p.free, p.lo, p.hi, p.busy[c].port);
  }

  /** The blocking send at the end of Release never blocks, in any interleaving. */
  lemma ReleaseNeverBlocks(lo: int, hi: int, es: seq<Event>, c: Caller)
    requires lo <= hi + 1 && IsRun(Initial(lo, hi), es)
    requires var p := Run(Initial(lo, hi), es); c in p.busy && p.busy[c].Requeueing?
    ensures Enabled(Run(Initial(lo, hi), es), Send(c))
  {
    InitialInv(lo, hi);
    RunInv(Initial(lo, hi), es);
    RoomToSend(Run(Initial(lo, hi), es), c);
  }

  /** With nothing recorded and nobody inside an operation, the channel holds the whole range again. */
  lemma QuietPoolIsFull(p: Pool)
    requires Inv(p) && p.taken == map[] && p.busy == map[]
    ensures multiset(p.free) == multiset(PortRange(p.lo, p.hi))
  {
    RangeElements(p.lo, p.hi);
    forall x
      ensures x in p.free <==> x in PortRange(p.lo, p.hi)
    {
      assert InRange(p, x) <==> p.lo <= x <= p.hi;
    }
    SameElementsPermute(p.free, PortRange(p.lo, p.hi));
  }

  // ---- the order of the ports, and whose they are ----

  /** The ports received from the channel in a run, in order, and those sent to it. */
  ghost function Received(p: Pool, es: seq<Event>): seq<int>
    requires IsRun(p, es)
    decreases |es|
  {
    if es == [] then []
    else (if es[0].Receive? then [p.free[0]] else []) + Received(Apply(p, es[0]), es[1..])
  }

  ghost function SentBack(p: Pool, es: seq<Event>): seq<int>
    requires IsRun(p, es)
    decreases |es|
  {
    if es == [] then []
    else (if es[0].Send? then [p.busy[es[0].c].port] else []) + SentBack(Apply(p, es[0]), es[1..])
  }

  lemma QueueStep(p: Pool, e: Event)
    requires Enabled(p, e)
    ensures (if e.Receive? then [p.free[0]] else []) + Apply(p, e).free ==
      p.free + if e.Send? then [p.busy[e.c].port] else []
  {
  }

  /** First in, first out, whoever takes and whoever sends: no port is overtaken. */
  lemma {:induction false} FirstInFirstOut(p: Pool, es: seq<Event>)
    requires IsRun(p, es)
    ensures Received(p, es) + Run(p, es).free == p.free + SentBack(p, es)
    decreases |es|
  {
    if es != [] {
      var q := Apply(p, es[0]);
      QueueStep(p, es[0]);
      FirstInFirstOut(q, es[1..]);
      var out := if es[0].Receive? then [p.free[0]] else [];
      var back := if es[0].Send? then [p.busy[es[0].c].port] else [];
      assert Received(p, es) + Run(p, es).free == out + (Received(q, es[1..]) + Run(q, es[1..]).free);
      assert out + (q.free + SentBack(q, es[1..])) == (out + q.free) + SentBack(q, es[1..]);
      assert (p.free + back) + SentBack(q, es[1..]) == p.free + SentBack(p, es);
    }
  }

  /** Whose port x is after the event: a record says so, a deletion takes it away, nothing else matters. */
  function OwnerAfter(p: Pool, e: Event, x: int): Option<string>
    requires Enabled(p, e)
  {
    if e.Record? && p.busy[e.c].port == x then Some(p.busy[e.c].agent)
    else if e.Delete? && p.busy[e.c].port == x then None
    else if x in p.taken then Some(p.taken[x]) else None
  }

  lemma OwnerStep(p: Pool, e: Event, x: int)
    requires Enabled(p, e)
    ensures x in Apply(p, e).taken <==> OwnerAfter(p, e, x).Some?
    ensures x in Apply(p, e).taken ==> Apply(p, e).taken[x] == OwnerAfter(p, e, x).value
  {
  }
}
