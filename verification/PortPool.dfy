/** The port pool as its callers use it one at a time: PortManager, and the order in which ports come round. */
module PortPool {
  import opened Basics
  import P = PoolSteps

  const MAX_PORT := 65535

  datatype RangeError = StartAfterEnd | BelowOne | AboveMaximum

  /** The range is checked in this order; None means it is accepted. */
  function CheckRange(start: int, end: int): Option<RangeError> {
    if start > end then Some(StartAfterEnd)
    else if start < 1 || end < 1 then Some(BelowOne)
    else if end > MAX_PORT then Some(AboveMaximum)
    else None
  }

  /** Each port of the range is free, once, or taken; nothing else is. */
  ghost predicate Conserved(lo: int, hi: int, available: seq<int>, taken: map<int, string>) {
    && Distinct(available)
    && (forall x :: x in available ==> lo <= x <= hi && x !in taken)
    && (forall x :: x in taken ==> lo <= x <= hi)
    && (forall x :: lo <= x <= hi ==> x in available || x in taken)
  }

  lemma TakeHead(lo: int, hi: int, available: seq<int>, taken: map<int, string>, agent: string)
    requires Conserved(lo, hi, available, taken) && available != []
    ensures available[0] !in taken && lo <= available[0] <= hi
    ensures Conserved(lo, hi, available[1..], taken[available[0] := agent])
  {
    assert available == [available[0]] + available[1..];
    assert forall x :: x in available <==> x == available[0] || x in available[1..];
  }

  lemma PutBack(lo: int, hi: int, available: seq<int>, taken: map<int, string>, port: int)
    requires Conserved(lo, hi, available, taken) && port in taken
    ensures Conserved(lo, hi, available + [port], taken - {port})
    ensures |available| < hi - lo + 1
  {
    DistinctAppend(available, port);
    MissingLeavesRoom(available, lo, hi, port);
  }

  lemma AllBack(lo: int, hi: int, available: seq<int>, taken: map<int, string>)
    requires lo <= hi + 1 && Conserved(lo, hi, available, taken) && taken == map[]
    ensures multiset(available) == multiset(PortRange(lo, hi))
  {
    RangeElements(lo, hi);
    forall x
      ensures x in available <==> x in PortRange(lo, hi)
    {
      assert x in available <==> lo <= x <= hi;
    }
    SameElementsPermute(available, PortRange(lo, hi));
  }

  class PortManager {
    var available: seq<int>          // the buffered channel, head first
    var taken: map<int, string>      // port -> agent
    const lo: int
    const hi: int

    ghost predicate Valid()
      reads this
    {
      1 <= lo <= hi <= MAX_PORT && Conserved(lo, hi, available, taken)
    }

    constructor (start: int, end: int)
      requires CheckRange(start, end).None?
      ensures Valid() && lo == start && hi == end
      ensures available == PortRange(start, end) && taken == map[]
    {
      lo, hi := start, end;
      taken := map[];
      available := [];
      new;
      RangeElements(start, end);
      var port := start;
      while port <= end
        invariant start <= port <= end + 1 && taken == map[]
        invariant available == PortRange(start, end)[..port - start]
      {
        assert |available| < end - start + 1;      // the channel has room
        available := available + [port];
        port := port + 1;
      }
    }

    method Allocate(agent: string) returns (r: Option<int>)
      requires Valid()
      modifies this
      ensures Valid()
      ensures r.None? <==> old(available) == []
      ensures r.None? ==> available == old(available) && taken == old(taken)
      ensures r.Some? ==>
        && r.value == old(available)[0] && r.value !in old(taken) && lo <= r.value <= hi
        && available == old(available)[1..] && taken == old(taken)[r.value := agent]
    {
      if available == [] {
        return None;
      }
      TakeHead(lo, hi, available, taken, agent);
      var port := available[0];
      available := available[1..];
      taken := taken[port := agent];
      return Some(port);
    }

    /** Releasing a port that is not taken changes nothing. */
    method Release(port: int)
      requires Valid()
      modifies this
      ensures Valid()
      ensures port !in old(taken) ==> available == old(available) && taken == old(taken)
      ensures port in old(taken) ==> available == old(available) + [port] && taken == old(taken) - {port}
    {
      if port !in taken {
        return;
      }
      PutBack(lo, hi, available, taken, port);
      taken := taken - {port};
      assert |available| < hi - lo + 1;            // the send does not block
      available := available + [port];
    }
  }

  /** NewPortManager: an error, or a pool over exactly the asked range. */
  method NewPortManager(start: int, end: int) returns (pm: PortManager?, err: Option<RangeError>)
    ensures err.None? <==> 1 <= start <= end <= MAX_PORT
    ensures pm == null <==> err.Some?
    ensures err.Some? ==> (err.value.StartAfterEnd? <==> start > end) && (err.value.BelowOne? <==> start <= end && start < 1)
    ensures pm != null ==> fresh(pm) && pm.Valid() && pm.lo == start && pm.hi == end
    ensures pm != null ==> pm.available == PortRange(start, end) && pm.taken == map[]
  {
    err := CheckRange(start, end);
    if err.Some? {
      return null, err;
    }
    pm := new PortManager(start, end);
  }

  // ---- the operations are their two halves run without interruption ----

  lemma FirstStep(p: P.Pool, e: P.Event, es: seq<P.Event>)
    requires P.Enabled(p, e) && P.IsRun(P.Apply(p, e), es)
    ensures P.IsRun(p, [e] + es) && P.Run(p, [e] + es) == P.Run(P.Apply(p, e), es)
  {
    assert ([e] + es)[1..] == es;
  }

  lemma AllocateIsItsSteps(p: P.Pool, c: P.Caller, agent: string)
    requires c !in p.busy && p.free != [] && p.mu.None?
    ensures var es := [P.Receive(c, agent)] + ([P.Lock(c)] + [P.Record(c)]);
      P.IsRun(p, es) && P.Run(p, es) == p.(free := p.free[1..], taken := p.taken[p.free[0] := agent])
  {
    var p1 := P.Apply(p, P.Receive(c, agent));
    var p2 := P.Apply(p1, P.Lock(c));
    assert P.Apply(p2, P.Record(c)).busy == p.busy;
    FirstStep(p2, P.Record(c), []);
    assert [P.Record(c)] + [] == [P.Record(c)];
    FirstStep(p1, P.Lock(c), [P.Record(c)]);
    FirstStep(p, P.Receive(c, agent), [P.Lock(c)] + [P.Record(c)]);
  }

  lemma RecordedRelease(p: P.Pool, c: P.Caller, port: int)
    requires P.Inv(p) && c !in p.busy && port in p.taken && p.mu.None?
    ensures var es := [P.BeginRelease(c, port)] + ([P.Lock(c)] + ([P.Delete(c)] + [P.Send(c)]));
      P.IsRun(p, es) && P.Run(p, es) == p.(free := p.free + [port], taken := p.taken - {port})
  {
    var p1 := P.Apply(p, P.BeginRelease(c, port));
    var p2 := P.Apply(p1, P.Lock(c));
    var p3 := P.Apply(p2, P.Delete(c));
    assert P.InRange(p, port) && port !in p.free;
    MissingLeavesRoom(p.free, p.lo, p.hi, port);
    assert P.Apply(p3, P.Send(c)).busy == p.busy;
    FirstStep(p3, P.Send(c), []);
    assert [P.Send(c)] + [] == [P.Send(c)];
    FirstStep(p2, P.Delete(c), [P.Send(c)]);
    FirstStep(p1, P.Lock(c), [P.Delete(c)] + [P.Send(c)]);
    FirstStep(p, P.BeginRelease(c, port), [P.Lock(c)] + ([P.Delete(c)] + [P.Send(c)]));
  }

  lemma UnrecordedRelease(p: P.Pool, c: P.Caller, port: int)
    requires c !in p.busy && port !in p.taken && p.mu.None?
    ensures var es := [P.BeginRelease(c, port)] + ([P.Lock(c)] + [P.Delete(c)]);
      P.IsRun(p, es) && P.Run(p, es) == p
  {
    var p1 := P.Apply(p, P.BeginRelease(c, port));
    var p2 := P.Apply(p1, P.Lock(c));
    assert P.Apply(p2, P.Delete(c)).busy == p.busy;
    FirstStep(p2, P.Delete(c), []);
    assert [P.Delete(c)] + [] == [P.Delete(c)];
    FirstStep(p1, P.Lock(c), [P.Delete(c)]);
    FirstStep(p, P.BeginRelease(c, port), [P.Lock(c)] + [P.Delete(c)]);
  }

  /** A recorded port is deleted and sent back; for any other the method returns after its lookup. */
  lemma ReleaseIsItsSteps(p: P.Pool, c: P.Caller, port: int)
    requires P.Inv(p) && c !in p.busy && p.mu.None?
    ensures var last := if port in p.taken then [P.Delete(c)] + [P.Send(c)] else [P.Delete(c)];
      var es := [P.BeginRelease(c, port)] + ([P.Lock(c)] + last);
      && P.IsRun(p, es)
      && P.Run(p, es) == if port in p.taken then p.(free := p.free + [port], taken := p.taken - {port}) else p
  {
    if port in p.taken {
      RecordedRelease(p, c, port);
    } else {
      UnrecordedRelease(p, c, port);
    }
  }

  // ---- rotation ----

  /** The queue after k times taking the head and putting it back at the end. */
  function Rotated(q: seq<int>, k: nat): (r: seq<int>)
    ensures |r| == |q|
    decreases k
  {
    if k == 0 || q == [] then q else Rotated(q[1..] + [q[0]], k - 1)
  }

  lemma {:induction false} RotatedTwice(q: seq<int>, j: nat, k: nat)
    ensures Rotated(Rotated(q, j), k) == Rotated(q, j + k)
    decreases j
  {
    if j > 0 && q != [] {
      RotatedTwice(q[1..] + [q[0]], j - 1, k);
    }
  }

  lemma {:induction false} RotatedSlices(q: seq<int>, k: nat)
    requires k <= |q|
    ensures Rotated(q, k) == q[k..] + q[..k]
    decreases k
  {
    if k > 0 {
      RotatedSlices(q, k - 1);
      RotatedTwice(q, k - 1, 1);
      var r := q[k - 1..] + q[..k - 1];
      assert Rotated(r, 1) == Rotated(r[1..] + [r[0]], 0);
      assert r[1..] + [r[0]] == q[k..] + q[..k];
    }
  }

  /** After as many turns as there are ports the queue is as it was. */
  lemma RotatedWraps(q: seq<int>, k: nat)
    ensures Rotated(q, |q| + k) == Rotated(q, k)
  {
    RotatedSlices(q, |q|);
    assert q[|q|..] + q[..|q|] == q;
    RotatedTwice(q, |q|, k);
  }

  /** Three attempts in a row try as many different ports as there are, up to three. */
  lemma TriesDiffer(q: seq<int>)
    requires Distinct(q) && q != []
    ensures Rotated(q, 0)[0] == q[0]
    ensures |{Rotated(q, 0)[0], Rotated(q, 1)[0], Rotated(q, 2)[0]}| == Min(3, |q|)
  {
    RotatedSlices(q, 1);
    if |q| == 1 {
      assert q == [q[0]];
      RotatedWraps(q, 0);
      RotatedWraps(q, 1);
      assert {q[0], q[0], q[0]} == {q[0]};
    } else if |q| == 2 {
      RotatedWraps(q, 0);
      assert {q[0], q[1], q[0]} == {q[0], q[1]};
    } else {
      RotatedSlices(q, 2);
      assert q[0] != q[1] && q[1] != q[2] && q[0] != q[2];
    }
  }
}
