/** Keep-alive against the stale sweep: timed runs over the last-seen times of the registered agents. */
module Staleness {
  import opened Basics

  const STALE_CONNECTION_TIMEOUT := 120 * SECOND
  const CLEANUP_INTERVAL := 30 * SECOND
  const PING_INTERVAL := 30 * SECOND

  type LastSeen = map<string, int>

  predicate Stale(lastSeen: int, now: int) {
    now - lastSeen > STALE_CONNECTION_TIMEOUT
  }

  function StaleSet(seen: LastSeen, now: int): set<string> {
    set a | a in seen && Stale(seen[a], now)
  }

  function Touched(seen: LastSeen, agent: string, now: int): LastSeen {
    if agent in seen then seen[agent := now] else seen
  }

  datatype Event =
    | Registered(time: int, agent: string)
    | Received(time: int, agent: string)     // a message on a stream of the agent
    | Removed(time: int, agent: string)      // deregistered, or a failed replacement
    | Sweep(time: int)

  function Step(seen: LastSeen, e: Event): LastSeen {
    match e
    case Registered(t, a) => seen[a := t]
    case Received(t, a) => Touched(seen, a, t)
    case Removed(_, a) => seen - {a}
    case Sweep(t) => seen - StaleSet(seen, t)
  }

  function Run(seen: LastSeen, events: seq<Event>): LastSeen {
    if events == [] then seen else Step(Run(seen, events[..|events| - 1]), events[|events| - 1])
  }

  /** Nothing but messages and sweeps happens to this agent's connection. */
  ghost predicate LeftAlone(events: seq<Event>, agent: string) {
    forall i :: 0 <= i < |events| ==> events[i] != Registered(events[i].time, agent) && events[i] != Removed(events[i].time, agent)
  }

  ghost predicate InOrder(times: seq<int>) {
    forall i, j :: 0 <= i <= j < |times| ==> times[i] <= times[j]
  }

  ghost predicate GapsWithin(times: seq<int>, gap: int) {
    forall i :: 0 <= i < |times| - 1 ==> times[i + 1] <= times[i] + gap
  }

  function Times(events: seq<Event>): seq<int> {
    seq(|events|, i requires 0 <= i < |events| => events[i].time)
  }

  function Arrivals(events: seq<Event>, agent: string): seq<int> {
    if events == [] then []
    else
      var last := events[|events| - 1];
      Arrivals(events[..|events| - 1], agent) + if last == Received(last.time, agent) then [last.time] else []
  }

  function Sweeps(events: seq<Event>): seq<int> {
    if events == [] then []
    else
      var last := events[|events| - 1];
      Sweeps(events[..|events| - 1]) + if last.Sweep? then [last.time] else []
  }

  /** When the agent was last heard of, counting from an earlier time. */
  function LastHeard(since: int, arrivals: seq<int>): int {
    if arrivals == [] then since else arrivals[|arrivals| - 1]
  }

  ghost predicate SweepMisses(since: int, events: seq<Event>, agent: string, i: nat)
    requires i < |events|
  {
    events[i].Sweep? ==> !Stale(LastHeard(since, Arrivals(events[..i], agent)), events[i].time)
  }

  /** Every sweep finds the agent heard of within the stale timeout. */
  ghost predicate HeardInTime(since: int, events: seq<Event>, agent: string) {
    forall i :: 0 <= i < |events| ==> SweepMisses(since, events, agent, i)
  }

  lemma HeardInTimeLonger(since: int, events: seq<Event>, agent: string)
    requires events != []
    ensures HeardInTime(since, events, agent) <==>
      && HeardInTime(since, events[..|events| - 1], agent)
      && SweepMisses(since, events, agent, |events| - 1)
  {
    var before := events[..|events| - 1];
    forall i | 0 <= i < |before|
      ensures SweepMisses(since, before, agent, i) <==> SweepMisses(since, events, agent, i)
    {
      assert before[..i] == events[..i];
    }
  }

  lemma StepOnAgent(seen: LastSeen, e: Event, agent: string)
    requires e != Registered(e.time, agent) && e != Removed(e.time, agent)
    ensures agent in Step(seen, e) <==> agent in seen && (e.Sweep? ==> !Stale(seen[agent], e.time))
    ensures agent in Step(seen, e) ==>
      Step(seen, e)[agent] == if e == Received(e.time, agent) then e.time else seen[agent]
  {
  }

  /**
   A connection that is neither replaced nor deregistered survives a run exactly if every sweep in it comes
   at most 120 seconds after the last message.
   */
  lemma {:induction false} SurvivesExactly(seen: LastSeen, events: seq<Event>, agent: string)
    requires agent in seen && LeftAlone(events, agent)
    ensures agent in Run(seen, events) <==> HeardInTime(seen[agent], events, agent)
    ensures agent in Run(seen, events) ==> Run(seen, events)[agent] == LastHeard(seen[agent], Arrivals(events, agent))
  {
    if events != [] {
      var n := |events| - 1;
      SurvivesExactly(seen, events[..n], agent);
      HeardInTimeLonger(seen[agent], events, agent);
      StepOnAgent(Run(seen, events[..n]), events[n], agent);
    }
  }

  lemma {:induction false} RunSplit(seen: LastSeen, before: seq<Event>, after: seq<Event>)
    ensures Run(seen, before + after) == Run(Run(seen, before), after)
  {
    var all := before + after;
    if after == [] {
      assert all == before;
    } else {
      RunSplit(seen, before, after[..|after| - 1]);
      assert all[..|all| - 1] == before + after[..|after| - 1];
    }
  }

  /**
   After any history: an agent registered at time t, and neither registered nor removed since, is there exactly if
   every sweep since has come at most 120 seconds after its last message or, before the first, its registration.
   */
  lemma RegisteredSurvivesIff(seen: LastSeen, before: seq<Event>, t: int, agent: string, after: seq<Event>)
    requires LeftAlone(after, agent)
    ensures agent in Run(seen, before + [Registered(t, agent)] + after) <==> HeardInTime(t, after, agent)
  {
    RunSplit(seen, before, [Registered(t, agent)]);
    RunSplit(seen, before + [Registered(t, agent)], after);
    assert [Registered(t, agent)][..0] == [];
    SurvivesExactly(Run(seen, before + [Registered(t, agent)]), after, agent);
  }

  lemma {:induction false} AbsentStays(seen: LastSeen, events: seq<Event>, agent: string)
    requires agent !in seen && forall i :: 0 <= i < |events| ==> events[i] != Registered(events[i].time, agent)
    ensures agent !in Run(seen, events)
  {
    if events != [] {
      AbsentStays(seen, events[..|events| - 1], agent);
    }
  }

  /** A removed agent stays away until it registers again, whatever still arrives on its old stream. */
  lemma RemovedStaysAway(seen: LastSeen, before: seq<Event>, t: int, agent: string, after: seq<Event>)
    requires forall i :: 0 <= i < |after| ==> after[i] != Registered(after[i].time, agent)
    ensures agent !in Run(seen, before + [Removed(t, agent)] + after)
  {
    RunSplit(seen, before, [Removed(t, agent)]);
    RunSplit(seen, before + [Removed(t, agent)], after);
    assert [Removed(t, agent)][..0] == [];
    AbsentStays(Run(seen, before + [Removed(t, agent)]), after, agent);
  }

  lemma {:induction false} ArrivalsSplit(events: seq<Event>, i: nat, agent: string)
    requires i <= |events|
    ensures Arrivals(events, agent) == Arrivals(events[..i], agent) + Arrivals(events[i..], agent)
  {
    if i == |events| {
      assert events[..i] == events && events[i..] == [];
    } else {
      var n := |events| - 1;
      var before, tail := events[..n], events[i..];
      ArrivalsSplit(before, i, agent);
      assert before[..i] == events[..i];
      assert before[i..] == tail[..|tail| - 1];
    }
  }

  lemma {:induction false} ArrivalsAfter(events: seq<Event>, agent: string, t: int)
    requires forall i :: 0 <= i < |events| ==> t <= events[i].time
    ensures forall x :: x in Arrivals(events, agent) ==> t <= x
  {
    if events != [] {
      ArrivalsAfter(events[..|events| - 1], agent, t);
    }
  }

  /** Messages at most 120 seconds apart, up to the end of the run, keep a connection from every sweep. */
  lemma NeverSwept(seen: LastSeen, events: seq<Event>, agent: string, end: int)
    requires agent in seen && LeftAlone(events, agent)
    requires InOrder(Times(events) + [end])
    requires GapsWithin([seen[agent]] + Arrivals(events, agent) + [end], 120 * SECOND)
    ensures agent in Run(seen, events)
  {
    forall i | 0 <= i < |events|
      ensures SweepMisses(seen[agent], events, agent, i)
    {
      NextArrival(seen[agent], events, agent, end, i);
    }
    SurvivesExactly(seen, events, agent);
  }

  lemma NextArrival(since: int, events: seq<Event>, agent: string, end: int, i: nat)
    requires i < |events| && InOrder(Times(events) + [end])
    requires GapsWithin([since] + Arrivals(events, agent) + [end], STALE_CONNECTION_TIMEOUT)
    ensures SweepMisses(since, events, agent, i)
  {
    var t := events[i].time;
    var all := Times(events) + [end];
    assert forall j :: i <= j < |events| ==> all[i] <= all[j] == events[j].time;
    assert t == all[i] <= all[|events|] == end;
    var before, after := Arrivals(events[..i], agent), Arrivals(events[i..], agent);
    ArrivalsSplit(events, i, agent);
    ArrivalsAfter(events[i..], agent, t);
    var times := [since] + Arrivals(events, agent) + [end];
    assert times[|before|] == LastHeard(since, before);
    var next := if after == [] then end else after[0];
    assert after != [] ==> after[0] in after;
    assert times[|before| + 1] == next >= t;
  }

  /**
   Pings leave every 30 seconds.  If each is delayed by at most 90 seconds, and none is later than that at the
   end of the run, no sweep removes the connection.
   */
  lemma PingsKeepAlive(seen: LastSeen, events: seq<Event>, agent: string, sent: int, delays: seq<int>, end: int)
    requires agent in seen && LeftAlone(events, agent) && InOrder(Times(events) + [end])
    requires |delays| == |Arrivals(events, agent)| + 1
    requires forall i :: 0 <= i < |delays| ==> 0 <= delays[i] <= 90 * SECOND
    requires seen[agent] == sent + delays[0]
    requires forall i :: 0 < i < |delays| ==> Arrivals(events, agent)[i - 1] == sent + i * (30 * SECOND) + delays[i]
    requires end <= sent + |delays| * (30 * SECOND) + 90 * SECOND
    ensures agent in Run(seen, events)
  {
    var arrivals := Arrivals(events, agent);
    var times := [seen[agent]] + arrivals + [end];
    assert forall i :: 0 <= i < |delays| ==> times[i] == sent + i * PING_INTERVAL + delays[i];
    forall i | 0 <= i < |times| - 1
      ensures times[i + 1] <= times[i] + STALE_CONNECTION_TIMEOUT
    {
    }
    NeverSwept(seen, events, agent, end);
  }

  /** Ninety seconds is the exact allowance: with any more, a sweep just before the ping removes the connection. */
  lemma LatePingIsTooLate(seen: LastSeen, agent: string, delay: int)
    requires agent in seen && delay > 90 * SECOND
    ensures var t := seen[agent] + 30 * SECOND + delay; agent !in Run(seen, [Sweep(t), Received(t, agent)])
  {
    var t := seen[agent] + PING_INTERVAL + delay;
    var events := [Sweep(t), Received(t, agent)];
    assert events[..1] == [Sweep(t)] && events[..0] == [];
    SurvivesExactly(seen, events, agent);
    assert !SweepMisses(seen[agent], events, agent, 0);
  }

  lemma {:induction false} FirstBeyond(times: seq<int>, from: nat, bound: int, gap: nat) returns (k: nat)
    requires from < |times| && times[from] <= bound && bound + gap < times[|times| - 1] && GapsWithin(times, gap)
    ensures from < k < |times| - 1 && bound < times[k] <= bound + gap
    decreases |times| - from
  {
    if bound < times[from + 1] {
      k := from + 1;
    } else {
      k := FirstBeyond(times, from + 1, bound, gap);
    }
  }

  lemma {:induction false} SweepAt(events: seq<Event>, k: nat) returns (i: nat)
    requires k < |Sweeps(events)|
    ensures i < |events| && events[i] == Sweep(Sweeps(events)[k])
  {
    var n := |events| - 1;
    if k < |Sweeps(events[..n])| {
      i := SweepAt(events[..n], k);
    } else {
      i := n;
    }
  }

  /**
   With sweeps at most 30 seconds apart, a connection silent since it was last seen, and not otherwise
   removed, falls to a sweep no later than 150 seconds after that, and stays away.
   */
  lemma SweptInTime(seen: LastSeen, events: seq<Event>, agent: string, end: int) returns (i: nat)
    requires agent in seen && LeftAlone(events, agent) && Arrivals(events, agent) == []
    requires GapsWithin([seen[agent]] + Sweeps(events) + [end], 30 * SECOND)
    requires end > seen[agent] + 150 * SECOND
    ensures i < |events| && events[i].Sweep? && events[i].time <= seen[agent] + 150 * SECOND
    ensures agent !in Run(seen, events[..i + 1]) && agent !in Run(seen, events)
  {
    var since := seen[agent];
    var k := FirstBeyond([since] + Sweeps(events) + [end], 0, since + STALE_CONNECTION_TIMEOUT, CLEANUP_INTERVAL);
    i := SweepAt(events, k - 1);
    ArrivalsSplit(events, i, agent);
    assert !SweepMisses(since, events, agent, i);
    SurvivesExactly(seen, events, agent);
    var upTo := events[..i + 1];
    assert upTo[..i] == events[..i];
    assert !SweepMisses(since, upTo, agent, i);
    SurvivesExactly(seen, upTo, agent);
  }
}
