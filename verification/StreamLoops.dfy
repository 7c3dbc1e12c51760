/**
 The goroutines around one stream and their error channel.

 The agent's handleStream runs three loops (receive, send, ping) and the server's HandleStream two (receive,
 send).  Each loop leaves when `done` is closed, or reports one error on a buffered channel and leaves; the
 main routine waits for the first error, or on the server for the connection's context, and closes `done`.
 A loop may be anywhere in its own work when that happens.
 */
module StreamLoops {
  import opened Basics

  /** The number of loops, the channel's capacity, and whether the main routine also waits on a context. */
  datatype Config = Config(loops: nat, capacity: nat, cancellable: bool)

  const AGENT := Config(3, 3, false)
  const SERVER := Config(2, 2, true)
  const SEND_LOOP := 1

  datatype Phase = Running | Reporting | Finished
  datatype MainPhase = Waiting | Closing | Returned

  datatype State = State(phases: seq<Phase>, errs: seq<int>, main: MainPhase, done: bool)

  datatype Event =
    | Fail(loop: nat)                   // a receive, a send or a ping fails
    | Report(loop: nat)                 // the error goes into the channel
    | Quit(loop: nat, drained: bool)    // the loop sees `done`, or the send loop sees its channel closed
    | TakeError
    | ContextDone
    | CloseDone

  function Initial(c: Config): State {
    State(seq(c.loops, i => Running), [], Waiting, false)
  }

  predicate Enabled(c: Config, s: State, e: Event)
    requires |s.phases| == c.loops
  {
    match e
    case Fail(l) => l < c.loops && s.phases[l].Running?
    case Report(l) => l < c.loops && s.phases[l].Reporting? && |s.errs| < c.capacity
    case Quit(l, drained) => l < c.loops && s.phases[l].Running? && (if drained then l == SEND_LOOP else s.done)
    case TakeError => s.main.Waiting? && s.errs != []
    case ContextDone => s.main.Waiting? && c.cancellable
    case CloseDone => s.main.Closing?
  }

  function Apply(c: Config, s: State, e: Event): (r: State)
    requires |s.phases| == c.loops && Enabled(c, s, e)
    ensures |r.phases| == c.loops
  {
    match e
    case Fail(l) => s.(phases := s.phases[l := Reporting])
    case Report(l) => s.(phases := s.phases[l := Finished], errs := s.errs + [l])
    case Quit(l, _) => s.(phases := s.phases[l := Finished])
    case TakeError => s.(errs := s.errs[1..], main := Closing)
    case ContextDone => s.(main := Closing)
    case CloseDone => s.(main := Returned, done := true)
  }

  predicate IsRun(c: Config, events: seq<Event>)
    decreases |events|, 0
  {
    events == [] ||
    var before := events[..|events| - 1];
    IsRun(c, before) && Enabled(c, Run(c, before), events[|events| - 1])
  }

  function Run(c: Config, events: seq<Event>): (s: State)
    requires IsRun(c, events)
    ensures |s.phases| == c.loops
    decreases |events|, 1
  {
    if events == [] then Initial(c)
    else Apply(c, Run(c, events[..|events| - 1]), events[|events| - 1])
  }

  /** A loop that would write its error and cannot. */
  ghost predicate Blocked(c: Config, s: State) {
    |s.errs| >= c.capacity && exists l :: 0 <= l < |s.phases| && s.phases[l].Reporting?
  }

  /** The channel holds at most one error of each loop, and only of loops that are finished. */
  ghost predicate Inv(c: Config, s: State) {
    && |s.phases| == c.loops && Distinct(s.errs) && (s.done <==> s.main.Returned?)
    && forall l :: l in s.errs ==> 0 <= l < c.loops && s.phases[l].Finished?
  }

  lemma StepInv(c: Config, s: State, e: Event)
    requires Inv(c, s) && Enabled(c, s, e)
    ensures Inv(c, Apply(c, s, e))
  {
    var t := Apply(c, s, e);
    if e.Report? {
      DistinctAppend(s.errs, e.loop as int);
      assert forall l :: l in t.errs ==> l in s.errs || l == e.loop;
    } else if e.TakeError? {
      assert forall l :: l in s.errs[1..] ==> l in s.errs;
    }
  }

  lemma {:induction false} RunInv(c: Config, events: seq<Event>)
    requires IsRun(c, events)
    ensures Inv(c, Run(c, events))
  {
    if events != [] {
      var before := events[..|events| - 1];
      RunInv(c, before);
      StepInv(c, Run(c, before), events[|events| - 1]);
    }
  }

  /** With room for one error per loop no loop ever blocks on its error, not even after the stream is given up. */
  lemma NeverBlocked(c: Config, events: seq<Event>)
    requires IsRun(c, events) && c.capacity >= c.loops
    ensures !Blocked(c, Run(c, events))
  {
    RunInv(c, events);
    var s := Run(c, events);
    forall l | 0 <= l < c.loops && s.phases[l].Reporting?
      ensures |s.errs| < c.capacity
    {
      MissingLeavesRoom(s.errs, 0, c.loops - 1, l);
    }
  }

  /** The channel never holds more errors than there are loops. */
  lemma Occupancy(c: Config, events: seq<Event>)
    requires IsRun(c, events)
    ensures |Run(c, events).errs| <= c.loops
  {
    RunInv(c, events);
    RangeElements(0, c.loops - 1);
    SubMultiset(Run(c, events).errs, PortRange(0, c.loops - 1));
  }

  /** The agent's three loops and the server's two, each with the capacity its channel has. */
  lemma BothNeverBlocked(agent: seq<Event>, server: seq<Event>)
    requires IsRun(AGENT, agent) && IsRun(SERVER, server)
    ensures |Run(AGENT, agent).phases| == 3 && |Run(AGENT, agent).errs| <= 3 && !Blocked(AGENT, Run(AGENT, agent))
    ensures |Run(SERVER, server).phases| == 2 && |Run(SERVER, server).errs| <= 2 && !Blocked(SERVER, Run(SERVER, server))
    ensures AGENT.capacity == 3 && SERVER.capacity == 2 && !AGENT.cancellable && SERVER.cancellable
  {
    NeverBlocked(AGENT, agent);
    NeverBlocked(SERVER, server);
    Occupancy(AGENT, agent);
    Occupancy(SERVER, server);
  }

  /**
   The main routine stops waiting with the first error it takes, or with the context, once; from then on closing
   `done` is the one thing left to it, and `done` is closed exactly if it has done that.
   */
  lemma {:induction false} FirstErrorEnds(c: Config, events: seq<Event>)
    requires IsRun(c, events)
    ensures var s := Run(c, events);
      && Times(events, TakeError) + Times(events, ContextDone) == (if s.main.Waiting? then 0 else 1)
      && (s.main.Closing? ==> Enabled(c, s, CloseDone) && Apply(c, s, CloseDone).done && !s.done)
      && Times(events, CloseDone) == (if s.done then 1 else 0) && (s.done <==> s.main.Returned?)
  {
    if events != [] {
      FirstErrorEnds(c, events[..|events| - 1]);
    }
  }

  /** The agent's main routine has no context to wait on: it returns only after an error of one of its loops. */
  lemma AgentReturnsOnError(events: seq<Event>)
    requires IsRun(AGENT, events)
    ensures Run(AGENT, events).done ==> Times(events, TakeError) == 1
  {
    FirstErrorEnds(AGENT, events);
    NoContext(events);
  }

  lemma {:induction false} NoContext(events: seq<Event>)
    requires IsRun(AGENT, events)
    ensures Times(events, ContextDone) == 0
  {
    if events != [] {
      NoContext(events[..|events| - 1]);
    }
  }

  /** The server's can end without any: its channel is closed and its context cancelled when it is replaced. */
  lemma ServerEndsQuietly() returns (events: seq<Event>)
    ensures IsRun(SERVER, events) && Times(events, TakeError) == 0
    ensures Run(SERVER, events) == State([Finished, Finished], [], Returned, true)
  {
    var drained := [Quit(1, true)];
    RunMore(SERVER, [], Quit(1, true));
    assert [] + [Quit(1, true)] == drained;
    RunMore(SERVER, drained, ContextDone);
    RunMore(SERVER, drained + [ContextDone], CloseDone);
    RunMore(SERVER, drained + [ContextDone] + [CloseDone], Quit(0, false));
    events := drained + [ContextDone] + [CloseDone] + [Quit(0, false)];
    TimesAppend(drained + [ContextDone] + [CloseDone], Quit(0, false), TakeError);
    TimesAppend(drained + [ContextDone], CloseDone, TakeError);
    TimesAppend(drained, ContextDone, TakeError);
  }

  lemma TimesAppend(events: seq<Event>, e: Event, f: Event)
    ensures Times(events + [e], f) == Times(events, f) + if e == f then 1 else 0
  {
    assert (events + [e])[..|events|] == events;
  }

  /** The run in which the first k loops fail and report, one after the other. */
  function Failures(k: nat): seq<Event> {
    if k == 0 then [] else Failures(k - 1) + [Fail(k - 1)] + [Report(k - 1)]
  }

  lemma RunMore(c: Config, events: seq<Event>, e: Event)
    requires IsRun(c, events) && Enabled(c, Run(c, events), e)
    ensures IsRun(c, events + [e]) && Run(c, events + [e]) == Apply(c, Run(c, events), e)
  {
    assert (events + [e])[..|events + [e]| - 1] == events;
  }

  /** k errors are in the channel and the loops from k on still run. */
  predicate FailedUpTo(c: Config, s: State, k: nat) {
    |s.phases| == c.loops && |s.errs| == k && forall l :: k <= l < c.loops ==> s.phases[l].Running?
  }

  lemma OneFailure(c: Config, events: seq<Event>, k: nat)
    requires IsRun(c, events) && k < c.loops && k < c.capacity && FailedUpTo(c, Run(c, events), k)
    ensures IsRun(c, events + [Fail(k)] + [Report(k)]) && FailedUpTo(c, Run(c, events + [Fail(k)] + [Report(k)]), k + 1)
  {
    RunMore(c, events, Fail(k));
    RunMore(c, events + [Fail(k)], Report(k));
  }

  lemma {:induction false} FailuresRun(c: Config, k: nat)
    requires k <= c.loops && k <= c.capacity
    ensures IsRun(c, Failures(k)) && FailedUpTo(c, Run(c, Failures(k)), k)
  {
    if k > 0 {
      FailuresRun(c, k - 1);
      OneFailure(c, Failures(k - 1), k - 1);
    }
  }

  ghost predicate EndsBlocked(c: Config, events: seq<Event>) {
    IsRun(c, events) && Blocked(c, Run(c, events))
  }

  lemma BlockingRun(c: Config) returns (events: seq<Event>)
    requires c.capacity < c.loops
    ensures EndsBlocked(c, events)
  {
    FailuresRun(c, c.capacity);
    RunMore(c, Failures(c.capacity), Fail(c.capacity));
    events := Failures(c.capacity) + [Fail(c.capacity)];
    assert Run(c, events).phases[c.capacity].Reporting?;
  }

  /** One slot per loop is exactly what is needed. */
  lemma BlocksIff(c: Config)
    ensures (exists events :: EndsBlocked(c, events)) <==> c.capacity < c.loops
  {
    if c.capacity < c.loops {
      var events := BlockingRun(c);
    } else {
      forall events | IsRun(c, events)
        ensures !EndsBlocked(c, events)
      {
        NeverBlocked(c, events);
      }
    }
  }

  /** How often an event occurs. */
  function Times(events: seq<Event>, e: Event): nat {
    if events == [] then 0
    else Times(events[..|events| - 1], e) + if events[|events| - 1] == e then 1 else 0
  }

  /** Each loop reports at most once and `done` is closed at most once. */
  lemma {:induction false} OncePerLoop(c: Config, events: seq<Event>, l: nat)
    requires IsRun(c, events) && l < c.loops
    ensures Times(events, Report(l)) <= if Run(c, events).phases[l].Finished? then 1 else 0
    ensures Times(events, CloseDone) == if Run(c, events).done then 1 else 0
    ensures Run(c, events).done <==> Run(c, events).main.Returned?
  {
    if events != [] {
      OncePerLoop(c, events[..|events| - 1], l);
    }
  }

  ghost predicate FinishedUpTo(s: State, k: nat) {
    forall l :: 0 <= l < k && l < |s.phases| ==> s.phases[l].Finished?
  }

  /** After `done` is closed every loop can finish on its own, whatever the others do. */
  lemma FinishOne(c: Config, events: seq<Event>, l: nat) returns (more: seq<Event>)
    requires IsRun(c, events) && Run(c, events).done && l < c.loops && c.capacity >= c.loops
    ensures IsRun(c, events + more) && Run(c, events + more).done
    ensures Run(c, events + more).phases == Run(c, events).phases[l := Finished] && |more| <= 1
  {
    NeverBlocked(c, events);
    var s := Run(c, events);
    if s.phases[l].Finished? {
      more := [];
      assert events + more == events;
    } else {
      more := [if s.phases[l].Running? then Quit(l, false) else Report(l)];
      RunMore(c, events, more[0]);
    }
  }

  lemma {:induction false} FinishAll(c: Config, events: seq<Event>, k: nat) returns (more: seq<Event>)
    requires IsRun(c, events) && Run(c, events).done && c.capacity >= c.loops
    requires k <= c.loops && FinishedUpTo(Run(c, events), k)
    ensures IsRun(c, events + more) && FinishedUpTo(Run(c, events + more), c.loops)
    ensures |more| <= c.loops - k
    decreases c.loops - k
  {
    if k == c.loops {
      more := [];
      assert events + more == events;
    } else {
      var one := FinishOne(c, events, k);
      var rest := FinishAll(c, events + one, k + 1);
      more := one + rest;
      assert events + more == events + one + rest;
    }
  }
}
