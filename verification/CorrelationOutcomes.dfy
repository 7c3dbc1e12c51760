/** What a call comes to: exactly the responses taken from its channel, and every answer an agent can give. */
module CorrelationOutcomes {
  import opened Basics
  import opened Correlation
  import opened CorrelationInv
  import opened CorrelationTheorems

  // ---- results ----

  /** The response a call has returned or is about to return, if any. */
  function ResultOf(s: Net, n: nat): Option<Msg> {
    if n < |s.calls| && (s.calls[n].phase.Ended? || s.calls[n].phase.Closed?) then s.calls[n].phase.result else None
  }

  function ChanOf(s: Net, n: nat): seq<Msg> {
    if n < |s.calls| then s.calls[n].chan else []
  }

  lemma CallOutcome(s: Net, k: nat, step: CallStep, n: nat)
    requires Enabled(s, CallMoves(k, step))
    ensures var t := ApplyCall(s, k, step);
      && ResultOf(t, n) == (if k == n && step.TakeResponse? then Some(s.calls[n].chan[0]) else ResultOf(s, n))
      && ChanOf(t, n) == (if k == n && step.TakeResponse? then ChanOf(s, n)[1..] else ChanOf(s, n))
  {
  }

  lemma DeliverOutcome(s: Net, h: nat, n: nat)
    requires Enabled(s, Deliver(h))
    ensures var t := Apply(s, Deliver(h));
      && ResultOf(t, n) == ResultOf(s, n)
      && ChanOf(t, n) == if s.handlers[h].n == n && ChanOf(s, n) == [] then [s.handlers[h].msg] else ChanOf(s, n)
  {
  }

  lemma OtherOutcome(s: Net, e: Event, n: nat)
    requires Enabled(s, e) && !e.CallMoves? && !e.Deliver?
    ensures ResultOf(Apply(s, e), n) == ResultOf(s, n) && ChanOf(Apply(s, e), n) == ChanOf(s, n)
  {
    match e
    case AgentMoves(j, step) => AgentStepKeepsCalls(s, j, step);
    case PongMoves(id, step) => PongKeepsCalls(s, id, step);
    case ConnMoves(c, step) => assert ApplyConn(s, c, step).calls == s.calls;
    case Receive(c, h) => assert Received(s, c, h).calls == s.calls;
    case _ =>
  }

  /** Only TakeResponse gives a call a response, the one in its channel; only Deliver puts one there. */
  lemma StepOutcome(s: Net, e: Event, n: nat)
    requires Enabled(s, e)
    ensures var t := Apply(s, e);
      && ResultOf(t, n) == (if e == CallMoves(n, TakeResponse) then Some(s.calls[n].chan[0]) else ResultOf(s, n))
      && ChanOf(t, n) ==
           if e == CallMoves(n, TakeResponse) then ChanOf(s, n)[1..]
           else if e.Deliver? && s.handlers[e.h].n == n && ChanOf(s, n) == [] then [s.handlers[e.h].msg]
           else ChanOf(s, n)
  {
    match e
    case CallMoves(k, step) => CallOutcome(s, k, step, n);
    case Deliver(h) => DeliverOutcome(s, h, n);
    case _ => OtherOutcome(s, e, n);
  }

  /** Taking the response in its channel makes a waiting call return exactly that response. */
  lemma TakeReturns(es: seq<Event>, n: nat)
    requires IsHistory(es) && n < |After(es).calls| && After(es).calls[n].phase.Waiting? && After(es).calls[n].chan != []
    ensures var s := After(es);
      && Enabled(s, CallMoves(n, TakeResponse))
      && Returns(Apply(s, CallMoves(n, TakeResponse)), n, s.calls[n].chan[0])
  {
  }

  /** In this step call n takes response m from its channel. */
  ghost predicate TakesAt(s: Net, es: seq<Event>, i: nat, n: nat, m: Msg)
    requires IsRun(s, es)
  {
    && i < |es| && es[i] == CallMoves(n, TakeResponse)
    && n < |StateAt(s, es, i).calls| && StateAt(s, es, i).calls[n].chan != [] && StateAt(s, es, i).calls[n].chan[0] == m
  }

  /** In this step a response is put into the channel of call n. */
  ghost predicate DeliversAt(s: Net, es: seq<Event>, i: nat, n: nat, m: Msg)
    requires IsRun(s, es)
  {
    i < |es| && es[i].Deliver? && es[i].h in StateAt(s, es, i).handlers && StateAt(s, es, i).handlers[es[i].h] == Handler(n, m)
  }

  lemma {:induction false} ResultWasTaken(s: Net, es: seq<Event>, n: nat, m: Msg) returns (i: nat)
    requires IsRun(s, es) && ResultOf(s, n) != Some(m) && ResultOf(Run(s, es), n) == Some(m)
    ensures TakesAt(s, es, i, n, m)
    decreases |es|
  {
    StepOutcome(s, es[0], n);
    if es[0] == CallMoves(n, TakeResponse) && s.calls[n].chan[0] == m {
      i := 0;
    } else {
      var k := ResultWasTaken(Apply(s, es[0]), es[1..], n, m);
      i := k + 1;
    }
  }

  lemma {:induction false} ChanWasFilled(s: Net, es: seq<Event>, n: nat, m: Msg) returns (i: nat)
    requires IsRun(s, es) && m !in ChanOf(s, n) && m in ChanOf(Run(s, es), n)
    ensures DeliversAt(s, es, i, n, m)
    decreases |es|
  {
    StepOutcome(s, es[0], n);
    if m in ChanOf(Apply(s, es[0]), n) {
      i := 0;
    } else {
      var k := ChanWasFilled(Apply(s, es[0]), es[1..], n, m);
      i := k + 1;
    }
  }

  lemma {:induction false} TakenStays(s: Net, es: seq<Event>, n: nat)
    requires IsRun(s, es) && (ResultOf(s, n).Some? || CallMoves(n, TakeResponse) in es)
    ensures ResultOf(Run(s, es), n).Some?
    decreases |es|
  {
    if es != [] {
      StepOutcome(s, es[0], n);
      assert es == [es[0]] + es[1..];
      TakenStays(Apply(s, es[0]), es[1..], n);
    }
  }

  /** A call returns a response exactly if it has taken one from its channel. */
  lemma ReturnsIff(es: seq<Event>, n: nat)
    requires IsHistory(es)
    ensures ResultOf(After(es), n).Some? <==> CallMoves(n, TakeResponse) in es
  {
    if CallMoves(n, TakeResponse) in es {
      TakenStays(Initial(), es, n);
    }
    if ResultOf(After(es), n).Some? {
      var i := ResultWasTaken(Initial(), es, n, ResultOf(After(es), n).value);
    }
  }

  /** And then it is the very response that was delivered to it before. */
  lemma ReturnsWhatWasDelivered(es: seq<Event>, n: nat, m: Msg) returns (delivered: nat, taken: nat)
    requires IsHistory(es) && Returns(After(es), n, m)
    ensures delivered < taken && DeliversAt(Initial(), es, delivered, n, m) && TakesAt(Initial(), es, taken, n, m)
  {
    taken := ResultWasTaken(Initial(), es, n, m);
    Prefix(Initial(), es, taken);
    delivered := ChanWasFilled(Initial(), es[..taken], n, m);
  }

  // ---- the agent's answer ----

  /**
   An agent's goroutine that has its answer puts exactly one response, with its request's id and this body, at the
   end of the send channel if fewer than 100 messages wait there, and otherwise leaves the channel as it is.
   */
  lemma AnswerIsQueued(es: seq<Event>, j: nat, k: nat, body: string)
    requires IsHistory(es) && Enabled(After(es), AgentMoves(j, Answers(k, body)))
    ensures var x := After(es).clients[j];
      var y := Apply(After(es), AgentMoves(j, Answers(k, body))).clients[j];
      && (|x.out| < 100 ==> |y.out| == |x.out| + 1 && y.out[..|x.out|] == x.out)
      && (|x.out| < 100 ==>
            var it := y.out[|x.out|];
            && it.ResponseItem? && it.task == k && it.msg.id == x.tasks[k].request.id
            && it.msg.kind.Response? && it.msg.body == body)
      && (|x.out| >= 100 ==> y.out == x.out)
      && !y.tasks[k].status.Running? && y.loops == x.loops
  {
  }
}
