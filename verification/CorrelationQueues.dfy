/**
 What the server's side of a stream does with its messages and its calls: what is queued on a connection and
 what is handed on, what becomes of a PONG, when a send loop is over, and how a call ends without a response.
 */
module CorrelationQueues {
  import opened Basics
  import opened Correlation
  import opened CorrelationInv
  import opened CorrelationTheorems

  // ---- what is queued ----

  function EnqueuedOn(s: Net, c: nat): seq<Msg> {
    if c < |s.conns| then s.conns[c].enqueued else []
  }

  /** What the event queues on connection c: a call's request, or a PONG under the id drawn for it. */
  function Adds(s: Net, e: Event, c: nat): seq<Msg>
    requires Enabled(s, e)
  {
    if e.CallMoves? && e.call.Enqueue? && s.calls[e.n].phase.conn == c then [s.calls[e.n].msg]
    else if e.PongMoves? && e.pong.PongEnqueue? && s.pongs[e.id].conn == c then [Msg(e.id, Pong, "")]
    else []
  }

  /** All that the run queues on it, in order. */
  ghost function AddedBy(s: Net, es: seq<Event>, c: nat): seq<Msg>
    requires IsRun(s, es)
    decreases |es|
  {
    if es == [] then [] else Adds(s, es[0], c) + AddedBy(Apply(s, es[0]), es[1..], c)
  }

  lemma ConnAdds(s: Net, k: nat, step: ConnStep, c: nat)
    requires Enabled(s, ConnMoves(k, step))
    ensures EnqueuedOn(ApplyConn(s, k, step), c) == EnqueuedOn(s, c)
  {
  }

  lemma AgentAdds(s: Net, j: nat, step: AgentStep, c: nat)
    requires Enabled(s, AgentMoves(j, step))
    ensures EnqueuedOn(ApplyAgent(s, j, step), c) == EnqueuedOn(s, c)
  {
  }

  lemma CallAdds(s: Net, n: nat, step: CallStep, c: nat)
    requires Enabled(s, CallMoves(n, step))
    ensures EnqueuedOn(ApplyCall(s, n, step), c) == EnqueuedOn(s, c) + Adds(s, CallMoves(n, step), c)
  {
  }

  lemma PongAdds(s: Net, id: nat, step: PongStep, c: nat)
    requires Enabled(s, PongMoves(id, step))
    ensures EnqueuedOn(ApplyPong(s, id, step), c) == EnqueuedOn(s, c) + Adds(s, PongMoves(id, step), c)
  {
  }

  lemma StepAdds(s: Net, e: Event, c: nat)
    requires Enabled(s, e)
    ensures EnqueuedOn(Apply(s, e), c) == EnqueuedOn(s, c) + Adds(s, e, c)
  {
    match e
    case CallMoves(n, step) => CallAdds(s, n, step, c);
    case PongMoves(id, step) => PongAdds(s, id, step, c);
    case ConnMoves(k, step) => ConnAdds(s, k, step, c);
    case AgentMoves(j, step) => AgentAdds(s, j, step, c);
    case Receive(k, h) => assert EnqueuedOn(Received(s, k, h), c) == EnqueuedOn(s, c);
    case _ =>
  }

  lemma {:induction false} RunAdds(s: Net, es: seq<Event>, c: nat)
    requires IsRun(s, es)
    ensures EnqueuedOn(Run(s, es), c) == EnqueuedOn(s, c) + AddedBy(s, es, c)
    decreases |es|
  {
    if es != [] {
      StepAdds(s, es[0], c);
      RunAdds(Apply(s, es[0]), es[1..], c);
    }
  }

  /**
   What a stream has been handed is a prefix of exactly the requests and PONGs that were queued on its
   connection, in that order; what is left is in the send loop's hand and the queue.
   */
  lemma HandedAsQueued(es: seq<Event>, c: nat)
    requires IsHistory(es) && c < |After(es).conns|
    ensures var x := After(es).conns[c];
      AddedBy(Initial(), es, c) == x.handed + x.hand + x.queue && |x.hand| <= 1 && |x.queue| <= 100
  {
    RunAdds(Initial(), es, c);
    HandedIsPrefix(es, c);
  }

  // ---- PONGs ----

  ghost predicate PongsDrawn(s: Net) {
    forall id :: id in s.pongs ==> id in s.hist.ids
  }

  lemma AgentPongs(s: Net, j: nat, step: AgentStep)
    requires Enabled(s, AgentMoves(j, step))
    ensures ApplyAgent(s, j, step).pongs == s.pongs && s.hist.ids <= ApplyAgent(s, j, step).hist.ids
  {
  }

  lemma ConnPongs(s: Net, c: nat, step: ConnStep, id: nat)
    requires Enabled(s, ConnMoves(c, step))
    ensures var t := ApplyConn(s, c, step);
      s.hist.ids <= t.hist.ids && (id in t.pongs ==> id in s.pongs || (id !in s.hist.ids && id in t.hist.ids))
  {
  }

  lemma OwnPong(s: Net, own: nat, step: PongStep, id: nat)
    requires Enabled(s, PongMoves(own, step))
    ensures var t := ApplyPong(s, own, step);
      t.hist == s.hist && (id in t.pongs ==> id in s.pongs) && own !in t.pongs
  {
  }

  /** Only a lookup with a fresh id starts a PONG, and only its own step ends it. */
  lemma StepPongs(s: Net, e: Event, id: nat)
    requires Enabled(s, e)
    ensures s.hist.ids <= Apply(s, e).hist.ids
    ensures id in Apply(s, e).pongs ==> id in s.pongs || (id !in s.hist.ids && id in Apply(s, e).hist.ids)
    ensures e.PongMoves? && e.id == id ==> id !in Apply(s, e).pongs
  {
    match e
    case AgentMoves(j, step) => AgentPongs(s, j, step);
    case ConnMoves(c, step) => ConnPongs(s, c, step, id);
    case PongMoves(own, step) => OwnPong(s, own, step, id);
    case Receive(c, h) => assert Received(s, c, h).pongs == s.pongs && Received(s, c, h).hist.ids == s.hist.ids;
    case CallMoves(n, step) => assert ApplyCall(s, n, step).pongs == s.pongs && ApplyCall(s, n, step).hist == s.hist;
    case _ =>
  }

  lemma {:induction false} RunPongsDrawn(s: Net, es: seq<Event>)
    requires IsRun(s, es) && PongsDrawn(s)
    ensures PongsDrawn(Run(s, es))
    decreases |es|
  {
    if es != [] {
      forall id | id in Apply(s, es[0]).pongs
        ensures id in Apply(s, es[0]).hist.ids
      {
        StepPongs(s, es[0], id);
      }
      RunPongsDrawn(Apply(s, es[0]), es[1..]);
    }
  }

  lemma {:induction false} NeverAgain(s: Net, es: seq<Event>, id: nat, i: nat)
    requires IsRun(s, es) && id in s.hist.ids && id !in s.pongs && i < |es|
    ensures !(es[i].PongMoves? && es[i].id == id)
    decreases |es|
  {
    StepPongs(s, es[0], id);
    if i > 0 {
      NeverAgain(Apply(s, es[0]), es[1..], id, i - 1);
    }
  }

  lemma {:induction false} Rest(s: Net, es: seq<Event>, k: nat)
    requires IsRun(s, es) && k <= |es|
    ensures IsRun(StateAt(s, es, k), es[k..]) && Run(StateAt(s, es, k), es[k..]) == Run(s, es)
    ensures k < |es| ==> Enabled(StateAt(s, es, k), es[k])
    decreases k
  {
    if k > 0 {
      Rest(Apply(s, es[0]), es[1..], k - 1);
      assert es[1..][k - 1..] == es[k..];
    }
  }

  /** What a PING leads to ends once: its PONG is queued, or given up, and that is all. */
  lemma PongOnce(es: seq<Event>, i: nat, j: nat)
    requires IsHistory(es) && i < |es| && j < |es| && es[i].PongMoves? && es[j].PongMoves? && es[i].id == es[j].id
    ensures i == j
  {
    if i != j {
      var k, l := if i < j then i else j, if i < j then j else i;
      var s := StateAt(Initial(), es, k);
      Prefix(Initial(), es, k);
      RunPongsDrawn(Initial(), es[..k]);
      Rest(Initial(), es, k);
      StepPongs(s, es[k], es[k].id);
      assert es[k..][0] == es[k] && es[k..][1..][l - k - 1] == es[l];
      NeverAgain(Apply(s, es[k]), es[k..][1..], es[k].id, l - k - 1);
    }
  }

  // ---- the send loop ----

  /** The send loop returns: it sees its context, or its write to the stream fails. */
  predicate EndsLoop(e: Event, c: nat) {
    e == ConnMoves(c, LoopEnds) || e == ConnMoves(c, LoopHands(false))
  }

  predicate LoopIsOver(s: Net, c: nat) {
    c < |s.conns| && s.conns[c].loopOver && s.conns[c].hand == []
  }

  lemma ConnAfterLoop(s: Net, k: nat, step: ConnStep, c: nat)
    requires Enabled(s, ConnMoves(k, step)) && LoopIsOver(s, c)
    ensures var t := ApplyConn(s, k, step);
      LoopIsOver(t, c) && t.conns[c].handed == s.conns[c].handed && t.conns[c].down == s.conns[c].down
  {
  }

  predicate OnlyReads(s: Net, t: Net, c: nat) {
    && LoopIsOver(t, c) && c < |s.conns| && t.conns[c].handed == s.conns[c].handed
    && |t.conns[c].down| <= |s.conns[c].down|
  }

  lemma AgentAfterLoop(s: Net, j: nat, step: AgentStep, c: nat)
    requires Enabled(s, AgentMoves(j, step)) && LoopIsOver(s, c)
    ensures OnlyReads(s, ApplyAgent(s, j, step), c)
  {
  }

  lemma CallAfterLoop(s: Net, n: nat, step: CallStep, c: nat)
    requires Enabled(s, CallMoves(n, step)) && LoopIsOver(s, c)
    ensures OnlyReads(s, ApplyCall(s, n, step), c)
  {
  }

  lemma PongAfterLoop(s: Net, id: nat, step: PongStep, c: nat)
    requires Enabled(s, PongMoves(id, step)) && LoopIsOver(s, c)
    ensures OnlyReads(s, ApplyPong(s, id, step), c)
  {
  }

  lemma StepAfterLoop(s: Net, e: Event, c: nat)
    requires Enabled(s, e) && LoopIsOver(s, c)
    ensures OnlyReads(s, Apply(s, e), c)
  {
    match e
    case CallMoves(n, step) => CallAfterLoop(s, n, step, c);
    case PongMoves(id, step) => PongAfterLoop(s, id, step, c);
    case ConnMoves(k, step) => ConnAfterLoop(s, k, step, c);
    case AgentMoves(j, step) => AgentAfterLoop(s, j, step, c);
    case _ =>
  }

  lemma {:induction false} RunAfterLoop(s: Net, es: seq<Event>, c: nat)
    requires IsRun(s, es) && LoopIsOver(s, c)
    ensures OnlyReads(s, Run(s, es), c)
    decreases |es|
  {
    if es != [] {
      StepAfterLoop(s, es[0], c);
      RunAfterLoop(Apply(s, es[0]), es[1..], c);
    }
  }

  /** Once its send loop has returned, nothing more is ever handed to a stream. */
  lemma NothingAfterLoop(es: seq<Event>, i: nat, c: nat)
    requires IsHistory(es) && i < |es| && EndsLoop(es[i], c)
    ensures OnlyReads(StateAt(Initial(), es, i + 1), After(es), c)
  {
    Rest(Initial(), es, i);
    Rest(Initial(), es, i + 1);
    Next(Initial(), es, i);
    RunAfterLoop(StateAt(Initial(), es, i + 1), es[i + 1..], c);
  }

  lemma {:induction false} Next(s: Net, es: seq<Event>, i: nat)
    requires IsRun(s, es) && i < |es|
    ensures Enabled(StateAt(s, es, i), es[i]) && StateAt(s, es, i + 1) == Apply(StateAt(s, es, i), es[i])
    decreases i
  {
    if i > 0 {
      Next(Apply(s, es[0]), es[1..], i - 1);
    }
  }

  // ---- the agent's send loop ----

  /**
   Whatever has happened, a response in the hand of one of the agent's send loops can still be lost: the loop ends
   with it, nothing goes on any wire, and its goroutine, being done, does not answer again.
   */
  lemma HeldCanBeLost(es: seq<Event>, j: nat, loop: nat)
    requires IsHistory(es) && j < |After(es).clients| && loop in After(es).clients[j].loops
    requires After(es).clients[j].loops[loop].ResponseItem?
    ensures Enabled(After(es), AgentMoves(j, Drops(loop)))
    ensures var s := After(es);
      var t := Apply(s, AgentMoves(j, Drops(loop)));
      var k := s.clients[j].loops[loop].task;
      && t.conns == s.conns && t.calls == s.calls && j < |t.clients| && loop !in t.clients[j].loops
      && k < |t.clients[j].tasks| && t.clients[j].tasks[k].status == Lost && !Enabled(t, AgentMoves(j, Answers(k, "")))
  {
    Reached(es);
    assert ClientOk(After(es).hist, After(es).clients[j]);
  }

  // ---- calls without a response ----

  predicate HasFailed(s: Net, n: nat) {
    n < |s.calls| && (s.calls[n].phase == Ended(None) || s.calls[n].phase == Closed(None))
  }

  /** Call n fails here: its agent is not connected, its send fails, or its wait times out. */
  predicate FailsHere(s: Net, e: Event, n: nat) {
    && n < |s.calls| && e.CallMoves? && e.n == n
    && (e.call.GiveUp? || e.call.SendFails? || (e.call.LookUp? && s.calls[n].agent !in s.current))
  }

  lemma CallFails(s: Net, k: nat, step: CallStep, n: nat)
    requires Enabled(s, CallMoves(k, step))
    ensures HasFailed(ApplyCall(s, k, step), n) <==> HasFailed(s, n) || FailsHere(s, CallMoves(k, step), n)
  {
  }

  lemma StepFails(s: Net, e: Event, n: nat)
    requires Enabled(s, e)
    ensures HasFailed(Apply(s, e), n) <==> HasFailed(s, n) || FailsHere(s, e, n)
  {
    match e
    case CallMoves(k, step) => CallFails(s, k, step, n);
    case AgentMoves(j, step) => AgentStepKeepsCalls(s, j, step);
    case PongMoves(id, step) => PongKeepsCalls(s, id, step);
    case ConnMoves(c, step) => assert ApplyConn(s, c, step).calls == s.calls;
    case Receive(c, h) => assert Received(s, c, h).calls == s.calls;
    case _ =>
  }

  ghost predicate FailsAt(s: Net, es: seq<Event>, i: nat, n: nat)
    requires IsRun(s, es)
  {
    i < |es| && FailsHere(StateAt(s, es, i), es[i], n)
  }

  lemma {:induction false} FailedSomewhere(s: Net, es: seq<Event>, n: nat) returns (i: nat)
    requires IsRun(s, es) && !HasFailed(s, n) && HasFailed(Run(s, es), n)
    ensures FailsAt(s, es, i, n)
    decreases |es|
  {
    StepFails(s, es[0], n);
    if FailsHere(s, es[0], n) {
      i := 0;
    } else {
      var k := FailedSomewhere(Apply(s, es[0]), es[1..], n);
      i := k + 1;
    }
  }

  lemma {:induction false} FailedForever(s: Net, es: seq<Event>, n: nat, i: nat)
    requires IsRun(s, es) && (HasFailed(s, n) || FailsAt(s, es, i, n))
    ensures HasFailed(Run(s, es), n)
    decreases |es|
  {
    if es != [] {
      StepFails(s, es[0], n);
      FailedForever(Apply(s, es[0]), es[1..], n, if i > 0 then i - 1 else 0);
    }
  }

  /** A call ends without a response exactly if its agent was not connected, its send failed or it timed out. */
  lemma FailsIff(es: seq<Event>, n: nat)
    requires IsHistory(es)
    ensures HasFailed(After(es), n) <==> exists i :: FailsAt(Initial(), es, i, n)
  {
    if HasFailed(After(es), n) {
      var i := FailedSomewhere(Initial(), es, n);
    }
    if i :| FailsAt(Initial(), es, i, n) {
      FailedForever(Initial(), es, n, i);
    }
  }

  // ---- what a call can do next ----

  /**
   A call that has looked up its connection can queue its request exactly if that connection is still current and
   fewer than 100 messages wait; it can time out in any case, and sees the context or the closed channel exactly
   if the connection is no longer current.
   */
  lemma SendOutcomes(es: seq<Event>, n: nat, why: SendFailure)
    requires IsHistory(es) && n < |After(es).calls| && After(es).calls[n].phase.Sending?
    ensures var s := After(es);
      var x := s.calls[n];
      var isCurrent := x.agent in s.current && s.current[x.agent] == x.phase.conn;
      && x.phase.conn < |s.conns|
      && (Enabled(s, CallMoves(n, Enqueue)) <==> isCurrent && |s.conns[x.phase.conn].queue| < 100)
      && (Enabled(s, CallMoves(n, SendFails(why))) <==> why.Timeout? || !isCurrent)
  {
    Reached(es);
  }

  ghost predicate OwnSteps(fs: seq<Event>, n: nat) {
    forall i :: 0 <= i < |fs| ==> fs[i].CallMoves? && fs[i].n == n
  }

  /** The steps that a call has left if nothing comes back. */
  function WayOut(s: Net, n: nat): seq<Event>
    requires n < |s.calls|
  {
    var x := s.calls[n];
    var close := CallMoves(n, Close);
    match x.phase
    case Registered =>
      if x.agent in s.current then [CallMoves(n, LookUp), CallMoves(n, SendFails(Timeout)), close]
      else [CallMoves(n, LookUp), close]
    case Sending(_) => [CallMoves(n, SendFails(Timeout)), close]
    case Waiting => [CallMoves(n, GiveUp), close]
    case Ended(_) => [close]
    case Closed(_) => []
  }

  /** The call's send, if it is at that point, goes to a connection there is; if it has returned, nothing is pending. */
  predicate Sound(s: Net, n: nat) {
    && n < |s.calls|
    && (s.calls[n].phase.Sending? ==> s.calls[n].phase.conn < |s.conns|)
    && (s.calls[n].phase.Closed? ==> s.calls[n].msg.id !in s.pending)
    && (s.calls[n].agent in s.current ==> s.current[s.calls[n].agent] < |s.conns|)
  }

  lemma WayOutMove(s: Net, n: nat, step: CallStep)
    requires Sound(s, n) && WayOut(s, n) != [] && WayOut(s, n)[0] == CallMoves(n, step)
    ensures CallEnabled(s, s.calls[n], step)
    ensures var t := ApplyCall(s, n, step);
      Sound(t, n) && t.calls[n].msg == s.calls[n].msg && WayOut(t, n) == WayOut(s, n)[1..]
  {
  }

  lemma {:induction false} WayOutRuns(s: Net, n: nat)
    requires Sound(s, n)
    ensures var fs := WayOut(s, n);
      IsRun(s, fs) && Sound(Run(s, fs), n) && WayOut(Run(s, fs), n) == [] && Run(s, fs).calls[n].msg == s.calls[n].msg
    decreases |WayOut(s, n)|
  {
    if WayOut(s, n) != [] {
      WayOutMove(s, n, WayOut(s, n)[0].call);
      WayOutRuns(Apply(s, WayOut(s, n)[0]), n);
    }
  }

  lemma IsSound(s: Net, n: nat)
    requires Inv(s) && n < |s.calls|
    ensures Sound(s, n)
  {
  }

  /** Whatever has happened, a call can always return within three steps of its own and leaves nothing pending. */
  lemma CallCanReturn(es: seq<Event>, n: nat) returns (fs: seq<Event>)
    requires IsHistory(es) && n < |After(es).calls|
    ensures |fs| <= 3 && OwnSteps(fs, n) && IsRun(After(es), fs)
    ensures var t := Run(After(es), fs);
      n < |t.calls| && t.calls[n].phase.Closed? && After(es).calls[n].msg.id !in t.pending
    ensures After(es).calls[n].phase.Waiting? ==> fs[0] == CallMoves(n, GiveUp)
  {
    Reached(es);
    IsSound(After(es), n);
    fs := WayOut(After(es), n);
    WayOutRuns(After(es), n);
  }
}
