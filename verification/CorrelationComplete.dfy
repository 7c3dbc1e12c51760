/**
 Nothing stands in the way of an answer: from every reachable state a request that an agent has taken up, and a
 new request to a connected agent, can come back with any answer the agent gives.
 */
module CorrelationComplete {
  import opened Basics
  import opened Correlation
  import opened CorrelationInv
  import opened CorrelationTheorems

  lemma {:induction false} Snoc(s: Net, es: seq<Event>, e: Event)
    requires IsRun(s, es) && Enabled(Run(s, es), e)
    ensures IsRun(s, es + [e]) && Run(s, es + [e]) == Apply(Run(s, es), e)
    decreases |es|
  {
    if es == [] {
      assert [e][1..] == [];
    } else {
      assert (es + [e])[1..] == es[1..] + [e];
      Snoc(Apply(s, es[0]), es[1..], e);
    }
  }

  /** One step more. */
  lemma More(es: seq<Event>, e: Event) returns (fs: seq<Event>)
    requires IsHistory(es) && Enabled(After(es), e)
    ensures IsHistory(fs) && After(fs) == Apply(After(es), e) && fs == es + [e]
  {
    Snoc(Initial(), es, e);
    fs := es + [e];
  }

  lemma {:induction false} Unused(used: set<nat>) returns (x: nat)
    ensures x !in used && forall y :: y in used ==> y < x
  {
    if used == {} {
      x := 0;
    } else {
      var y :| y in used;
      var z := Unused(used - {y});
      assert forall w :: w in used ==> w == y || w in used - {y};
      x := if y < z then z else y + 1;
    }
  }

  // ---- from the agent back to the call ----

  /** Call n waits; its request is in the hands of goroutine k of agent j, which has stream c registered. */
  predicate Answering(s: Net, n: nat, j: nat, k: nat, c: nat) {
    && n < |s.calls| && s.calls[n].phase.Waiting?
    && j < |s.clients| && k < |s.clients[j].tasks| && s.clients[j].tasks[k].status.Running?
    && s.clients[j].tasks[k].request == s.calls[n].msg
    && c < |s.conns| && s.conns[c].client == j && s.conns[c].registered
  }

  /** A send loop takes the head of the agent's queue, which is another goroutine's. */
  lemma TakesOther(s: Net, n: nat, j: nat, k: nat, c: nat, loop: nat)
    requires Inv(s) && Answering(s, n, j, k, c) && s.clients[j].out != [] && loop !in s.clients[j].loops
    ensures Enabled(s, AgentMoves(j, Takes(loop)))
    ensures var t := ApplyAgent(s, j, Takes(loop));
      Answering(t, n, j, k, c) && t.clients[j].out == s.clients[j].out[1..]
  {
    var x := s.clients[j];
    assert ClientOk(s.hist, x);
    assert Belongs(x.tasks, x.out[0], Queued);
  }

  lemma {:induction false} EmptyQueue(es: seq<Event>, n: nat, j: nat, k: nat, c: nat) returns (fs: seq<Event>)
    requires IsHistory(es) && Answering(After(es), n, j, k, c)
    ensures IsHistory(fs) && es <= fs && Answering(After(fs), n, j, k, c) && After(fs).clients[j].out == []
    ensures After(fs).calls == After(es).calls
    decreases |After(es).clients[j].out|
  {
    var s := After(es);
    if s.clients[j].out == [] {
      fs := es;
    } else {
      Reached(es);
      var loop := Unused(s.clients[j].loops.Keys);
      TakesOther(s, n, j, k, c, loop);
      AgentStepKeepsCalls(s, j, Takes(loop));
      var gs := More(es, AgentMoves(j, Takes(loop)));
      fs := EmptyQueue(gs, n, j, k, c);
    }
  }

  /** Response m to call n is at place p on the wire of connection c. */
  predicate Coming(s: Net, n: nat, c: nat, p: nat, m: Msg) {
    && n < |s.calls| && s.calls[n].phase.Waiting? && m.kind.Response? && m.id == s.calls[n].msg.id
    && c < |s.conns| && s.conns[c].registered && p < |s.conns[c].up| && s.conns[c].up[p].msg == m
  }

  lemma Replies(s: Net, n: nat, j: nat, k: nat, c: nat, body: string)
    requires Answering(s, n, j, k, c) && s.clients[j].out == []
    ensures Enabled(s, AgentMoves(j, Answers(k, body)))
    ensures var t := ApplyAgent(s, j, Answers(k, body));
      && t.calls == s.calls && t.conns == s.conns && |t.clients| == |s.clients|
      && |t.clients[j].tasks| == |s.clients[j].tasks| && t.clients[j].loops == s.clients[j].loops
      && t.clients[j].out == [ResponseItem(Msg(s.calls[n].msg.id, Response, body), k, s.calls[n].msg)]
  {
  }

  lemma PicksUp(s: Net, j: nat, it: Item, loop: nat)
    requires j < |s.clients| && s.clients[j].out == [it] && TaskOf(s.clients[j], it) && loop !in s.clients[j].loops
    ensures Enabled(s, AgentMoves(j, Takes(loop)))
    ensures var t := ApplyAgent(s, j, Takes(loop));
      && t.calls == s.calls && t.conns == s.conns && |t.clients| == |s.clients|
      && loop in t.clients[j].loops && t.clients[j].loops[loop] == it && TaskOf(t.clients[j], it)
  {
  }

  lemma WritesIt(s: Net, j: nat, it: Item, loop: nat, c: nat)
    requires j < |s.clients| && loop in s.clients[j].loops && s.clients[j].loops[loop] == it && TaskOf(s.clients[j], it)
    requires c < |s.conns| && s.conns[c].client == j
    ensures Enabled(s, AgentMoves(j, Writes(loop, c, true)))
    ensures var t := ApplyAgent(s, j, Writes(loop, c, true));
      && t.calls == s.calls && |t.conns| == |s.conns| && t.conns[c] == s.conns[c].(up := s.conns[c].up + [it])
  {
  }

  /** The goroutine answers, and a send loop writes the answer to the stream. */
  lemma AnswerGoesOut(es: seq<Event>, n: nat, j: nat, k: nat, c: nat, body: string) returns (fs: seq<Event>, p: nat)
    requires IsHistory(es) && Answering(After(es), n, j, k, c) && After(es).clients[j].out == []
    ensures IsHistory(fs) && es <= fs && After(fs).calls == After(es).calls
    ensures Coming(After(fs), n, c, p, Msg(After(es).calls[n].msg.id, Response, body))
  {
    var s := After(es);
    var it := ResponseItem(Msg(s.calls[n].msg.id, Response, body), k, s.calls[n].msg);
    Replies(s, n, j, k, c, body);
    fs := More(es, AgentMoves(j, Answers(k, body)));
    var loop := Unused(After(fs).clients[j].loops.Keys);
    PicksUp(After(fs), j, it, loop);
    fs := More(fs, AgentMoves(j, Takes(loop)));
    WritesIt(After(fs), j, it, loop, c);
    fs := More(fs, AgentMoves(j, Writes(loop, c, true)));
    p := |s.conns[c].up|;
  }

  lemma ComesIn1(s: Net, c: nat, h: nat)
    requires c < |s.conns| && s.conns[c].registered && s.conns[c].up != [] && h !in s.handlers
    ensures Enabled(s, Receive(c, h))
    ensures var t := Received(s, c, h);
      && t.calls == s.calls && t.pending == s.pending && |t.conns| == |s.conns|
      && t.conns[c] == s.conns[c].(up := s.conns[c].up[1..])
      && (s.conns[c].up[0].msg.kind.Response? && s.conns[c].up[0].msg.id in s.pending ==>
            h in t.handlers && t.handlers[h] == Handler(s.pending[s.conns[c].up[0].msg.id], s.conns[c].up[0].msg))
  {
  }

  /** What is ahead of it on the wire comes in first. */
  lemma {:induction false} ComesForward(es: seq<Event>, n: nat, c: nat, p: nat, m: Msg) returns (fs: seq<Event>)
    requires IsHistory(es) && Coming(After(es), n, c, p, m)
    ensures IsHistory(fs) && es <= fs && Coming(After(fs), n, c, 0, m) && After(fs).calls == After(es).calls
    decreases p
  {
    if p == 0 {
      fs := es;
    } else {
      var s := After(es);
      var h := Unused(s.handlers.Keys);
      ComesIn1(s, c, h);
      var gs := More(es, Receive(c, h));
      fs := ComesForward(gs, n, c, p - 1, m);
    }
  }

  /** The response at the head of the wire reaches the call. */
  lemma ComesBack(es: seq<Event>, n: nat, c: nat, m: Msg) returns (fs: seq<Event>)
    requires IsHistory(es) && Coming(After(es), n, c, 0, m)
    ensures IsHistory(fs) && es <= fs && Returns(After(fs), n, m)
  {
    var s := After(es);
    Reached(es);
    var h := Unused(s.handlers.Keys);
    ComesIn1(s, c, h);
    fs := More(es, Receive(c, h));
    HandleResponseNeverBlocks(fs, h);
    fs := More(fs, Deliver(h));
    fs := More(fs, CallMoves(n, TakeResponse));
  }

  /**
   From every reachable state in which a waiting call's request has been taken up by an agent that has a stream
   registered: for every answer the goroutine may give there is a run in which the call returns exactly that.
   */
  lemma AnswerArrives(es: seq<Event>, n: nat, j: nat, k: nat, c: nat, body: string) returns (fs: seq<Event>)
    requires IsHistory(es) && Answering(After(es), n, j, k, c)
    ensures IsHistory(fs) && es <= fs && Returns(After(fs), n, Msg(After(es).calls[n].msg.id, Response, body))
  {
    fs := EmptyQueue(es, n, j, k, c);
    var p;
    fs, p := AnswerGoesOut(fs, n, j, k, c, body);
    var m := Msg(After(es).calls[n].msg.id, Response, body);
    fs := ComesForward(fs, n, c, p, m);
    fs := ComesBack(fs, n, c, m);
  }

  // ---- from the call to the agent ----

  /** Connection c is agent a's current one and its send loop runs. */
  predicate Connected(s: Net, a: string, c: nat) {
    && a in s.current && s.current[a] == c && c < |s.conns|
    && s.conns[c].registered && !s.conns[c].closed && !s.conns[c].loopOver
  }

  /** Call n has looked up connection c and is about to send. */
  predicate Sends(s: Net, a: string, n: nat, c: nat) {
    Connected(s, a, c) && n < |s.calls| && s.calls[n].phase == Sending(c)
  }

  lemma LoopStepKeeps(s: Net, a: string, n: nat, c: nat, step: ConnStep)
    requires Sends(s, a, n, c) && (step.LoopTakes? || step == LoopHands(true)) && ConnEnabled(s, s.conns[c], step)
    ensures var t := ApplyConn(s, c, step);
      && Sends(t, a, n, c) && t.calls == s.calls
      && t.conns[c].queue == (if step.LoopTakes? then s.conns[c].queue[1..] else s.conns[c].queue)
      && (step.LoopHands? ==> t.conns[c].hand == [])
  {
  }

  /** The send loop hands on what it has. */
  lemma EmptyHand(es: seq<Event>, a: string, n: nat, c: nat) returns (fs: seq<Event>)
    requires IsHistory(es) && Sends(After(es), a, n, c)
    ensures IsHistory(fs) && es <= fs && Sends(After(fs), a, n, c) && After(fs).calls == After(es).calls
    ensures After(fs).conns[c].hand == [] && After(fs).conns[c].queue == After(es).conns[c].queue
  {
    var s := After(es);
    if s.conns[c].hand == [] {
      fs := es;
    } else {
      LoopStepKeeps(s, a, n, c, LoopHands(true));
      fs := More(es, ConnMoves(c, LoopHands(true)));
    }
  }

  lemma {:induction false} EmptySendCh(es: seq<Event>, a: string, n: nat, c: nat) returns (fs: seq<Event>)
    requires IsHistory(es) && Sends(After(es), a, n, c)
    ensures IsHistory(fs) && es <= fs && Sends(After(fs), a, n, c) && After(fs).calls == After(es).calls
    ensures After(fs).conns[c].hand == [] && After(fs).conns[c].queue == []
    decreases |After(es).conns[c].queue|
  {
    fs := EmptyHand(es, a, n, c);
    if After(fs).conns[c].queue != [] {
      LoopStepKeeps(After(fs), a, n, c, LoopTakes);
      var gs := More(fs, ConnMoves(c, LoopTakes));
      fs := EmptySendCh(gs, a, n, c);
    }
  }

  lemma Queues(s: Net, a: string, n: nat, c: nat)
    requires Sends(s, a, n, c) && s.conns[c].hand == [] && s.conns[c].queue == []
    ensures Enabled(s, CallMoves(n, Enqueue))
    ensures var t := ApplyCall(s, n, Enqueue);
      && Connected(t, a, c) && |t.calls| == |s.calls| && t.calls[n] == s.calls[n].(phase := Waiting)
      && t.conns[c] == s.conns[c].(queue := [s.calls[n].msg], enqueued := s.conns[c].enqueued + [s.calls[n].msg])
  {
  }

  /** Request m of waiting call n is at place p on the wire to the agent. */
  predicate Going(s: Net, n: nat, c: nat, p: nat) {
    && n < |s.calls| && s.calls[n].phase.Waiting? && s.calls[n].msg.kind.Request?
    && c < |s.conns| && s.conns[c].registered && p < |s.conns[c].down| && s.conns[c].down[p] == s.calls[n].msg
  }

  lemma LoopPasses(s: Net, c: nat)
    requires c < |s.conns| && s.conns[c].registered && !s.conns[c].loopOver
    requires s.conns[c].hand == [] && |s.conns[c].queue| == 1
    ensures Enabled(s, ConnMoves(c, LoopTakes))
    ensures var t := ApplyConn(s, c, LoopTakes);
      && Enabled(t, ConnMoves(c, LoopHands(true)))
      && var u := ApplyConn(t, c, LoopHands(true));
      && u.calls == s.calls && |u.conns| == |s.conns| && u.conns[c].registered
      && u.conns[c].down == s.conns[c].down + [s.conns[c].queue[0]]
  {
  }

  lemma RequestGoesOut(es: seq<Event>, a: string, n: nat, c: nat) returns (fs: seq<Event>, p: nat)
    requires IsHistory(es) && Sends(After(es), a, n, c) && After(es).calls[n].msg.kind.Request?
    ensures IsHistory(fs) && es <= fs && Going(After(fs), n, c, p) && After(fs).calls[n].msg == After(es).calls[n].msg
  {
    fs := EmptySendCh(es, a, n, c);
    Queues(After(fs), a, n, c);
    fs := More(fs, CallMoves(n, Enqueue));
    p := |After(fs).conns[c].down|;
    LoopPasses(After(fs), c);
    fs := More(fs, ConnMoves(c, LoopTakes));
    fs := More(fs, ConnMoves(c, LoopHands(true)));
  }

  lemma AgentGets(s: Net, c: nat)
    requires c < |s.conns| && s.conns[c].client < |s.clients| && s.conns[c].down != []
    ensures var j := s.conns[c].client;
      && Enabled(s, AgentMoves(j, Gets(c)))
      && var t := ApplyAgent(s, j, Gets(c));
      && t.calls == s.calls && |t.clients| == |s.clients|
      && |t.conns| == |s.conns| && t.conns[c] == s.conns[c].(down := s.conns[c].down[1..])
      && (s.conns[c].down[0].kind.Request? ==>
            t.clients[j].tasks == s.clients[j].tasks + [Task(s.conns[c].down[0], Running, 0, 0)])
  {
  }

  lemma {:induction false} RequestTakenUp(es: seq<Event>, n: nat, c: nat, p: nat) returns (fs: seq<Event>, j: nat, k: nat)
    requires IsHistory(es) && Going(After(es), n, c, p)
    ensures IsHistory(fs) && es <= fs && Answering(After(fs), n, j, k, c) && After(fs).calls == After(es).calls
    decreases p
  {
    var s := After(es);
    Reached(es);
    j := s.conns[c].client;
    AgentGets(s, c);
    var gs := More(es, AgentMoves(j, Gets(c)));
    if p == 0 {
      fs, k := gs, |s.clients[j].tasks|;
    } else {
      fs, j, k := RequestTakenUp(gs, n, c, p - 1);
    }
  }

  /**
   From every reachable state in which an agent is connected and its connection's send loop runs: a new request
   to it, with any fresh id, can be answered with anything, and the call then returns exactly that.
   */
  lemma RoundTrip(es: seq<Event>, a: string, c: nat, id: nat, body: string, answer: string) returns (fs: seq<Event>, n: nat)
    requires IsHistory(es) && Connected(After(es), a, c) && id !in After(es).hist.ids
    ensures IsHistory(fs) && es + [StartCall(a, id, body)] <= fs && n == |After(es).calls|
    ensures Returns(After(fs), n, Msg(id, Response, answer))
  {
    n := |After(es).calls|;
    fs := More(es, StartCall(a, id, body));
    fs := More(fs, CallMoves(n, LookUp));
    var p, j, k;
    fs, p := RequestGoesOut(fs, a, n, c);
    fs, j, k := RequestTakenUp(fs, n, c, p);
    fs := AnswerArrives(fs, n, j, k, c, answer);
  }

  /** There is such a state. */
  lemma AgentConnects() returns (es: seq<Event>)
    ensures IsHistory(es) && Connected(After(es), "a", 0)
  {
    es := OneAgentIsReached([]);
  }
}
