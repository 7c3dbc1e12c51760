/** What holds of every run of the request/response system. */
module CorrelationTheorems {
  import opened Basics
  import opened Correlation
  import opened CorrelationInv
  import K = CorrelationTokens

  /** The state before step i of the run. */
  ghost function StateAt(s: Net, es: seq<Event>, i: nat): Net
    requires IsRun(s, es) && i <= |es|
    decreases i
  {
    if i == 0 then s else StateAt(Apply(s, es[0]), es[1..], i - 1)
  }

  ghost predicate IsHistory(es: seq<Event>) {
    IsRun(Initial(), es)
  }

  ghost function After(es: seq<Event>): Net
    requires IsHistory(es)
  {
    Run(Initial(), es)
  }

  lemma Reached(es: seq<Event>)
    requires IsHistory(es)
    ensures Inv(After(es))
  {
    InitialInv();
    RunInv(Initial(), es);
  }

  // ---- the answer a call returns ----

  /** In this step an agent with this id finishes handling this request with this response. */
  ghost predicate Produces(s: Net, e: Event, agent: string, request: Msg, response: Msg) {
    && Enabled(s, e) && e.AgentMoves? && e.step.Answers?
    && s.clients[e.j].agent == agent
    && s.clients[e.j].tasks[e.step.k].request == request
    && response == Msg(request.id, Response, e.step.body)
  }

  /** In this step the server receives the message on a stream registered under this agent id. */
  ghost predicate Arrives(s: Net, e: Event, agent: string, m: Msg) {
    && Enabled(s, e) && e.Receive?
    && s.conns[e.c].registered && s.conns[e.c].agent == agent && s.conns[e.c].up[0].msg == m
  }

  lemma StepOutputs(s: Net, e: Event, agent: string, request: Msg, m: Msg)
    requires Enabled(s, e) && Output(agent, request, m) in Apply(s, e).hist.outputs
    ensures Output(agent, request, m) in s.hist.outputs || Produces(s, e, agent, request, m)
  {
    StepHistory(s, e);
    if e.AgentMoves? {
      AgentHistory(s, e.j, e.step);
    }
  }

  lemma StepReceipts(s: Net, e: Event, agent: string, m: Msg)
    requires Enabled(s, e) && Receipt(agent, m) in Apply(s, e).hist.receipts
    ensures Receipt(agent, m) in s.hist.receipts || Arrives(s, e, agent, m)
  {
    StepHistory(s, e);
    if e.Receive? {
      ReceiveHistory(s, e.c, e.h);
    }
  }

  lemma {:induction false} OutputHappened(s: Net, es: seq<Event>, agent: string, request: Msg, m: Msg) returns (i: nat)
    requires IsRun(s, es) && Output(agent, request, m) in Run(s, es).hist.outputs
    requires Output(agent, request, m) !in s.hist.outputs
    ensures i < |es| && Produces(StateAt(s, es, i), es[i], agent, request, m)
    decreases |es|
  {
    if Output(agent, request, m) in Apply(s, es[0]).hist.outputs {
      StepOutputs(s, es[0], agent, request, m);
    }
    if Produces(s, es[0], agent, request, m) {
      i := 0;
    } else {
      var k := OutputHappened(Apply(s, es[0]), es[1..], agent, request, m);
      i := k + 1;
    }
  }

  lemma {:induction false} ReceiptHappened(s: Net, es: seq<Event>, agent: string, m: Msg) returns (i: nat)
    requires IsRun(s, es) && Receipt(agent, m) in Run(s, es).hist.receipts && Receipt(agent, m) !in s.hist.receipts
    ensures i < |es| && Arrives(StateAt(s, es, i), es[i], agent, m)
    decreases |es|
  {
    if Receipt(agent, m) in Apply(s, es[0]).hist.receipts {
      StepReceipts(s, es[0], agent, m);
    }
    if Arrives(s, es[0], agent, m) {
      i := 0;
    } else {
      var k := ReceiptHappened(Apply(s, es[0]), es[1..], agent, m);
      i := k + 1;
    }
  }

  lemma StepIssues(s: Net, e: Event, agent: string, m: Msg)
    requires Enabled(s, e) && Issue(agent, m) in Apply(s, e).hist.issued
    ensures Issue(agent, m) in s.hist.issued || (e == StartCall(agent, m.id, m.body) && m.kind.Request?)
  {
    StepHistory(s, e);
  }

  lemma {:induction false} IssueHappened(s: Net, es: seq<Event>, agent: string, m: Msg) returns (i: nat)
    requires IsRun(s, es) && Issue(agent, m) in Run(s, es).hist.issued && Issue(agent, m) !in s.hist.issued
    ensures i < |es| && es[i] == StartCall(agent, m.id, m.body)
    decreases |es|
  {
    if Issue(agent, m) in Apply(s, es[0]).hist.issued {
      StepIssues(s, es[0], agent, m);
      i := 0;
    } else {
      var k := IssueHappened(Apply(s, es[0]), es[1..], agent, m);
      i := k + 1;
    }
  }

  /** A state on the way is the end of the run so far. */
  lemma {:induction false} Prefix(s: Net, es: seq<Event>, k: nat)
    requires IsRun(s, es) && k <= |es|
    ensures IsRun(s, es[..k]) && Run(s, es[..k]) == StateAt(s, es, k)
    ensures forall i: nat :: i <= k ==> StateAt(s, es[..k], i) == StateAt(s, es, i)
    decreases k
  {
    if k > 0 {
      Prefix(Apply(s, es[0]), es[1..], k - 1);
      assert es[..k][1..] == es[1..][..k - 1];
    }
  }

  /** What call n has returned or is about to return. */
  ghost predicate Returns(s: Net, n: nat, m: Msg) {
    n < |s.calls| && (s.calls[n].phase.Ended? || s.calls[n].phase.Closed?) && s.calls[n].phase.result == Some(m)
  }

  /** A response that comes in was produced before. */
  lemma ProducedBefore(es: seq<Event>, received: nat, agent: string, request: Msg, m: Msg) returns (produced: nat)
    requires IsHistory(es) && received < |es| && Arrives(StateAt(Initial(), es, received), es[received], agent, m)
    requires m.kind.Response? && m.id == request.id && Issue(agent, request) in After(es).hist.issued
    ensures produced < received && Produces(StateAt(Initial(), es, produced), es[produced], agent, request, m)
  {
    Prefix(Initial(), es, received);
    var before := es[..received];
    var s := After(before);
    Reached(before);
    Reached(es);
    var c := es[received].c;
    assert ConnOk(s.hist, s.conns[c]) && ItemOk(s.hist, agent, s.conns[c].up[0]);
    var item := s.conns[c].up[0];
    assert Issue(agent, item.request) in s.hist.issued;
    IssuedStays(es, received, Issue(agent, item.request));
    produced := OutputHappened(Initial(), before, agent, request, m);
  }

  lemma StepKeepsIssued(s: Net, e: Event)
    requires Enabled(s, e)
    ensures s.hist.issued <= Apply(s, e).hist.issued
  {
    StepHistory(s, e);
  }

  lemma {:induction false} RunKeepsIssued(s: Net, es: seq<Event>, k: nat)
    requires IsRun(s, es) && k <= |es|
    ensures StateAt(s, es, k).hist.issued <= Run(s, es).hist.issued
    decreases |es|
  {
    if es != [] {
      StepKeepsIssued(s, es[0]);
      if k > 0 {
        RunKeepsIssued(Apply(s, es[0]), es[1..], k - 1);
      } else {
        RunKeepsIssued(Apply(s, es[0]), es[1..], 0);
      }
    }
  }

  lemma IssuedStays(es: seq<Event>, k: nat, x: Issue)
    requires IsHistory(es) && k <= |es| && x in StateAt(Initial(), es, k).hist.issued
    ensures x in After(es).hist.issued
  {
    RunKeepsIssued(Initial(), es, k);
  }

  /** A request that an agent handles was issued before. */
  lemma IssuedBefore(es: seq<Event>, produced: nat, agent: string, request: Msg, m: Msg) returns (started: nat)
    requires IsHistory(es) && produced < |es| && Produces(StateAt(Initial(), es, produced), es[produced], agent, request, m)
    ensures started < produced && es[started] == StartCall(agent, request.id, request.body)
  {
    Prefix(Initial(), es, produced);
    var before := es[..produced];
    var s := After(before);
    Reached(before);
    var x := s.clients[es[produced].j];
    assert ClientOk(s.hist, x) && TaskOk(s.hist, x.agent, x.tasks[es[produced].step.k]);
    started := IssueHappened(Initial(), before, agent, request);
  }

  /**
   Whatever was lost, delayed, replaced or reconnected: if a call returns a response, that response carries
   the request's id; the call was started, then an agent with the addressed id produced the response by
   handling exactly that request, and then it was received on a stream registered under that agent id.
   */
  lemma ResponseIsFaithful(es: seq<Event>, n: nat, m: Msg) returns (started: nat, produced: nat, received: nat)
    requires IsHistory(es) && Returns(After(es), n, m)
    ensures m.id == After(es).calls[n].msg.id && started < produced < received < |es|
    ensures var x := After(es).calls[n];
      && es[started] == StartCall(x.agent, x.msg.id, x.msg.body)
      && Produces(StateAt(Initial(), es, produced), es[produced], x.agent, x.msg, m)
      && Arrives(StateAt(Initial(), es, received), es[received], x.agent, m)
  {
    Reached(es);
    var x := After(es).calls[n];
    assert CallOk(After(es).hist, x);
    received := ReceiptHappened(Initial(), es, x.agent, m);
    produced := ProducedBefore(es, received, x.agent, x.msg, m);
    started := IssuedBefore(es, produced, x.agent, x.msg, m);
  }

  // ---- the pending map and the response channels ----

  predicate InFlight(x: Call) {
    !x.phase.Closed?
  }

  lemma PendingIsExact(es: seq<Event>, id: nat)
    requires IsHistory(es)
    ensures var s := After(es);
      && (id in s.pending <==> exists n: nat :: n < |s.calls| && s.calls[n].msg.id == id && InFlight(s.calls[n]))
      && (forall n: nat, m: nat :: n < |s.calls| && m < |s.calls| && s.calls[n].msg.id == s.calls[m].msg.id ==> n == m)
  {
    Reached(es);
    var s := After(es);
    if id in s.pending {
      assert s.calls[s.pending[id]].msg.id == id && InFlight(s.calls[s.pending[id]]);
    }
  }

  lemma ChannelsHoldOwnResponse(es: seq<Event>, n: nat)
    requires IsHistory(es) && n < |After(es).calls|
    ensures var x := After(es).calls[n];
      |x.chan| <= 1 && forall i :: 0 <= i < |x.chan| ==> x.chan[i].id == x.msg.id
  {
    Reached(es);
    assert CallOk(After(es).hist, After(es).calls[n]);
  }

  lemma OneToken(law: K.Law, id: nat, es: seq<Event>)
    requires IsHistory(es)
    ensures K.Tokens(law, id, After(es))
  {
    InitialInv();
    K.NoToken(law, id);
    K.AtMostOneToken(law, id, Initial(), es);
  }

  /**
   HandleResponse can always finish, also for a call that has returned since the lookup: the channel it found is
   empty and takes the response, so the branch for a full channel is never taken, and no other call is touched.
   */
  lemma HandleResponseNeverBlocks(es: seq<Event>, h: nat)
    requires IsHistory(es) && h in After(es).handlers
    ensures var s := After(es);
      && Enabled(s, Deliver(h))
      && var t := Apply(s, Deliver(h));
      && var n := s.handlers[h].n;
      && s.calls[n].chan == [] && t.calls[n] == s.calls[n].(chan := [s.handlers[h].msg])
      && t.pending == s.pending && |t.calls| == |s.calls|
      && (forall k: nat :: k < |s.calls| && k != n ==> t.calls[k] == s.calls[k])
  {
    Reached(es);
    OneToken(K.WholeWay, After(es).handlers[h].msg.id, es);
    K.HandlerFindsRoom(After(es), h);
  }

  /** At most one HandleResponse is ever under way for a call. */
  lemma OneHandlerPerCall(es: seq<Event>, h: nat, g: nat)
    requires IsHistory(es) && h in After(es).handlers && g in After(es).handlers
    requires After(es).handlers[h].n == After(es).handlers[g].n
    ensures h == g
  {
    Reached(es);
    OneToken(K.WholeWay, After(es).handlers[h].msg.id, es);
    K.HandlersAreOne(After(es), h, g);
  }

  /** Over all agents and all their streams, a request is taken up by at most one goroutine. */
  lemma TakenUpOnce(es: seq<Event>, j: nat, k: nat, i: nat, l: nat)
    requires IsHistory(es) && j < |After(es).clients| && k < |After(es).clients[j].tasks|
    requires i < |After(es).clients| && l < |After(es).clients[i].tasks|
    requires After(es).clients[j].tasks[k].request.id == After(es).clients[i].tasks[l].request.id
    ensures j == i && k == l
  {
    OneToken(K.TakenUp, After(es).clients[j].tasks[k].request.id, es);
    K.TasksAreOne(After(es), j, k, i, l);
  }

  ghost predicate HasResult(s: Net, n: nat, r: Option<Msg>) {
    n < |s.calls| && (s.calls[n].phase.Ended? || s.calls[n].phase.Closed?) && s.calls[n].phase.result == r
  }

  lemma AgentStepKeepsCalls(s: Net, j: nat, step: AgentStep)
    requires Enabled(s, AgentMoves(j, step))
    ensures ApplyAgent(s, j, step).calls == s.calls
  {
  }

  lemma CallKeepsResult(s: Net, k: nat, step: CallStep, n: nat, r: Option<Msg>)
    requires Enabled(s, CallMoves(k, step)) && HasResult(s, n, r)
    ensures HasResult(ApplyCall(s, k, step), n, r)
  {
  }

  lemma PongKeepsCalls(s: Net, id: nat, step: PongStep)
    requires Enabled(s, PongMoves(id, step))
    ensures ApplyPong(s, id, step).calls == s.calls && ApplyPong(s, id, step).clients == s.clients
  {
  }

  lemma StepKeepsResult(s: Net, e: Event, n: nat, r: Option<Msg>)
    requires Enabled(s, e) && HasResult(s, n, r)
    ensures HasResult(Apply(s, e), n, r)
  {
    match e
    case CallMoves(k, step) => CallKeepsResult(s, k, step, n, r);
    case AgentMoves(j, step) => AgentStepKeepsCalls(s, j, step);
    case PongMoves(id, step) => PongKeepsCalls(s, id, step);
    case ConnMoves(c, step) => assert ApplyConn(s, c, step).calls == s.calls;
    case Receive(c, h) => assert Received(s, c, h).calls == s.calls;
    case _ =>
  }

  /** A call consumes at most one response: its outcome, once decided, never changes. */
  lemma {:induction false} ResultIsFinal(s: Net, es: seq<Event>, n: nat, r: Option<Msg>)
    requires IsRun(s, es) && HasResult(s, n, r)
    ensures HasResult(Run(s, es), n, r)
    decreases |es|
  {
    if es != [] {
      StepKeepsResult(s, es[0], n, r);
      ResultIsFinal(Apply(s, es[0]), es[1..], n, r);
    }
  }

  // ---- queues ----

  /** The messages handed to a stream are a prefix of those queued on its connection, in the same order. */
  lemma HandedIsPrefix(es: seq<Event>, c: nat)
    requires IsHistory(es) && c < |After(es).conns|
    ensures var x := After(es).conns[c];
      && x.handed <= x.enqueued
      && x.enqueued == x.handed + x.hand + x.queue
      && |x.queue| <= SEND_CHANNEL_BUFFER && |x.hand| <= 1
  {
    Reached(es);
    assert ConnOk(After(es).hist, After(es).conns[c]);
  }

  /** In this step the goroutine of request k of agent j attempts its response. */
  ghost predicate AttemptOf(e: Event, j: nat, k: nat) {
    e.AgentMoves? && e.j == j && e.step.Answers? && e.step.k == k
  }

  /** In this step a send loop of agent j writes the response to request k to a stream. */
  ghost predicate WriteOf(s: Net, e: Event, j: nat, k: nat) {
    && Enabled(s, e) && e.AgentMoves? && e.j == j && e.step.Writes? && e.step.ok
    && var it := s.clients[j].loops[e.step.loop]; it.ResponseItem? && it.task == k
  }

  ghost function Attempts(s: Net, es: seq<Event>, j: nat, k: nat): nat
    requires IsRun(s, es)
    decreases |es|
  {
    if es == [] then 0 else (if AttemptOf(es[0], j, k) then 1 else 0) + Attempts(Apply(s, es[0]), es[1..], j, k)
  }

  ghost function Writings(s: Net, es: seq<Event>, j: nat, k: nat): nat
    requires IsRun(s, es)
    decreases |es|
  {
    if es == [] then 0 else (if WriteOf(s, es[0], j, k) then 1 else 0) + Writings(Apply(s, es[0]), es[1..], j, k)
  }

  ghost function Counted(s: Net, j: nat, k: nat): (nat, nat) {
    if j < |s.clients| && k < |s.clients[j].tasks| then
      (s.clients[j].tasks[k].attempts, s.clients[j].tasks[k].transmissions)
    else
      (0, 0)
  }

  /** Passing an item on, or putting it down, counts as a transmission of its goroutine exactly if it is sent. */
  lemma StatusCounts(x: Client, it: Item, st: Status, k: nat)
    requires TaskOf(x, it) && k < |x.tasks|
    ensures var y := SetStatus(x, it, st);
      && |y.tasks| == |x.tasks| && y.tasks[k].attempts == x.tasks[k].attempts
      && y.tasks[k].transmissions ==
           x.tasks[k].transmissions + (if st.Sent? && it.ResponseItem? && it.task == k then 1 else 0)
  {
  }

  /** What a step of agent i does to the records of its own goroutines. */
  lemma TaskCounts(s: Net, i: nat, step: AgentStep, k: nat)
    requires Enabled(s, AgentMoves(i, step)) && k < |s.clients[i].tasks|
    ensures var e, x, y := AgentMoves(i, step), s.clients[i], ApplyAgent(s, i, step).clients[i];
      && |x.tasks| <= |y.tasks|
      && y.tasks[k].attempts == x.tasks[k].attempts + (if AttemptOf(e, i, k) then 1 else 0)
      && y.tasks[k].transmissions == x.tasks[k].transmissions + (if WriteOf(s, e, i, k) then 1 else 0)
  {
    var x := s.clients[i];
    match step
    case Takes(loop) => StatusCounts(x, x.out[0], InHand(loop), k);
    case Writes(loop, _, ok) => StatusCounts(x, x.loops[loop], if ok then Sent else Lost, k);
    case Drops(loop) => StatusCounts(x, x.loops[loop], Lost, k);
    case _ =>
  }

  lemma NewTaskCounts(s: Net, i: nat, step: AgentStep, k: nat)
    requires Enabled(s, AgentMoves(i, step)) && |s.clients[i].tasks| <= k
    ensures var y := ApplyAgent(s, i, step).clients[i];
      k < |y.tasks| ==> y.tasks[k].attempts == 0 && y.tasks[k].transmissions == 0
    ensures !AttemptOf(AgentMoves(i, step), i, k) && !WriteOf(s, AgentMoves(i, step), i, k)
  {
  }

  lemma OtherClients(s: Net, i: nat, step: AgentStep, j: nat)
    requires Enabled(s, AgentMoves(i, step))
    ensures var t := ApplyAgent(s, i, step);
      |t.clients| == |s.clients| && (j < |s.clients| && j != i ==> t.clients[j] == s.clients[j])
  {
  }

  lemma AgentCounts(s: Net, i: nat, step: AgentStep, j: nat, k: nat)
    requires Enabled(s, AgentMoves(i, step))
    ensures var e := AgentMoves(i, step);
      && Counted(Apply(s, e), j, k).0 == Counted(s, j, k).0 + (if AttemptOf(e, j, k) then 1 else 0)
      && Counted(Apply(s, e), j, k).1 == Counted(s, j, k).1 + (if WriteOf(s, e, j, k) then 1 else 0)
  {
    OtherClients(s, i, step, j);
    if j == i {
      if k < |s.clients[i].tasks| {
        TaskCounts(s, i, step, k);
      } else {
        NewTaskCounts(s, i, step, k);
      }
    }
  }

  lemma StepCounts(s: Net, e: Event, j: nat, k: nat)
    requires Enabled(s, e)
    ensures Counted(Apply(s, e), j, k).0 == Counted(s, j, k).0 + (if AttemptOf(e, j, k) then 1 else 0)
    ensures Counted(Apply(s, e), j, k).1 == Counted(s, j, k).1 + (if WriteOf(s, e, j, k) then 1 else 0)
  {
    match e
    case AgentMoves(i, step) => AgentCounts(s, i, step, j, k);
    case ConnMoves(c, step) => assert ApplyConn(s, c, step).clients == s.clients;
    case CallMoves(n, step) => assert ApplyCall(s, n, step).clients == s.clients;
    case PongMoves(id, step) => PongKeepsCalls(s, id, step);
    case Receive(c, h) => assert Received(s, c, h).clients == s.clients;
    case _ =>
  }

  lemma {:induction false} RunCounts(s: Net, es: seq<Event>, j: nat, k: nat)
    requires IsRun(s, es)
    ensures Counted(Run(s, es), j, k).0 == Counted(s, j, k).0 + Attempts(s, es, j, k)
    ensures Counted(Run(s, es), j, k).1 == Counted(s, j, k).1 + Writings(s, es, j, k)
    decreases |es|
  {
    if es != [] {
      StepCounts(s, es[0], j, k);
      RunCounts(Apply(s, es[0]), es[1..], j, k);
    }
  }

  /**
   In every run the goroutine of each request an agent has received attempts exactly one response once it
   is done, and that response is written to a stream at most once, by whichever send loop.
   */
  lemma AnsweredOnce(es: seq<Event>, j: nat, k: nat)
    requires IsHistory(es) && j < |After(es).clients| && k < |After(es).clients[j].tasks|
    ensures Attempts(Initial(), es, j, k) == if After(es).clients[j].tasks[k].status.Running? then 0 else 1
    ensures Writings(Initial(), es, j, k) == if After(es).clients[j].tasks[k].status.Sent? then 1 else 0
  {
    Reached(es);
    RunCounts(Initial(), es, j, k);
    var x := After(es).clients[j];
    assert ClientOk(After(es).hist, x) && TaskOk(After(es).hist, x.agent, x.tasks[k]);
  }

  /** The responses waiting at an agent or held by its send loops answer the requests they came from. */
  lemma QueuedAnswersMatch(es: seq<Event>, j: nat, i: nat)
    requires IsHistory(es) && j < |After(es).clients| && i < |After(es).clients[j].out|
    requires After(es).clients[j].out[i].ResponseItem?
    ensures var x := After(es).clients[j];
      && x.out[i].task < |x.tasks|
      && x.out[i].msg.id == x.tasks[x.out[i].task].request.id
      && x.tasks[x.out[i].task].status.Queued?
      && (forall k :: 0 <= k < |x.out| && k != i && x.out[k].ResponseItem? ==> x.out[k].task != x.out[i].task)
  {
    Reached(es);
    var x := After(es).clients[j];
    assert ClientOk(After(es).hist, x) && Belongs(x.tasks, x.out[i], Queued);
  }

  // ---- sending on a closed channel ----

  /**
   SendToAgent can meet a closed channel exactly when the connection it looked up has been replaced or
   removed since.
   */
  lemma SendOnClosedIff(es: seq<Event>, n: nat)
    requires IsHistory(es) && n < |After(es).calls| && After(es).calls[n].phase.Sending?
    ensures var s := After(es);
      var x := s.calls[n];
      Enabled(s, CallMoves(n, SendFails(SendOnClosed))) <==> !(x.agent in s.current && s.current[x.agent] == x.phase.conn)
  {
    Reached(es);
  }

  // ---- and a PONG on a closed channel ----

  /** No step renames a connection or takes its registration back. */
  ghost predicate Keeps(xs: seq<Conn>, ys: seq<Conn>) {
    |xs| <= |ys| && forall c: nat :: c < |xs| ==> ys[c].agent == xs[c].agent && (xs[c].registered ==> ys[c].registered)
  }

  lemma ConnKeeps(s: Net, c: nat, step: ConnStep)
    requires Enabled(s, ConnMoves(c, step))
    ensures Keeps(s.conns, ApplyConn(s, c, step).conns)
  {
  }

  lemma OneKept(xs: seq<Conn>, c: nat, y: Conn)
    requires c < |xs| && y.agent == xs[c].agent && (xs[c].registered ==> y.registered)
    ensures Keeps(xs, xs[c := y])
  {
  }

  lemma AgentKeeps(s: Net, j: nat, step: AgentStep)
    requires Enabled(s, AgentMoves(j, step))
    ensures Keeps(s.conns, ApplyAgent(s, j, step).conns) && ApplyAgent(s, j, step).pongs == s.pongs
  {
    match step
    case Gets(c) => OneKept(s.conns, c, s.conns[c].(down := s.conns[c].down[1..]));
    case Writes(loop, c, ok) =>
      OneKept(s.conns, c, s.conns[c].(up := s.conns[c].up + [s.clients[j].loops[loop]]));
    case _ =>
  }

  lemma CallKeeps(s: Net, n: nat, step: CallStep)
    requires Enabled(s, CallMoves(n, step))
    ensures Keeps(s.conns, ApplyCall(s, n, step).conns) && ApplyCall(s, n, step).pongs == s.pongs
  {
  }

  /** A PONG's lookup has found a registered connection of its agent. */
  ghost predicate PongsOk(s: Net) {
    forall id :: id in s.pongs ==>
      var p := s.pongs[id];
      p.conn < |s.conns| && s.conns[p.conn].agent == p.agent && s.conns[p.conn].registered
  }

  lemma PongsKept(s: Net, t: Net)
    requires PongsOk(s) && Keeps(s.conns, t.conns) && t.pongs == s.pongs
    ensures PongsOk(t)
  {
  }

  lemma NewPong(s: Net, c: nat, id: nat)
    requires CurrentOk(s.conns, s.current) && PongsOk(s) && Enabled(s, ConnMoves(c, PongLookUp(id)))
    ensures PongsOk(ApplyConn(s, c, PongLookUp(id)))
  {
    var t := ApplyConn(s, c, PongLookUp(id));
    var a := s.conns[c].agent;
    assert t.conns == s.conns;
    assert t.pongs == if a in s.current then s.pongs[id := PongSend(a, s.current[a])] else s.pongs;
  }

  lemma ConnKeepsPongs(s: Net, c: nat, step: ConnStep)
    requires Enabled(s, ConnMoves(c, step)) && !step.PongLookUp?
    ensures ApplyConn(s, c, step).pongs == s.pongs
  {
  }

  lemma LookUpPongs(s: Net, c: nat, step: ConnStep)
    requires CurrentOk(s.conns, s.current) && PongsOk(s) && Enabled(s, ConnMoves(c, step))
    ensures PongsOk(ApplyConn(s, c, step))
  {
    if step.PongLookUp? {
      NewPong(s, c, step.id);
    } else {
      ConnKeeps(s, c, step);
      ConnKeepsPongs(s, c, step);
      PongsKept(s, ApplyConn(s, c, step));
    }
  }

  lemma SendPongs(s: Net, id: nat, step: PongStep)
    requires PongsOk(s) && Enabled(s, PongMoves(id, step))
    ensures PongsOk(ApplyPong(s, id, step))
  {
    var c := s.pongs[id].conn;
    OneKept(s.conns, c, Queue(s.conns[c], Msg(id, Pong, "")));
    assert Keeps(s.conns, ApplyPong(s, id, step).conns);
  }

  lemma ReceiveKeeps(s: Net, c: nat, h: nat)
    requires Enabled(s, Receive(c, h))
    ensures Keeps(s.conns, Received(s, c, h).conns) && Received(s, c, h).pongs == s.pongs
  {
    OneKept(s.conns, c, s.conns[c].(up := s.conns[c].up[1..]));
  }

  lemma RemoveKeeps(s: Net, agent: string)
    requires Enabled(s, Remove(agent))
    ensures Keeps(s.conns, Apply(s, Remove(agent)).conns) && Apply(s, Remove(agent)).pongs == s.pongs
  {
    OneKept(s.conns, s.current[agent], s.conns[s.current[agent]].(closed := true));
  }

  lemma OtherPongs(s: Net, e: Event)
    requires Enabled(s, e) && !e.CallMoves? && !e.ConnMoves? && !e.PongMoves? && !e.AgentMoves?
    ensures Keeps(s.conns, Apply(s, e).conns) && Apply(s, e).pongs == s.pongs
  {
    match e
    case Receive(c, h) => ReceiveKeeps(s, c, h);
    case Remove(agent) => RemoveKeeps(s, agent);
    case _ =>
  }

  lemma PongsStep(s: Net, e: Event)
    requires Inv(s) && PongsOk(s) && Enabled(s, e)
    ensures PongsOk(Apply(s, e))
  {
    match e
    case ConnMoves(c, step) => LookUpPongs(s, c, step);
    case PongMoves(id, step) => SendPongs(s, id, step);
    case CallMoves(n, step) =>
      CallKeeps(s, n, step);
      PongsKept(s, ApplyCall(s, n, step));
    case AgentMoves(j, step) =>
      AgentKeeps(s, j, step);
      PongsKept(s, ApplyAgent(s, j, step));
    case _ =>
      OtherPongs(s, e);
      PongsKept(s, Apply(s, e));
  }

  lemma {:induction false} PongsRun(s: Net, es: seq<Event>)
    requires Inv(s) && PongsOk(s) && IsRun(s, es)
    ensures PongsOk(Run(s, es))
    decreases |es|
  {
    if es != [] {
      PongsStep(s, es[0]);
      StepInv(s, es[0]);
      PongsRun(Apply(s, es[0]), es[1..]);
    }
  }

  /** The same for a PONG, whose send runs in the stream's receive loop. */
  lemma PongOnClosedIff(es: seq<Event>, id: nat)
    requires IsHistory(es) && id in After(es).pongs
    ensures var s := After(es);
      var p := s.pongs[id];
      Enabled(s, PongMoves(id, PongFails(SendOnClosed))) <==> !(p.agent in s.current && s.current[p.agent] == p.conn)
  {
    InitialInv();
    Reached(es);
    PongsRun(Initial(), es);
  }

  lemma Prepend(s: Net, e: Event, es: seq<Event>)
    requires Enabled(s, e) && IsRun(Apply(s, e), es)
    ensures IsRun(s, [e] + es) && Run(s, [e] + es) == Run(Apply(s, e), es)
  {
    assert ([e] + es)[1..] == es;
  }

  /** An agent called "a" with one registered connection. */
  ghost function OneAgent(): Net {
    Initial().(
      clients := [Client("a", [], [], map[])],
      conns := [Conn("a", 0, true, false, false, [], [], [], [], [], [])],
      current := map["a" := 0])
  }

  lemma OneAgentIsReached(es: seq<Event>) returns (all: seq<Event>)
    requires IsRun(OneAgent(), es)
    ensures IsHistory(all) && After(all) == Run(OneAgent(), es)
  {
    var s1 := Apply(Initial(), NewClient("a"));
    var s2 := Apply(s1, AgentMoves(0, Open));
    assert Apply(s2, ConnMoves(0, Register)) == OneAgent();
    Prepend(s2, ConnMoves(0, Register), es);
    Prepend(s1, AgentMoves(0, Open), [ConnMoves(0, Register)] + es);
    Prepend(Initial(), NewClient("a"), [AgentMoves(0, Open)] + ([ConnMoves(0, Register)] + es));
    all := [NewClient("a")] + ([AgentMoves(0, Open)] + ([ConnMoves(0, Register)] + es));
  }

  /** And it does happen: the connection goes away between the lookup and the send. */
  lemma SendOnClosedHappens() returns (es: seq<Event>)
    ensures IsHistory(es) && 0 < |After(es).calls| && Enabled(After(es), CallMoves(0, SendFails(SendOnClosed)))
  {
    var e1, e2, e3 := StartCall("a", 7, ""), CallMoves(0, LookUp), Remove("a");
    var s1 := Apply(OneAgent(), e1);
    var s2 := Apply(s1, e2);
    Prepend(s2, e3, []);
    assert [e3] + [] == [e3];
    Prepend(s1, e2, [e3]);
    Prepend(OneAgent(), e1, [e2] + [e3]);
    es := OneAgentIsReached([e1] + ([e2] + [e3]));
  }

  lemma PongOnClosedHappens() returns (es: seq<Event>)
    ensures IsHistory(es) && 7 in After(es).pongs && Enabled(After(es), PongMoves(7, PongFails(SendOnClosed)))
  {
    var e1, e2 := ConnMoves(0, PongLookUp(7)), Remove("a");
    var s1 := Apply(OneAgent(), e1);
    Prepend(s1, e2, []);
    assert [e2] + [] == [e2];
    Prepend(OneAgent(), e1, [e2]);
    es := OneAgentIsReached([e1] + [e2]);
  }
}
