/** The invariant of the request/response system, kept by every step. */
module CorrelationInv {
  import opened Basics
  import opened Correlation

  // ---- history ----

  ghost predicate HistOk(h: History) {
    && (forall x :: x in h.issued ==> x.msg.kind.Request? && x.msg.id in h.ids)
    && (forall x, y :: x in h.issued && y in h.issued && x.msg.id == y.msg.id ==> x == y)
    && (forall o :: o in h.outputs ==>
          Issue(o.agent, o.request) in h.issued && o.response.id == o.request.id && o.response.kind.Response?)
  }

  predicate Grows(h: History, k: History) {
    h.issued <= k.issued && h.outputs <= k.outputs && h.receipts <= k.receipts
  }

  /** m is what this agent produced for exactly this request, and it came in under this agent's id. */
  predicate Good(h: History, agent: string, request: Msg, m: Msg) {
    m.id == request.id && Output(agent, request, m) in h.outputs && Receipt(agent, m) in h.receipts
  }

  // ---- calls ----

  predicate CallOk(h: History, x: Call) {
    && Issue(x.agent, x.msg) in h.issued
    && (x.chan == [] || (|x.chan| == 1 && Good(h, x.agent, x.msg, x.chan[0])))
    && ((x.phase.Ended? || x.phase.Closed?) && x.phase.result.Some? ==> Good(h, x.agent, x.msg, x.phase.result.value))
  }

  ghost predicate CallsOk(h: History, calls: seq<Call>) {
    forall n: nat :: n < |calls| ==> CallOk(h, calls[n])
  }

  /** The pending map holds exactly the ids of the calls in flight. */
  ghost predicate PendingOk(calls: seq<Call>, pending: map<nat, nat>) {
    && (forall id :: id in pending ==> pending[id] < |calls| && calls[pending[id]].msg.id == id)
    && (forall n: nat :: n < |calls| ==>
          if calls[n].phase.Closed? then calls[n].msg.id !in pending
          else calls[n].msg.id in pending && pending[calls[n].msg.id] == n)
    && (forall n: nat, m: nat :: n < |calls| && m < |calls| && n != m ==> calls[n].msg.id != calls[m].msg.id)
  }

  ghost predicate HandlersOk(h: History, calls: seq<Call>, handlers: map<nat, Handler>) {
    forall t :: t in handlers ==>
      handlers[t].n < |calls| && Good(h, calls[handlers[t].n].agent, calls[handlers[t].n].msg, handlers[t].msg)
  }

  // ---- connections ----

  ghost predicate RequestsOk(h: History, agent: string, q: seq<Msg>) {
    forall i :: 0 <= i < |q| && q[i].kind.Request? ==> Issue(agent, q[i]) in h.issued
  }

  predicate ItemOk(h: History, agent: string, it: Item) {
    match it
    case PingItem(m) => m.kind.Ping?
    case ResponseItem(m, _, request) => Output(agent, request, m) in h.outputs
  }

  ghost predicate ItemsOk(h: History, agent: string, q: seq<Item>) {
    forall i :: 0 <= i < |q| ==> ItemOk(h, agent, q[i])
  }

  /** First in, first out: what was enqueued is what was handed on, then what is in hand, then the queue. */
  predicate FifoOk(x: Conn) {
    && x.enqueued == x.handed + x.hand + x.queue
    && |x.hand| <= 1 && |x.queue| <= SEND_CHANNEL_BUFFER
  }

  ghost predicate ConnOk(h: History, x: Conn) {
    && FifoOk(x)
    && RequestsOk(h, x.agent, x.queue) && RequestsOk(h, x.agent, x.hand) && RequestsOk(h, x.agent, x.down)
    && ItemsOk(h, x.agent, x.up)
  }

  ghost predicate ConnsOk(h: History, conns: seq<Conn>) {
    forall c: nat :: c < |conns| ==> ConnOk(h, conns[c])
  }

  ghost predicate LinksOk(conns: seq<Conn>, clients: seq<Client>) {
    forall c: nat :: c < |conns| ==> conns[c].client < |clients| && clients[conns[c].client].agent == conns[c].agent
  }

  /** A registered connection's channel is open exactly while the registry holds that connection. */
  ghost predicate CurrentOk(conns: seq<Conn>, current: map<string, nat>) {
    && (forall a :: a in current ==>
          current[a] < |conns| && conns[current[a]].agent == a && conns[current[a]].registered && !conns[current[a]].closed)
    && (forall c: nat :: c < |conns| && conns[c].registered && !conns[c].closed ==>
          conns[c].agent in current && current[conns[c].agent] == c)
    && (forall c: nat :: c < |conns| && conns[c].closed ==> conns[c].registered)
  }

  ghost predicate SendingOk(calls: seq<Call>, conns: seq<Conn>) {
    forall n: nat :: n < |calls| && calls[n].phase.Sending? ==>
      && calls[n].phase.conn < |conns| && conns[calls[n].phase.conn].agent == calls[n].agent
      && conns[calls[n].phase.conn].registered
  }

  // ---- agents ----

  predicate TaskOk(h: History, agent: string, t: Task) {
    && Issue(agent, t.request) in h.issued
    && t.attempts == (if t.status.Running? then 0 else 1)
    && t.transmissions == (if t.status.Sent? then 1 else 0)
  }

  predicate Belongs(tasks: seq<Task>, it: Item, st: Status) {
    it.ResponseItem? ==>
      && it.task < |tasks| && tasks[it.task].status == st
      && tasks[it.task].request == it.request && it.msg.id == it.request.id
  }

  ghost predicate ClientOk(h: History, x: Client) {
    && (forall k: nat :: k < |x.tasks| ==> TaskOk(h, x.agent, x.tasks[k]))
    && ItemsOk(h, x.agent, x.out)
    && (forall i :: 0 <= i < |x.out| ==> Belongs(x.tasks, x.out[i], Queued))
    && (forall i, j :: 0 <= i < |x.out| && 0 <= j < |x.out| && i != j && x.out[i].ResponseItem? && x.out[j].ResponseItem? ==>
          x.out[i].task != x.out[j].task)
    && (forall l :: l in x.loops ==> ItemOk(h, x.agent, x.loops[l]) && Belongs(x.tasks, x.loops[l], InHand(l)))
  }

  ghost predicate ClientsOk(h: History, clients: seq<Client>) {
    forall j: nat :: j < |clients| ==> ClientOk(h, clients[j])
  }

  ghost predicate Inv(s: Net) {
    && HistOk(s.hist)
    && CallsOk(s.hist, s.calls) && PendingOk(s.calls, s.pending) && HandlersOk(s.hist, s.calls, s.handlers)
    && ConnsOk(s.hist, s.conns) && LinksOk(s.conns, s.clients) && CurrentOk(s.conns, s.current)
    && SendingOk(s.calls, s.conns) && ClientsOk(s.hist, s.clients)
  }

  lemma InitialInv()
    ensures Inv(Initial())
  {
  }

  // ---- what a step adds to the history ----

  lemma CallHistory(s: Net, n: nat, step: CallStep)
    requires Enabled(s, CallMoves(n, step))
    ensures ApplyCall(s, n, step).hist == s.hist
  {
  }

  lemma ConnHistory(s: Net, c: nat, step: ConnStep)
    requires Enabled(s, ConnMoves(c, step))
    ensures ApplyConn(s, c, step).hist ==
      if step.PongLookUp? then s.hist.(ids := s.hist.ids + {step.id}) else s.hist
  {
  }

  lemma AgentHistory(s: Net, j: nat, step: AgentStep)
    requires Enabled(s, AgentMoves(j, step))
    ensures var k := ApplyAgent(s, j, step).hist;
      && k.issued == s.hist.issued && k.receipts == s.hist.receipts && s.hist.ids <= k.ids
      && (!step.Answers? ==> k.outputs == s.hist.outputs)
      && (step.Answers? ==>
            var request := s.clients[j].tasks[step.k].request;
            k.outputs == s.hist.outputs + {Output(s.clients[j].agent, request, Msg(request.id, Response, step.body))})
  {
  }

  lemma ReceiveHistory(s: Net, c: nat, h: nat)
    requires Enabled(s, Receive(c, h))
    ensures var k := Received(s, c, h).hist;
      && k.ids == s.hist.ids && k.issued == s.hist.issued && k.outputs == s.hist.outputs
      && (k.receipts == s.hist.receipts || k.receipts == s.hist.receipts + {Receipt(s.conns[c].agent, s.conns[c].up[0].msg)})
  {
  }

  /** Only a new call issues a request, only an answer is an output, only a message that comes in a receipt. */
  lemma StepHistory(s: Net, e: Event)
    requires Enabled(s, e)
    ensures var h, k := s.hist, Apply(s, e).hist;
      && h.ids <= k.ids && Grows(h, k)
      && (!e.StartCall? ==> k.issued == h.issued)
      && (!(e.AgentMoves? && e.step.Answers?) ==> k.outputs == h.outputs)
      && (!e.Receive? ==> k.receipts == h.receipts)
  {
    match e
    case CallMoves(n, step) => CallHistory(s, n, step);
    case ConnMoves(c, step) => ConnHistory(s, c, step);
    case AgentMoves(j, step) => AgentHistory(s, j, step);
    case Receive(c, h) => ReceiveHistory(s, c, h);
    case _ =>
  }

  // ---- what growing history keeps ----

  lemma ConnGrows(h: History, k: History, x: Conn)
    requires ConnOk(h, x) && Grows(h, k)
    ensures ConnOk(k, x)
  {
  }

  lemma ClientGrows(h: History, k: History, x: Client)
    requires ClientOk(h, x) && Grows(h, k)
    ensures ClientOk(k, x)
  {
    forall i | 0 <= i < |x.out|
      ensures ItemOk(k, x.agent, x.out[i])
    {
      assert ItemOk(h, x.agent, x.out[i]);
    }
  }

  lemma AllGrow(s: Net, k: History)
    requires Inv(s) && Grows(s.hist, k)
    ensures CallsOk(k, s.calls) && HandlersOk(k, s.calls, s.handlers) && ConnsOk(k, s.conns) && ClientsOk(k, s.clients)
  {
    assert CallsOk(k, s.calls) by {
      assert forall n: nat :: n < |s.calls| ==> CallOk(s.hist, s.calls[n]);
    }
    forall c: nat | c < |s.conns|
      ensures ConnOk(k, s.conns[c])
    {
      ConnGrows(s.hist, k, s.conns[c]);
    }
    forall j: nat | j < |s.clients|
      ensures ClientOk(k, s.clients[j])
    {
      ClientGrows(s.hist, k, s.clients[j]);
    }
  }

  // ---- replacing one record ----

  ghost predicate ServerOk(h: History, calls: seq<Call>, pending: map<nat, nat>, handlers: map<nat, Handler>) {
    CallsOk(h, calls) && PendingOk(calls, pending) && HandlersOk(h, calls, handlers)
  }

  /** Same request to the same agent. */
  predicate SameCall(x: Call, y: Call) {
    x.agent == y.agent && x.msg == y.msg
  }

  lemma CallChanges(h: History, calls: seq<Call>, pending: map<nat, nat>, handlers: map<nat, Handler>, n: nat, y: Call)
    requires ServerOk(h, calls, pending, handlers) && n < |calls|
    requires SameCall(calls[n], y) && CallOk(h, y) && !y.phase.Closed? && !calls[n].phase.Closed?
    ensures ServerOk(h, calls[n := y], pending, handlers)
  {
  }

  /** A late delivery to a call that is over changes only the channel nobody reads any more. */
  lemma ChannelChanges(h: History, calls: seq<Call>, pending: map<nat, nat>, handlers: map<nat, Handler>, n: nat, y: Call)
    requires ServerOk(h, calls, pending, handlers) && n < |calls|
    requires SameCall(calls[n], y) && CallOk(h, y) && y.phase == calls[n].phase
    ensures ServerOk(h, calls[n := y], pending, handlers)
  {
  }

  lemma CallCloses(h: History, calls: seq<Call>, pending: map<nat, nat>, handlers: map<nat, Handler>, n: nat, y: Call)
    requires ServerOk(h, calls, pending, handlers) && n < |calls|
    requires SameCall(calls[n], y) && CallOk(h, y) && y.phase.Closed?
    ensures ServerOk(h, calls[n := y], pending - {y.msg.id}, handlers)
  {
  }

  lemma SendingChanges(calls: seq<Call>, conns: seq<Conn>, n: nat, y: Call)
    requires SendingOk(calls, conns) && n < |calls|
    requires y.phase.Sending? ==>
      y.phase.conn < |conns| && conns[y.phase.conn].agent == y.agent && conns[y.phase.conn].registered
    ensures SendingOk(calls[n := y], conns)
  {
  }

  lemma ConnChanges(h: History, conns: seq<Conn>, clients: seq<Client>, current: map<string, nat>, calls: seq<Call>, c: nat, y: Conn)
    requires ConnsOk(h, conns) && LinksOk(conns, clients) && SendingOk(calls, conns)
    requires c < |conns| && ConnOk(h, y) && y.agent == conns[c].agent && y.client == conns[c].client
    requires conns[c].registered ==> y.registered
    ensures var ds := conns[c := y];
      && ConnsOk(h, ds) && LinksOk(ds, clients) && SendingOk(calls, ds)
      && (CurrentOk(conns, current) && y.registered == conns[c].registered && y.closed == conns[c].closed ==>
            CurrentOk(ds, current))
  {
  }

  lemma ClientChanges(h: History, conns: seq<Conn>, clients: seq<Client>, j: nat, y: Client)
    requires ClientsOk(h, clients) && LinksOk(conns, clients)
    requires j < |clients| && ClientOk(h, y) && y.agent == clients[j].agent
    ensures ClientsOk(h, clients[j := y]) && LinksOk(conns, clients[j := y])
  {
  }

  // ---- calls ----

  lemma StartCallInv(s: Net, agent: string, id: nat, body: string)
    requires Inv(s) && Enabled(s, StartCall(agent, id, body))
    ensures Inv(Apply(s, StartCall(agent, id, body)))
  {
    var t := Apply(s, StartCall(agent, id, body));
    AllGrow(s, t.hist);
    assert forall n: nat :: n < |s.calls| ==> CallOk(s.hist, s.calls[n]);
  }

  lemma CallInv(s: Net, n: nat, step: CallStep)
    requires Inv(s) && Enabled(s, CallMoves(n, step))
    ensures Inv(Apply(s, CallMoves(n, step)))
  {
    var t := Apply(s, CallMoves(n, step));
    var x, y := s.calls[n], t.calls[n];
    assert CallOk(s.hist, x);
    if step.Close? {
      CallCloses(s.hist, s.calls, s.pending, s.handlers, n, y);
    } else {
      CallChanges(s.hist, s.calls, s.pending, s.handlers, n, y);
    }
    SendingChanges(s.calls, s.conns, n, y);
    if step.Enqueue? {
      var c := x.phase.conn;
      QueueOk(s.hist, s.conns[c], x.msg);
      ConnChanges(s.hist, s.conns, s.clients, s.current, t.calls, c, Queue(s.conns[c], x.msg));
    }
  }

  lemma QueueOk(h: History, x: Conn, m: Msg)
    requires ConnOk(h, x) && HasRoom(x) && (m.kind.Request? ==> Issue(x.agent, m) in h.issued)
    ensures ConnOk(h, Queue(x, m))
  {
    assert x.handed + x.hand + (x.queue + [m]) == x.enqueued + [m];
  }

  // ---- connections ----

  lemma IdIsFree(s: Net, id: nat)
    requires Inv(s) && id !in s.hist.ids
    ensures Inv(Draw(s, id))
  {
    AllGrow(s, Draw(s, id).hist);
  }

  lemma LoopOk(h: History, x: Conn, step: ConnStep, y: Conn)
    requires ConnOk(h, x)
    requires
      || (step.LoopTakes? && x.hand == [] && x.queue != [] && y == x.(queue := x.queue[1..], hand := [x.queue[0]]))
      || (step.LoopHands? && y.down == (if step.ok then x.down + x.hand else x.down)
          && y == x.(hand := [], handed := x.handed + x.hand, down := y.down, loopOver := y.loopOver))
    ensures ConnOk(h, y)
  {
    if step.LoopTakes? {
      assert x.queue == [x.queue[0]] + x.queue[1..];
    } else {
      assert y.handed + y.hand + y.queue == x.handed + x.hand + x.queue;
    }
  }

  /** Everything but the current map. */
  ghost predicate RestInv(s: Net) {
    && HistOk(s.hist) && ServerOk(s.hist, s.calls, s.pending, s.handlers)
    && ConnsOk(s.hist, s.conns) && LinksOk(s.conns, s.clients)
    && SendingOk(s.calls, s.conns) && ClientsOk(s.hist, s.clients)
  }

  lemma CloseCurrentRest(s: Net, agent: string)
    requires Inv(s)
    ensures agent in s.current ==> s.current[agent] < |s.conns|
    ensures RestInv(CloseCurrent(s, agent))
  {
    if agent in s.current {
      var c := s.current[agent];
      assert ConnOk(s.hist, s.conns[c]);
      ConnChanges(s.hist, s.conns, s.clients, s.current, s.calls, c, s.conns[c].(closed := true));
    }
  }

  /** The old connection of the agent, if there is one, is closed, and connection c takes its place. */
  lemma CurrentChanges(conns: seq<Conn>, current: map<string, nat>, c: nat, closed: seq<Conn>)
    requires CurrentOk(conns, current) && c < |conns| && !conns[c].registered
    requires var a := conns[c].agent;
      closed == if a in current then conns[current[a] := conns[current[a]].(closed := true)] else conns
    ensures CurrentOk(closed[c := closed[c].(registered := true)], current[conns[c].agent := c])
  {
  }

  lemma RegisterCurrent(s: Net, c: nat)
    requires CurrentOk(s.conns, s.current) && Enabled(s, ConnMoves(c, Register))
    ensures var t := Apply(s, ConnMoves(c, Register)); CurrentOk(t.conns, t.current)
  {
    CurrentChanges(s.conns, s.current, c, CloseCurrent(s, s.conns[c].agent).conns);
  }

  lemma RegisterInv(s: Net, c: nat)
    requires Inv(s) && Enabled(s, ConnMoves(c, Register))
    ensures Inv(Apply(s, ConnMoves(c, Register)))
  {
    CloseCurrentRest(s, s.conns[c].agent);
    var t := CloseCurrent(s, s.conns[c].agent);
    assert ConnOk(t.hist, t.conns[c]);
    ConnChanges(t.hist, t.conns, t.clients, t.current, t.calls, c, t.conns[c].(registered := true));
    RegisterCurrent(s, c);
  }

  lemma ConnInv(s: Net, c: nat, step: ConnStep)
    requires Inv(s) && Enabled(s, ConnMoves(c, step))
    ensures Inv(Apply(s, ConnMoves(c, step)))
  {
    var x := s.conns[c];
    assert ConnOk(s.hist, x);
    match step
    case Register => RegisterInv(s, c);
    case PongLookUp(id) => IdIsFree(s, id);
    case LoopEnds => ConnChanges(s.hist, s.conns, s.clients, s.current, s.calls, c, x.(loopOver := true));
    case _ =>
      var y := Apply(s, ConnMoves(c, step)).conns[c];
      LoopOk(s.hist, x, step, y);
      ConnChanges(s.hist, s.conns, s.clients, s.current, s.calls, c, y);
  }

  lemma PongInv(s: Net, id: nat, step: PongStep)
    requires Inv(s) && Enabled(s, PongMoves(id, step))
    ensures Inv(Apply(s, PongMoves(id, step)))
  {
    var c := s.pongs[id].conn;
    assert ConnOk(s.hist, s.conns[c]);
    if step.PongEnqueue? {
      QueueOk(s.hist, s.conns[c], Msg(id, Pong, ""));
      ConnChanges(s.hist, s.conns, s.clients, s.current, s.calls, c, Queue(s.conns[c], Msg(id, Pong, "")));
    }
  }

  lemma RemoveInv(s: Net, agent: string)
    requires Inv(s) && Enabled(s, Remove(agent))
    ensures Inv(Apply(s, Remove(agent)))
  {
    CloseCurrentRest(s, agent);
  }

  // ---- agents ----

  lemma OpenInv(s: Net, j: nat)
    requires Inv(s) && Enabled(s, AgentMoves(j, Open))
    ensures Inv(Apply(s, AgentMoves(j, Open)))
  {
    var t := Apply(s, AgentMoves(j, Open));
    assert ConnOk(t.hist, t.conns[|s.conns|]);
    assert forall c: nat :: c < |s.conns| ==> ConnOk(s.hist, s.conns[c]);
  }

  lemma GotOk(h: History, x: Client, m: Msg)
    requires ClientOk(h, x) && (m.kind.Request? ==> Issue(x.agent, m) in h.issued)
    ensures ClientOk(h, Got(x, m))
  {
  }

  lemma GetsInv(s: Net, j: nat, c: nat)
    requires Inv(s) && Enabled(s, AgentMoves(j, Gets(c)))
    ensures Inv(Apply(s, AgentMoves(j, Gets(c))))
  {
    var x, y := s.clients[j], s.conns[c];
    assert ClientOk(s.hist, x) && ConnOk(s.hist, y);
    GotOk(s.hist, x, y.down[0]);
    var y' := y.(down := y.down[1..]);
    assert ConnOk(s.hist, y');
    ConnChanges(s.hist, s.conns, s.clients, s.current, s.calls, c, y');
    ClientChanges(s.hist, s.conns[c := y'], s.clients, j, Got(x, y.down[0]));
  }

  lemma AnsweredOk(h: History, x: Client, k: nat, response: Msg)
    requires ClientOk(h, x) && k < |x.tasks| && x.tasks[k].status.Running?
    requires response.id == x.tasks[k].request.id && Output(x.agent, x.tasks[k].request, response) in h.outputs
    ensures ClientOk(h, Answered(x, k, response))
  {
    var y := Answered(x, k, response);
    forall i | 0 <= i < |x.out|
      ensures Belongs(y.tasks, x.out[i], Queued) && (x.out[i].ResponseItem? ==> x.out[i].task != k)
    {
      assert Belongs(x.tasks, x.out[i], Queued);
    }
    assert TaskOk(h, x.agent, x.tasks[k]);
  }

  lemma AnswersInv(s: Net, j: nat, k: nat, body: string)
    requires Inv(s) && Enabled(s, AgentMoves(j, Answers(k, body)))
    ensures Inv(Apply(s, AgentMoves(j, Answers(k, body))))
  {
    var t := Apply(s, AgentMoves(j, Answers(k, body)));
    var x := s.clients[j];
    assert ClientOk(s.hist, x) && TaskOk(s.hist, x.agent, x.tasks[k]);
    AllGrow(s, t.hist);
    assert ClientOk(t.hist, x);
    AnsweredOk(t.hist, x, k, Msg(x.tasks[k].request.id, Response, body));
    ClientChanges(t.hist, s.conns, s.clients, j, t.clients[j]);
  }

  lemma PingsInv(s: Net, j: nat, id: nat)
    requires Inv(s) && Enabled(s, AgentMoves(j, Pings(id)))
    ensures Inv(Apply(s, AgentMoves(j, Pings(id))))
  {
    IdIsFree(s, id);
    var t := Draw(s, id);
    assert ClientOk(t.hist, t.clients[j]);
    var y := Apply(s, AgentMoves(j, Pings(id))).clients[j];
    assert ClientOk(t.hist, y);
    ClientChanges(t.hist, t.conns, t.clients, j, y);
  }

  lemma TakesOk(h: History, x: Client, loop: nat)
    requires ClientOk(h, x) && loop !in x.loops && x.out != [] && TaskOf(x, x.out[0])
    ensures ClientOk(h, SetStatus(x, x.out[0], InHand(loop)).(out := x.out[1..], loops := x.loops[loop := x.out[0]]))
  {
    var y := SetStatus(x, x.out[0], InHand(loop)).(out := x.out[1..], loops := x.loops[loop := x.out[0]]);
    assert Belongs(x.tasks, x.out[0], Queued) && ItemOk(h, x.agent, x.out[0]);
    forall i | 0 <= i < |y.out|
      ensures ItemOk(h, y.agent, y.out[i]) && Belongs(y.tasks, y.out[i], Queued)
    {
      assert y.out[i] == x.out[i + 1] && Belongs(x.tasks, x.out[i + 1], Queued);
    }
    forall l | l in y.loops
      ensures ItemOk(h, y.agent, y.loops[l]) && Belongs(y.tasks, y.loops[l], InHand(l))
    {
      assert l in x.loops ==> Belongs(x.tasks, x.loops[l], InHand(l));
    }
  }

  lemma TakesInv(s: Net, j: nat, loop: nat)
    requires Inv(s) && Enabled(s, AgentMoves(j, Takes(loop)))
    ensures Inv(Apply(s, AgentMoves(j, Takes(loop))))
  {
    assert ClientOk(s.hist, s.clients[j]);
    TakesOk(s.hist, s.clients[j], loop);
    ClientChanges(s.hist, s.conns, s.clients, j, Apply(s, AgentMoves(j, Takes(loop))).clients[j]);
  }

  lemma PutDownOk(h: History, x: Client, loop: nat, st: Status)
    requires ClientOk(h, x) && HoldsItem(x, loop) && (st.Sent? || st.Lost?)
    ensures ClientOk(h, PutDown(x, loop, st))
  {
    var y := PutDown(x, loop, st);
    var it := x.loops[loop];
    assert Belongs(x.tasks, it, InHand(loop));
    assert it.ResponseItem? ==> TaskOk(h, x.agent, x.tasks[it.task]);
    forall i | 0 <= i < |x.out|
      ensures Belongs(y.tasks, x.out[i], Queued)
    {
      assert Belongs(x.tasks, x.out[i], Queued);
    }
    forall l | l in y.loops
      ensures Belongs(y.tasks, y.loops[l], InHand(l))
    {
      assert Belongs(x.tasks, x.loops[l], InHand(l));
    }
  }

  lemma PutDownInv(s: Net, j: nat, loop: nat, st: Status)
    requires Inv(s) && j < |s.clients| && HoldsItem(s.clients[j], loop) && (st.Sent? || st.Lost?)
    ensures Inv(SetClient(s, j, PutDown(s.clients[j], loop, st)))
  {
    assert ClientOk(s.hist, s.clients[j]);
    PutDownOk(s.hist, s.clients[j], loop, st);
    ClientChanges(s.hist, s.conns, s.clients, j, PutDown(s.clients[j], loop, st));
  }

  lemma WritesInv(s: Net, j: nat, loop: nat, c: nat, ok: bool)
    requires Inv(s) && Enabled(s, AgentMoves(j, Writes(loop, c, ok)))
    ensures Inv(Apply(s, AgentMoves(j, Writes(loop, c, ok))))
  {
    var x := s.clients[j];
    assert ClientOk(s.hist, x) && ConnOk(s.hist, s.conns[c]) && x.agent == s.conns[c].agent;
    PutDownInv(s, j, loop, if ok then Sent else Lost);
    if ok {
      var t := SetClient(s, j, PutDown(x, loop, Sent));
      var y := s.conns[c].(up := s.conns[c].up + [x.loops[loop]]);
      assert ConnOk(s.hist, y);
      ConnChanges(t.hist, t.conns, t.clients, t.current, t.calls, c, y);
    }
  }

  lemma AgentInv(s: Net, j: nat, step: AgentStep)
    requires Inv(s) && Enabled(s, AgentMoves(j, step))
    ensures Inv(Apply(s, AgentMoves(j, step)))
  {
    match step
    case Open => OpenInv(s, j);
    case Gets(c) => GetsInv(s, j, c);
    case Answers(k, body) => AnswersInv(s, j, k, body);
    case Pings(id) => PingsInv(s, j, id);
    case Takes(loop) => TakesInv(s, j, loop);
    case Writes(loop, c, ok) => WritesInv(s, j, loop, c, ok);
    case Drops(loop) => PutDownInv(s, j, loop, Lost);
  }

  lemma NewClientInv(s: Net, agent: string)
    requires Inv(s)
    ensures Inv(Apply(s, NewClient(agent)))
  {
    var t := Apply(s, NewClient(agent));
    assert ClientOk(t.hist, t.clients[|s.clients|]);
    assert forall j: nat :: j < |s.clients| ==> ClientOk(s.hist, s.clients[j]);
  }

  // ---- HandleResponse ----

  /** A response that comes in under an agent's id and finds a call is good for exactly that call. */
  lemma FoundCallIsRight(s: Net, agent: string, m: Msg, request: Msg)
    requires Inv(s) && Output(agent, request, m) in s.hist.outputs && m.id in s.pending
    ensures s.pending[m.id] < |s.calls|
    ensures s.calls[s.pending[m.id]].agent == agent && s.calls[s.pending[m.id]].msg == request && m.id == request.id
  {
    var x := s.calls[s.pending[m.id]];
    assert CallOk(s.hist, x);
    assert Issue(agent, request) in s.hist.issued && Issue(x.agent, x.msg) in s.hist.issued;
  }

  /** The receive loop has taken the message off the wire and, if it is a response, noted it. */
  lemma ComesIn(s: Net, c: nat, k: History)
    requires Inv(s) && c < |s.conns| && s.conns[c].up != [] && Grows(s.hist, k) && k.ids == s.hist.ids
    requires k.issued == s.hist.issued && k.outputs == s.hist.outputs
    ensures Inv(SetConn(s, c, s.conns[c].(up := s.conns[c].up[1..])).(hist := k))
  {
    AllGrow(s, k);
    var x := s.conns[c];
    assert ConnOk(k, x);
    assert ConnOk(k, x.(up := x.up[1..]));
    ConnChanges(k, s.conns, s.clients, s.current, s.calls, c, x.(up := x.up[1..]));
  }

  lemma HandlerStarts(s: Net, h: nat, d: Handler)
    requires Inv(s) && d.n < |s.calls| && Good(s.hist, s.calls[d.n].agent, s.calls[d.n].msg, d.msg)
    ensures Inv(s.(handlers := s.handlers[h := d]))
  {
  }

  lemma ReceiveInv(s: Net, c: nat, h: nat)
    requires Inv(s) && Enabled(s, Receive(c, h))
    ensures Inv(Apply(s, Receive(c, h)))
  {
    var x := s.conns[c];
    var m := x.up[0].msg;
    assert ConnOk(s.hist, x) && ItemOk(s.hist, x.agent, x.up[0]);
    if x.up[0].ResponseItem? {
      var k := s.hist.(receipts := s.hist.receipts + {Receipt(x.agent, m)});
      ComesIn(s, c, k);
      if m.id in s.pending {
        FoundCallIsRight(s, x.agent, m, x.up[0].request);
        HandlerStarts(SetConn(s, c, x.(up := x.up[1..])).(hist := k), h, Handler(s.pending[m.id], m));
      }
    } else {
      ComesIn(s, c, s.hist);
    }
  }

  lemma DeliverInv(s: Net, h: nat)
    requires Inv(s) && Enabled(s, Deliver(h))
    ensures Inv(Apply(s, Deliver(h)))
  {
    var d := s.handlers[h];
    var y := Delivered(s.calls[d.n], d.msg);
    assert CallOk(s.hist, s.calls[d.n]);
    ChannelChanges(s.hist, s.calls, s.pending, s.handlers, d.n, y);
    SendingChanges(s.calls, s.conns, d.n, y);
  }

  // ---- every step, every run ----

  lemma StepInv(s: Net, e: Event)
    requires Inv(s) && Enabled(s, e)
    ensures Inv(Apply(s, e))
  {
    match e
    case StartCall(agent, id, body) => StartCallInv(s, agent, id, body);
    case CallMoves(n, step) => CallInv(s, n, step);
    case ConnMoves(c, step) => ConnInv(s, c, step);
    case PongMoves(id, step) => PongInv(s, id, step);
    case AgentMoves(j, step) => AgentInv(s, j, step);
    case Remove(agent) => RemoveInv(s, agent);
    case NewClient(agent) => NewClientInv(s, agent);
    case Receive(c, h) => ReceiveInv(s, c, h);
    case Deliver(h) => DeliverInv(s, h);
  }

  lemma {:induction false} RunInv(s: Net, es: seq<Event>)
    requires Inv(s) && IsRun(s, es)
    ensures Inv(Run(s, es))
    decreases |es|
  {
    if es != [] {
      StepInv(s, es[0]);
      RunInv(Apply(s, es[0]), es[1..]);
    }
  }
}
