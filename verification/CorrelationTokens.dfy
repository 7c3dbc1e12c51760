/**
 One request, one token.

 From the call that issues it, a request passes through a connection's queue, the send loop's hand, the wire, the
 agent's goroutine, the agent's queue and hands, the wire back, HandleResponse and the call's channel.  For each
 id the things in these places number at most one, in every reachable state: a step moves the token or loses
 it, and only a fresh id makes one.  The same holds if all goroutines that ever took the id up are counted
 and the way back is not.
 */
module CorrelationTokens {
  import opened Correlation
  import opened CorrelationInv

  // ---- sums ----

  function Sum<T>(xs: seq<T>, f: T -> nat): nat {
    if xs == [] then 0 else Sum(xs[..|xs| - 1], f) + f(xs[|xs| - 1])
  }

  lemma SumAppend<T>(xs: seq<T>, x: T, f: T -> nat)
    ensures Sum(xs + [x], f) == Sum(xs, f) + f(x)
  {
    assert (xs + [x])[..|xs|] == xs;
  }

  lemma {:induction false} SumUpdate<T>(xs: seq<T>, i: nat, y: T, f: T -> nat)
    requires i < |xs|
    ensures Sum(xs[i := y], f) + f(xs[i]) == Sum(xs, f) + f(y)
  {
    var n := |xs| - 1;
    if i == n {
      assert xs[i := y][..n] == xs[..n];
    } else {
      assert xs[i := y][..n] == xs[..n][i := y];
      SumUpdate(xs[..n], i, y, f);
    }
  }

  lemma {:induction false} SumTail<T>(xs: seq<T>, f: T -> nat)
    requires xs != []
    ensures Sum(xs, f) == f(xs[0]) + Sum(xs[1..], f)
  {
    var n := |xs| - 1;
    if n > 0 {
      SumTail(xs[..n], f);
      assert xs[1..][..n - 1] == xs[..n][1..];
    }
  }

  lemma {:induction false} SumBounds<T>(xs: seq<T>, i: nat, f: T -> nat)
    requires i < |xs|
    ensures f(xs[i]) <= Sum(xs, f)
  {
    if i < |xs| - 1 {
      SumBounds(xs[..|xs| - 1], i, f);
    }
  }

  lemma {:induction false} SumBoundsTwo<T>(xs: seq<T>, i: nat, j: nat, f: T -> nat)
    requires i < j < |xs|
    ensures f(xs[i]) + f(xs[j]) <= Sum(xs, f)
  {
    var n := |xs| - 1;
    if j < n {
      SumBoundsTwo(xs[..n], i, j, f);
    } else {
      SumBounds(xs[..n], i, f);
    }
  }

  // ---- weights ----

  /** What is counted: the token on its whole way, or every goroutine that ever took it up and no way back. */
  datatype Law = WholeWay | TakenUp

  predicate Unsent(x: Call) {
    x.phase.Registered? || x.phase.Sending?
  }

  function CallWeight(law: Law, id: nat, x: Call): nat {
    if x.msg.id != id then 0
    else (if Unsent(x) then 1 else 0) + if law.WholeWay? then |x.chan| else 0
  }

  function MsgWeight(id: nat, m: Msg): nat {
    if m.kind.Request? && m.id == id then 1 else 0
  }

  function ItemWeight(law: Law, id: nat, it: Item): nat {
    if law.WholeWay? && it.ResponseItem? && it.msg.id == id then 1 else 0
  }

  predicate OnItsWay(st: Status) {
    st.Running? || st.Queued? || st.InHand?
  }

  function TaskWeight(law: Law, id: nat, t: Task): nat {
    if t.request.id == id && (law.TakenUp? || OnItsWay(t.status)) then 1 else 0
  }

  function OfMsg(id: nat): Msg -> nat { m => MsgWeight(id, m) }
  function OfItem(law: Law, id: nat): Item -> nat { it => ItemWeight(law, id, it) }
  function OfTask(law: Law, id: nat): Task -> nat { t => TaskWeight(law, id, t) }

  function ConnWeight(law: Law, id: nat, x: Conn): nat {
    Sum(x.queue, OfMsg(id)) + Sum(x.hand, OfMsg(id)) + Sum(x.down, OfMsg(id)) + Sum(x.up, OfItem(law, id))
  }

  function ClientWeight(law: Law, id: nat, x: Client): nat {
    Sum(x.tasks, OfTask(law, id))
  }

  function OfCall(law: Law, id: nat): Call -> nat { x => CallWeight(law, id, x) }
  function OfConn(law: Law, id: nat): Conn -> nat { x => ConnWeight(law, id, x) }
  function OfClient(law: Law, id: nat): Client -> nat { x => ClientWeight(law, id, x) }

  function HandlersFor(handlers: map<nat, Handler>, id: nat): set<nat> {
    set h | h in handlers && handlers[h].msg.id == id
  }

  function HandlerWeight(law: Law, id: nat, handlers: map<nat, Handler>): nat {
    if law.WholeWay? then |HandlersFor(handlers, id)| else 0
  }

  function Weight(law: Law, id: nat, s: Net): nat {
    Sum(s.calls, OfCall(law, id)) + Sum(s.conns, OfConn(law, id)) + Sum(s.clients, OfClient(law, id))
      + HandlerWeight(law, id, s.handlers)
  }

  // ---- replacing one record ----

  lemma SetCallWeight(law: Law, id: nat, s: Net, n: nat, y: Call)
    requires n < |s.calls|
    ensures Weight(law, id, SetCall(s, n, y)) + CallWeight(law, id, s.calls[n]) == Weight(law, id, s) + CallWeight(law, id, y)
  {
    SumUpdate(s.calls, n, y, OfCall(law, id));
  }

  lemma SetConnWeight(law: Law, id: nat, s: Net, c: nat, y: Conn)
    requires c < |s.conns|
    ensures Weight(law, id, SetConn(s, c, y)) + ConnWeight(law, id, s.conns[c]) == Weight(law, id, s) + ConnWeight(law, id, y)
  {
    SumUpdate(s.conns, c, y, OfConn(law, id));
  }

  lemma SetClientWeight(law: Law, id: nat, s: Net, j: nat, y: Client)
    requires j < |s.clients|
    ensures Weight(law, id, SetClient(s, j, y)) + ClientWeight(law, id, s.clients[j]) ==
      Weight(law, id, s) + ClientWeight(law, id, y)
  {
    SumUpdate(s.clients, j, y, OfClient(law, id));
  }

  lemma QueueWeight(law: Law, id: nat, x: Conn, m: Msg)
    ensures ConnWeight(law, id, Queue(x, m)) == ConnWeight(law, id, x) + MsgWeight(id, m)
  {
    SumAppend(x.queue, m, OfMsg(id));
  }

  lemma SumOne<T>(x: T, f: T -> nat)
    ensures Sum([x], f) == f(x)
  {
    assert [x][..0] == [];
  }

  /** The send loop moves what it takes and may lose what it hands on. */
  lemma LoopWeight(law: Law, id: nat, x: Conn, y: Conn)
    requires |x.hand| <= 1
    requires
      || (x.hand == [] && x.queue != [] && y == x.(queue := x.queue[1..], hand := [x.queue[0]]))
      || (y.hand == [] && y.queue == x.queue && y.up == x.up && (y.down == x.down + x.hand || y.down == x.down))
    ensures ConnWeight(law, id, y) <= ConnWeight(law, id, x)
  {
    if x.hand == [] && x.queue != [] && y == x.(queue := x.queue[1..], hand := [x.queue[0]]) {
      SumTail(x.queue, OfMsg(id));
      SumOne(x.queue[0], OfMsg(id));
    } else if x.hand != [] {
      assert x.hand == [x.hand[0]];
      SumOne(x.hand[0], OfMsg(id));
      SumAppend(x.down, x.hand[0], OfMsg(id));
    } else {
      assert x.down + x.hand == x.down;
    }
  }

  lemma GetsWeight(law: Law, id: nat, x: Conn)
    requires x.down != []
    ensures ConnWeight(law, id, x.(down := x.down[1..])) + MsgWeight(id, x.down[0]) == ConnWeight(law, id, x)
  {
    SumTail(x.down, OfMsg(id));
  }

  lemma ComesInWeight(law: Law, id: nat, x: Conn)
    requires x.up != []
    ensures ConnWeight(law, id, x.(up := x.up[1..])) + ItemWeight(law, id, x.up[0]) == ConnWeight(law, id, x)
  {
    SumTail(x.up, OfItem(law, id));
  }

  lemma GoesOutWeight(law: Law, id: nat, x: Conn, it: Item)
    ensures ConnWeight(law, id, x.(up := x.up + [it])) == ConnWeight(law, id, x) + ItemWeight(law, id, it)
  {
    SumAppend(x.up, it, OfItem(law, id));
  }

  // ---- no step makes a token ----

  lemma CallLoses(law: Law, id: nat, s: Net, n: nat, step: CallStep)
    requires Enabled(s, CallMoves(n, step)) && s.calls[n].msg.kind.Request?
    ensures Weight(law, id, ApplyCall(s, n, step)) <= Weight(law, id, s)
  {
    var x := s.calls[n];
    var y := ApplyCall(s, n, step).calls[n];
    if step.Enqueue? {
      var c := x.phase.conn;
      QueueWeight(law, id, s.conns[c], x.msg);
      SetConnWeight(law, id, s, c, Queue(s.conns[c], x.msg));
      SetCallWeight(law, id, SetConn(s, c, Queue(s.conns[c], x.msg)), n, y);
    } else {
      SetCallWeight(law, id, s, n, y);
    }
  }

  lemma ClosingWeight(law: Law, id: nat, s: Net, agent: string)
    requires agent in s.current ==> s.current[agent] < |s.conns|
    ensures Weight(law, id, CloseCurrent(s, agent)) == Weight(law, id, s)
  {
    if agent in s.current {
      var c := s.current[agent];
      SetConnWeight(law, id, s, c, s.conns[c].(closed := true));
    }
  }

  lemma ConnLoses(law: Law, id: nat, s: Net, c: nat, step: ConnStep)
    requires Enabled(s, ConnMoves(c, step)) && |s.conns[c].hand| <= 1
    ensures Weight(law, id, ApplyConn(s, c, step)) <= Weight(law, id, s)
  {
    var x := s.conns[c];
    match step
    case Register =>
      ClosingWeight(law, id, s, x.agent);
      var t := CloseCurrent(s, x.agent);
      SetConnWeight(law, id, t, c, t.conns[c].(registered := true));
    case PongLookUp(_) =>
    case LoopEnds => SetConnWeight(law, id, s, c, x.(loopOver := true));
    case _ =>
      var y := ApplyConn(s, c, step).conns[c];
      LoopWeight(law, id, x, y);
      SetConnWeight(law, id, s, c, y);
  }

  lemma PongLoses(law: Law, id: nat, s: Net, i: nat, step: PongStep)
    requires Enabled(s, PongMoves(i, step))
    ensures Weight(law, id, ApplyPong(s, i, step)) <= Weight(law, id, s)
  {
    if step.PongEnqueue? {
      var c := s.pongs[i].conn;
      QueueWeight(law, id, s.conns[c], Msg(i, Pong, ""));
      SetConnWeight(law, id, s, c, Queue(s.conns[c], Msg(i, Pong, "")));
    }
  }

  lemma SetTaskWeight(law: Law, id: nat, x: Client, k: nat, t: Task)
    requires k < |x.tasks|
    ensures ClientWeight(law, id, x.(tasks := x.tasks[k := t])) + TaskWeight(law, id, x.tasks[k]) ==
      ClientWeight(law, id, x) + TaskWeight(law, id, t)
  {
    SumUpdate(x.tasks, k, t, OfTask(law, id));
  }

  lemma GotWeight(law: Law, id: nat, x: Client, m: Msg)
    ensures ClientWeight(law, id, Got(x, m)) == ClientWeight(law, id, x) + MsgWeight(id, m)
  {
    if m.kind.Request? {
      SumAppend(x.tasks, Task(m, Running, 0, 0), OfTask(law, id));
    }
  }

  lemma AnsweredWeight(law: Law, id: nat, x: Client, k: nat, response: Msg)
    requires k < |x.tasks| && x.tasks[k].status.Running?
    ensures ClientWeight(law, id, Answered(x, k, response)) <= ClientWeight(law, id, x)
  {
    var y := Answered(x, k, response);
    SetTaskWeight(law, id, x, k, y.tasks[k]);
    assert y.tasks == x.tasks[k := y.tasks[k]];
  }

  /** An item changes hands, or is put down; what it weighs from then on it weighed in its goroutine before. */
  lemma StatusWeight(law: Law, id: nat, x: Client, it: Item, before: Status, st: Status)
    requires Belongs(x.tasks, it, before) && OnItsWay(before)
    ensures TaskOf(x, it)
    ensures OnItsWay(st) ==> ClientWeight(law, id, SetStatus(x, it, st)) == ClientWeight(law, id, x)
    ensures !OnItsWay(st) ==> ClientWeight(law, id, SetStatus(x, it, st)) + ItemWeight(law, id, it) == ClientWeight(law, id, x)
  {
    if it.ResponseItem? {
      SetTaskWeight(law, id, x, it.task, SetStatus(x, it, st).tasks[it.task]);
    }
  }

  lemma TakesLoses(law: Law, id: nat, s: Net, j: nat, loop: nat)
    requires Inv(s) && Enabled(s, AgentMoves(j, Takes(loop)))
    ensures Weight(law, id, ApplyAgent(s, j, Takes(loop))) <= Weight(law, id, s)
  {
    var x := s.clients[j];
    assert ClientOk(s.hist, x);
    assert Belongs(x.tasks, x.out[0], Queued);
    StatusWeight(law, id, x, x.out[0], Queued, InHand(loop));
    var y := SetStatus(x, x.out[0], InHand(loop)).(out := x.out[1..], loops := x.loops[loop := x.out[0]]);
    SetClientWeight(law, id, s, j, y);
  }

  lemma PutDownWeight(law: Law, id: nat, x: Client, loop: nat, st: Status)
    requires HoldsItem(x, loop) && Belongs(x.tasks, x.loops[loop], InHand(loop)) && (st.Sent? || st.Lost?)
    ensures ClientWeight(law, id, PutDown(x, loop, st)) + ItemWeight(law, id, x.loops[loop]) == ClientWeight(law, id, x)
  {
    StatusWeight(law, id, x, x.loops[loop], InHand(loop), st);
  }

  lemma WritesLoses(law: Law, id: nat, s: Net, j: nat, loop: nat, c: nat, ok: bool)
    requires Inv(s) && Enabled(s, AgentMoves(j, Writes(loop, c, ok)))
    ensures Weight(law, id, ApplyAgent(s, j, Writes(loop, c, ok))) <= Weight(law, id, s)
  {
    var x := s.clients[j];
    var st := if ok then Sent else Lost;
    assert ClientOk(s.hist, x);
    PutDownWeight(law, id, x, loop, st);
    SetClientWeight(law, id, s, j, PutDown(x, loop, st));
    if ok {
      var t := SetClient(s, j, PutDown(x, loop, st));
      GoesOutWeight(law, id, s.conns[c], x.loops[loop]);
      SetConnWeight(law, id, t, c, s.conns[c].(up := s.conns[c].up + [x.loops[loop]]));
    }
  }

  lemma GetsLoses(law: Law, id: nat, s: Net, j: nat, c: nat)
    requires Enabled(s, AgentMoves(j, Gets(c)))
    ensures Weight(law, id, ApplyAgent(s, j, Gets(c))) <= Weight(law, id, s)
  {
    var x, y := s.clients[j], s.conns[c];
    GetsWeight(law, id, y);
    SetConnWeight(law, id, s, c, y.(down := y.down[1..]));
    GotWeight(law, id, x, y.down[0]);
    SetClientWeight(law, id, SetConn(s, c, y.(down := y.down[1..])), j, Got(x, y.down[0]));
  }

  lemma AnswersLoses(law: Law, id: nat, s: Net, j: nat, k: nat, body: string)
    requires Enabled(s, AgentMoves(j, Answers(k, body)))
    ensures Weight(law, id, ApplyAgent(s, j, Answers(k, body))) <= Weight(law, id, s)
  {
    var x := s.clients[j];
    var response := Msg(x.tasks[k].request.id, Response, body);
    AnsweredWeight(law, id, x, k, response);
    SetClientWeight(law, id, s, j, Answered(x, k, response));
  }

  lemma AgentLoses(law: Law, id: nat, s: Net, j: nat, step: AgentStep)
    requires Inv(s) && Enabled(s, AgentMoves(j, step))
    ensures Weight(law, id, ApplyAgent(s, j, step)) <= Weight(law, id, s)
  {
    var x := s.clients[j];
    match step
    case Open => SumAppend(s.conns, Conn(x.agent, j, false, false, false, [], [], [], [], [], []), OfConn(law, id));
    case Gets(c) => GetsLoses(law, id, s, j, c);
    case Answers(k, body) => AnswersLoses(law, id, s, j, k, body);
    case Pings(i) => SetClientWeight(law, id, Draw(s, i), j, x.(out := x.out + [PingItem(Msg(i, Ping, ""))]));
    case Takes(loop) => TakesLoses(law, id, s, j, loop);
    case Writes(loop, c, ok) => WritesLoses(law, id, s, j, loop, c, ok);
    case Drops(loop) =>
      assert ClientOk(s.hist, x);
      PutDownWeight(law, id, x, loop, Lost);
      SetClientWeight(law, id, s, j, PutDown(x, loop, Lost));
  }

  lemma HandlerComes(law: Law, id: nat, handlers: map<nat, Handler>, h: nat, d: Handler)
    requires h !in handlers
    ensures HandlerWeight(law, id, handlers[h := d]) ==
      HandlerWeight(law, id, handlers) + if law.WholeWay? && d.msg.id == id then 1 else 0
  {
    var before := HandlersFor(handlers, id);
    assert HandlersFor(handlers[h := d], id) == if d.msg.id == id then before + {h} else before;
  }

  lemma HandlerGoes(law: Law, id: nat, handlers: map<nat, Handler>, h: nat)
    requires h in handlers
    ensures HandlerWeight(law, id, handlers - {h}) + (if law.WholeWay? && handlers[h].msg.id == id then 1 else 0) ==
      HandlerWeight(law, id, handlers)
  {
    var after := HandlersFor(handlers - {h}, id);
    assert HandlersFor(handlers, id) == if handlers[h].msg.id == id then after + {h} else after;
  }

  lemma ReceiveLoses(law: Law, id: nat, s: Net, c: nat, h: nat)
    requires Inv(s) && Enabled(s, Receive(c, h))
    ensures Weight(law, id, Received(s, c, h)) <= Weight(law, id, s)
  {
    var x := s.conns[c];
    var m := x.up[0].msg;
    assert ConnOk(s.hist, x) && ItemOk(s.hist, x.agent, x.up[0]);
    ComesInWeight(law, id, x);
    SetConnWeight(law, id, s, c, x.(up := x.up[1..]));
    if m.kind.Response? && m.id in s.pending {
      HandlerComes(law, id, s.handlers, h, Handler(s.pending[m.id], m));
    }
  }

  lemma DeliveredWeight(law: Law, id: nat, x: Call, m: Msg)
    requires m.id == x.msg.id
    ensures CallWeight(law, id, Delivered(x, m)) <= CallWeight(law, id, x) + if law.WholeWay? && m.id == id then 1 else 0
  {
  }

  lemma DeliverLoses(law: Law, id: nat, s: Net, h: nat)
    requires Inv(s) && Enabled(s, Deliver(h))
    ensures Weight(law, id, Apply(s, Deliver(h))) <= Weight(law, id, s)
  {
    var d := s.handlers[h];
    var y := Delivered(s.calls[d.n], d.msg);
    DeliveredWeight(law, id, s.calls[d.n], d.msg);
    HandlerGoes(law, id, s.handlers, h);
    SetCallWeight(law, id, s, d.n, y);
    assert Apply(s, Deliver(h)) == SetCall(s, d.n, y).(handlers := s.handlers - {h});
  }

  lemma StepLoses(law: Law, id: nat, s: Net, e: Event)
    requires Inv(s) && Enabled(s, e)
    ensures Weight(law, id, Apply(s, e)) <= Weight(law, id, s) + if e.StartCall? && e.id == id then 1 else 0
  {
    match e
    case StartCall(agent, i, body) => SumAppend(s.calls, Call(agent, Msg(i, Request, body), [], Registered), OfCall(law, id));
    case CallMoves(n, step) =>
      assert CallOk(s.hist, s.calls[n]);
      CallLoses(law, id, s, n, step);
    case ConnMoves(c, step) =>
      assert ConnOk(s.hist, s.conns[c]);
      ConnLoses(law, id, s, c, step);
    case PongMoves(i, step) => PongLoses(law, id, s, i, step);
    case AgentMoves(j, step) => AgentLoses(law, id, s, j, step);
    case Remove(agent) => ClosingWeight(law, id, s, agent);
    case NewClient(agent) => SumAppend(s.clients, Client(agent, [], [], map[]), OfClient(law, id));
    case Receive(c, h) => ReceiveLoses(law, id, s, c, h);
    case Deliver(h) => DeliverLoses(law, id, s, h);
  }

  lemma StepDraws(s: Net, e: Event)
    requires Enabled(s, e)
    ensures s.hist.ids <= Apply(s, e).hist.ids && (e.StartCall? ==> e.id !in s.hist.ids && e.id in Apply(s, e).hist.ids)
  {
    StepHistory(s, e);
  }

  /** Nothing of an id that was never drawn, and at most one token of any other. */
  ghost predicate Tokens(law: Law, id: nat, s: Net) {
    Weight(law, id, s) <= if id in s.hist.ids then 1 else 0
  }

  lemma {:induction false} AtMostOneToken(law: Law, id: nat, s: Net, es: seq<Event>)
    requires Inv(s) && Tokens(law, id, s) && IsRun(s, es)
    ensures Tokens(law, id, Run(s, es))
    decreases |es|
  {
    if es != [] {
      StepLoses(law, id, s, es[0]);
      StepDraws(s, es[0]);
      StepInv(s, es[0]);
      AtMostOneToken(law, id, Apply(s, es[0]), es[1..]);
    }
  }

  // ---- what one token means ----

  lemma {:induction false} NoToken(law: Law, id: nat)
    ensures Tokens(law, id, Initial())
  {
    assert HandlersFor(map[], id) == {};
  }

  /** A handler and something in its call's channel would be two. */
  lemma HandlerFindsRoom(s: Net, h: nat)
    requires h in s.handlers && s.handlers[h].n < |s.calls|
    requires s.handlers[h].msg.id == s.calls[s.handlers[h].n].msg.id && Tokens(WholeWay, s.handlers[h].msg.id, s)
    ensures s.calls[s.handlers[h].n].chan == []
  {
    var d := s.handlers[h];
    SumBounds(s.calls, d.n, OfCall(WholeWay, d.msg.id));
    assert h in HandlersFor(s.handlers, d.msg.id);
  }

  lemma HandlersAreOne(s: Net, h: nat, g: nat)
    requires h in s.handlers && g in s.handlers && s.handlers[h].msg.id == s.handlers[g].msg.id
    requires Tokens(WholeWay, s.handlers[h].msg.id, s)
    ensures h == g
  {
    var hs := HandlersFor(s.handlers, s.handlers[h].msg.id);
    assert h in hs && g in hs;
    assert |hs - {h}| == |hs| - 1;
    assert hs - {h} == {};
  }

  lemma TasksAreOne(s: Net, j: nat, k: nat, i: nat, l: nat)
    requires j < |s.clients| && k < |s.clients[j].tasks| && i < |s.clients| && l < |s.clients[i].tasks|
    requires s.clients[j].tasks[k].request.id == s.clients[i].tasks[l].request.id
    requires Tokens(TakenUp, s.clients[j].tasks[k].request.id, s)
    ensures j == i && k == l
  {
    var id := s.clients[j].tasks[k].request.id;
    SumBounds(s.clients[j].tasks, k, OfTask(TakenUp, id));
    SumBounds(s.clients[i].tasks, l, OfTask(TakenUp, id));
    if j < i {
      SumBoundsTwo(s.clients, j, i, OfClient(TakenUp, id));
    } else if i < j {
      SumBoundsTwo(s.clients, i, j, OfClient(TakenUp, id));
    } else {
      SumBounds(s.clients, j, OfClient(TakenUp, id));
      if k < l {
        SumBoundsTwo(s.clients[j].tasks, k, l, OfTask(TakenUp, id));
      } else if l < k {
        SumBoundsTwo(s.clients[j].tasks, l, k, OfTask(TakenUp, id));
      }
    }
  }
}
