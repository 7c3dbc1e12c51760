/**
 Requests and responses between the server and its agents, as a distributed system.

 A call of SendRequestToAgent registers a response channel under its request's id, queues the request on
 the agent's current connection and waits.  The connection's send loop hands queued messages to the stream.
 The agent starts a goroutine per request and queues its response on one send channel that outlives
 streams; any of its send loops, also one left over from an earlier stream, may write it to any stream the
 agent has open.  The server's receive loop looks the response's id up and then, in a second step, sends it
 on the channel it found.  Timeouts, full queues, send errors, drops, reconnects, replacement and late
 responses are all possible steps, and so is a send that meets a closed channel.
 */
module Correlation {
  import opened Basics

  datatype Kind = Ping | Pong | Request | Response

  /** `body` stands for payload and metadata. */
  datatype Msg = Msg(id: nat, kind: Kind, body: string)

  // ---- server ----

  datatype CallPhase =
    | Registered                      // in the pending map; SendToAgent not yet called
    | Sending(conn: nat)              // SendToAgent has looked up the connection and released the mutex
    | Waiting
    | Ended(result: Option<Msg>)      // about to run the deferred delete
    | Closed(result: Option<Msg>)

  datatype Call = Call(agent: string, msg: Msg, chan: seq<Msg>, phase: CallPhase)

  /** HandleResponse between its lookup and its send on the channel of call n. */
  datatype Handler = Handler(n: nat, msg: Msg)

  /** Why SendToAgent gave up after its lookup. */
  datatype SendFailure = Timeout | ContextDone | SendOnClosed

  /** A receive loop answering a PING, between SendToAgent's lookup and its send. */
  datatype PongSend = PongSend(agent: string, conn: nat)

  // ---- agent ----

  /** A message on the agent's side and, for a response, the goroutine it came from and its request. */
  datatype Item = PingItem(msg: Msg) | ResponseItem(msg: Msg, task: nat, request: Msg)

  datatype Status = Running | Queued | InHand(loop: nat) | Sent | Lost

  /** The goroutine handling one received request. */
  datatype Task = Task(request: Msg, status: Status, attempts: nat, transmissions: nat)

  datatype Client = Client(agent: string, out: seq<Item>, tasks: seq<Task>, loops: map<nat, Item>)

  // ---- between them ----

  /** One stream and the AgentConnection registered for it. */
  datatype Conn = Conn(
    agent: string,
    client: nat,
    registered: bool,
    closed: bool,            // SendCh is closed and the context cancelled
    loopOver: bool,          // the send loop has returned
    queue: seq<Msg>,         // SendCh
    hand: seq<Msg>,          // received from SendCh, not yet passed to stream.Send
    enqueued: seq<Msg>,      // everything ever sent on SendCh
    handed: seq<Msg>,        // everything ever passed to stream.Send
    down: seq<Msg>,          // on the wire to the agent
    up: seq<Item>)           // on the wire to the server

  /** What has happened: ids drawn, requests issued, agents' outputs, responses received per agent id. */
  datatype Issue = Issue(agent: string, msg: Msg)
  datatype Output = Output(agent: string, request: Msg, response: Msg)
  datatype Receipt = Receipt(agent: string, msg: Msg)
  datatype History = History(ids: set<nat>, issued: set<Issue>, outputs: set<Output>, receipts: set<Receipt>)

  datatype Net = Net(
    calls: seq<Call>,
    pending: map<nat, nat>,          // id -> call
    handlers: map<nat, Handler>,
    pongs: map<nat, PongSend>,       // by the PONG's id
    conns: seq<Conn>,
    current: map<string, nat>,
    clients: seq<Client>,
    hist: History)

  /** Steps of call n of SendRequestToAgent after it has registered. */
  datatype CallStep =
    | LookUp
    | Enqueue
    | SendFails(why: SendFailure)
    | TakeResponse
    | GiveUp
    | Close

  /** Steps of connection c on the server. */
  datatype ConnStep =
    | Register
    | PongLookUp(id: nat)               // a PING has come in; SendToAgent looks up the agent's connection
    | LoopTakes
    | LoopHands(ok: bool)
    | LoopEnds

  datatype PongStep = PongEnqueue | PongFails(why: SendFailure)

  /** Steps of agent j. */
  datatype AgentStep =
    | Open
    | Gets(c: nat)
    | Answers(k: nat, body: string)
    | Pings(id: nat)
    | Takes(loop: nat)
    | Writes(loop: nat, c: nat, ok: bool)
    | Drops(loop: nat)

  datatype Event =
    | StartCall(agent: string, id: nat, body: string)
    | CallMoves(n: nat, call: CallStep)
    | ConnMoves(c: nat, conn: ConnStep)
    | PongMoves(id: nat, pong: PongStep)
    | AgentMoves(j: nat, step: AgentStep)
    | Remove(agent: string)              // Deregister, stale sweep or Stop
    | NewClient(agent: string)
    | Receive(c: nat, h: nat)            // the receive loop, up to HandleResponse's lookup
    | Deliver(h: nat)                    // HandleResponse's send

  function Initial(): Net {
    Net([], map[], map[], map[], [], map[], [], History({}, {}, {}, {}))
  }

  // ---- guards ----

  predicate HasRoom(x: Conn) {
    !x.closed && |x.queue| < SEND_CHANNEL_BUFFER
  }

  /** The item's goroutine is one of this agent's. */
  predicate TaskOf(x: Client, it: Item) {
    it.ResponseItem? ==> it.task < |x.tasks|
  }

  predicate HoldsItem(x: Client, loop: nat) {
    loop in x.loops && TaskOf(x, x.loops[loop])
  }

  predicate CallEnabled(s: Net, x: Call, step: CallStep) {
    match step
    case LookUp => x.phase.Registered?
    case Enqueue => x.phase.Sending? && x.phase.conn < |s.conns| && HasRoom(s.conns[x.phase.conn])
    case SendFails(why) => x.phase.Sending? && x.phase.conn < |s.conns| && (why.Timeout? || s.conns[x.phase.conn].closed)
    case TakeResponse => x.phase.Waiting? && x.chan != []
    case GiveUp => x.phase.Waiting?
    case Close => x.phase.Ended?
  }

  predicate ConnEnabled(s: Net, x: Conn, step: ConnStep) {
    match step
    case Register => !x.registered && (x.agent in s.current ==> s.current[x.agent] < |s.conns|)
    case PongLookUp(id) => x.registered && id !in s.hist.ids
    case LoopTakes => x.registered && !x.loopOver && x.hand == [] && x.queue != []
    case LoopHands(_) => x.hand != []
    case LoopEnds => x.hand == []
  }

  /** As for a call: the send, or the timeout, or what a closed channel leads to. */
  predicate PongEnabled(s: Net, c: nat, step: PongStep) {
    c < |s.conns| &&
    match step
    case PongEnqueue => HasRoom(s.conns[c])
    case PongFails(why) => why.Timeout? || s.conns[c].closed
  }

  predicate AgentEnabled(s: Net, j: nat, x: Client, step: AgentStep) {
    match step
    case Open => true
    case Gets(c) => c < |s.conns| && s.conns[c].client == j && s.conns[c].down != []
    case Answers(k, _) => k < |x.tasks| && x.tasks[k].status.Running?
    case Pings(id) => |x.out| < SEND_CHANNEL_BUFFER && id !in s.hist.ids
    case Takes(loop) => loop !in x.loops && x.out != [] && TaskOf(x, x.out[0])
    case Writes(loop, c, _) => HoldsItem(x, loop) && c < |s.conns| && s.conns[c].client == j
    case Drops(loop) => HoldsItem(x, loop)
  }

  predicate Enabled(s: Net, e: Event) {
    match e
    case StartCall(_, id, _) => id !in s.hist.ids
    case CallMoves(n, step) => n < |s.calls| && CallEnabled(s, s.calls[n], step)
    case ConnMoves(c, step) => c < |s.conns| && ConnEnabled(s, s.conns[c], step)
    case PongMoves(id, step) => id in s.pongs && PongEnabled(s, s.pongs[id].conn, step)
    case AgentMoves(j, step) => j < |s.clients| && AgentEnabled(s, j, s.clients[j], step)
    case Remove(agent) => agent in s.current && s.current[agent] < |s.conns|
    case NewClient(_) => true
    case Receive(c, h) => c < |s.conns| && s.conns[c].registered && s.conns[c].up != [] && h !in s.handlers
    case Deliver(h) => h in s.handlers && s.handlers[h].n < |s.calls|
  }

  // ---- effects ----

  function SetCall(s: Net, n: nat, x: Call): Net
    requires n < |s.calls|
  {
    s.(calls := s.calls[n := x])
  }

  function SetConn(s: Net, c: nat, x: Conn): Net
    requires c < |s.conns|
  {
    s.(conns := s.conns[c := x])
  }

  function SetClient(s: Net, j: nat, x: Client): Net
    requires j < |s.clients|
  {
    s.(clients := s.clients[j := x])
  }

  function Queue(x: Conn, m: Msg): Conn {
    x.(queue := x.queue + [m], enqueued := x.enqueued + [m])
  }

  function Draw(s: Net, id: nat): Net {
    s.(hist := s.hist.(ids := s.hist.ids + {id}))
  }

  function NewCall(s: Net, agent: string, id: nat, body: string): Net {
    var m := Msg(id, Request, body);
    s.(calls := s.calls + [Call(agent, m, [], Registered)],
       pending := s.pending[id := |s.calls|],
       hist := s.hist.(ids := s.hist.ids + {id}, issued := s.hist.issued + {Issue(agent, m)}))
  }

  function ApplyCall(s: Net, n: nat, step: CallStep): Net
    requires n < |s.calls| && CallEnabled(s, s.calls[n], step)
  {
    var x := s.calls[n];
    match step
    case LookUp => SetCall(s, n, x.(phase := if x.agent in s.current then Sending(s.current[x.agent]) else Ended(None)))
    case Enqueue =>
      var c := x.phase.conn;
      SetCall(SetConn(s, c, Queue(s.conns[c], x.msg)), n, x.(phase := Waiting))
    case SendFails(_) => SetCall(s, n, x.(phase := Ended(None)))
    case TakeResponse => SetCall(s, n, x.(chan := x.chan[1..], phase := Ended(Some(x.chan[0]))))
    case GiveUp => SetCall(s, n, x.(phase := Ended(None)))
    case Close => SetCall(s, n, x.(phase := Closed(x.phase.result))).(pending := s.pending - {x.msg.id})
  }

  function CloseCurrent(s: Net, agent: string): Net
    requires agent in s.current ==> s.current[agent] < |s.conns|
  {
    if agent in s.current then SetConn(s, s.current[agent], s.conns[s.current[agent]].(closed := true)) else s
  }

  function ApplyConn(s: Net, c: nat, step: ConnStep): Net
    requires c < |s.conns| && ConnEnabled(s, s.conns[c], step)
  {
    var x := s.conns[c];
    match step
    case Register =>
      var t := CloseCurrent(s, x.agent);
      SetConn(t, c, t.conns[c].(registered := true)).(current := s.current[x.agent := c])
    case PongLookUp(id) =>
      var t := Draw(s, id);
      if x.agent in s.current then t.(pongs := s.pongs[id := PongSend(x.agent, s.current[x.agent])]) else t
    case LoopTakes => SetConn(s, c, x.(queue := x.queue[1..], hand := [x.queue[0]]))
    case LoopHands(ok) =>
      SetConn(s, c, x.(hand := [], handed := x.handed + x.hand,
                       down := if ok then x.down + x.hand else x.down,
                       loopOver := x.loopOver || !ok))
    case LoopEnds => SetConn(s, c, x.(loopOver := true))
  }

  function ApplyPong(s: Net, id: nat, step: PongStep): Net
    requires id in s.pongs && PongEnabled(s, s.pongs[id].conn, step)
  {
    var c := s.pongs[id].conn;
    var t := if step.PongEnqueue? then SetConn(s, c, Queue(s.conns[c], Msg(id, Pong, ""))) else s;
    t.(pongs := s.pongs - {id})
  }

  function SetStatus(x: Client, it: Item, st: Status): Client
    requires TaskOf(x, it)
  {
    match it
    case PingItem(_) => x
    case ResponseItem(_, k, _) =>
      x.(tasks := x.tasks[k := x.tasks[k].(
        status := st,
        transmissions := x.tasks[k].transmissions + (if st.Sent? then 1 else 0))])
  }

  /** What the agent's goroutine for task k does once it has its response, or its 502. */
  function Answered(x: Client, k: nat, response: Msg): Client
    requires k < |x.tasks|
  {
    var t := x.tasks[k].(attempts := x.tasks[k].attempts + 1);
    if |x.out| < SEND_CHANNEL_BUFFER then
      x.(out := x.out + [ResponseItem(response, k, t.request)], tasks := x.tasks[k := t.(status := Queued)])
    else
      x.(tasks := x.tasks[k := t.(status := Lost)])
  }

  function Got(x: Client, m: Msg): Client {
    if m.kind.Request? then x.(tasks := x.tasks + [Task(m, Running, 0, 0)]) else x
  }

  /** The send loop is done with its item. */
  function PutDown(x: Client, loop: nat, st: Status): Client
    requires HoldsItem(x, loop)
  {
    SetStatus(x, x.loops[loop], st).(loops := x.loops - {loop})
  }

  function ApplyAgent(s: Net, j: nat, step: AgentStep): Net
    requires j < |s.clients| && AgentEnabled(s, j, s.clients[j], step)
  {
    var x := s.clients[j];
    match step
    case Open => s.(conns := s.conns + [Conn(x.agent, j, false, false, false, [], [], [], [], [], [])])
    case Gets(c) =>
      var y := s.conns[c];
      SetClient(SetConn(s, c, y.(down := y.down[1..])), j, Got(x, y.down[0]))
    case Answers(k, body) =>
      var response := Msg(x.tasks[k].request.id, Response, body);
      SetClient(s, j, Answered(x, k, response)).(
        hist := s.hist.(outputs := s.hist.outputs + {Output(x.agent, x.tasks[k].request, response)}))
    case Pings(id) => SetClient(Draw(s, id), j, x.(out := x.out + [PingItem(Msg(id, Ping, ""))]))
    case Takes(loop) =>
      SetClient(s, j, SetStatus(x, x.out[0], InHand(loop)).(out := x.out[1..], loops := x.loops[loop := x.out[0]]))
    case Writes(loop, c, ok) =>
      var t := SetClient(s, j, PutDown(x, loop, if ok then Sent else Lost));
      if ok then SetConn(t, c, s.conns[c].(up := s.conns[c].up + [x.loops[loop]])) else t
    case Drops(loop) => SetClient(s, j, PutDown(x, loop, Lost))
  }

  function Received(s: Net, c: nat, h: nat): Net
    requires c < |s.conns| && s.conns[c].up != []
  {
    var x := s.conns[c];
    var m := x.up[0].msg;
    var t := SetConn(s, c, x.(up := x.up[1..]));
    if m.kind.Response? then
      var u := t.(hist := s.hist.(receipts := s.hist.receipts + {Receipt(x.agent, m)}));
      if m.id in s.pending then u.(handlers := s.handlers[h := Handler(s.pending[m.id], m)]) else u
    else
      t
  }

  /** The non-blocking send on a channel of capacity 1. */
  function Delivered(x: Call, m: Msg): Call {
    if x.chan == [] then x.(chan := [m]) else x
  }

  function Apply(s: Net, e: Event): Net
    requires Enabled(s, e)
  {
    match e
    case StartCall(agent, id, body) => NewCall(s, agent, id, body)
    case CallMoves(n, step) => ApplyCall(s, n, step)
    case ConnMoves(c, step) => ApplyConn(s, c, step)
    case PongMoves(id, step) => ApplyPong(s, id, step)
    case AgentMoves(j, step) => ApplyAgent(s, j, step)
    case Remove(agent) => CloseCurrent(s, agent).(current := s.current - {agent})
    case NewClient(agent) => s.(clients := s.clients + [Client(agent, [], [], map[])])
    case Receive(c, h) => Received(s, c, h)
    case Deliver(h) =>
      var d := s.handlers[h];
      SetCall(s, d.n, Delivered(s.calls[d.n], d.msg)).(handlers := s.handlers - {h})
  }

  ghost predicate IsRun(s: Net, es: seq<Event>)
    decreases |es|
  {
    es == [] || (Enabled(s, es[0]) && IsRun(Apply(s, es[0]), es[1..]))
  }

  ghost function Run(s: Net, es: seq<Event>): Net
    requires IsRun(s, es)
    decreases |es|
  {
    if es == [] then s else Run(Apply(s, es[0]), es[1..])
  }
}
