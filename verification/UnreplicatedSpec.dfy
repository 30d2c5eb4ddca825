/** The unreplicated protocol and the state its model checker searches, as functions: any
    number of clients, one replica with a reply cache, and a network that is a set of
    messages which never shrinks. */
module UnreplicatedSpec {
  import opened Wrappers
  import opened UnreplicatedTypes
  import T = LinearTimer
  import L = CloseLoop

  /** The application and what each client's workload asks for. */
  datatype Setup = Setup(execute: (AppState, Payload) -> (AppState, Payload), app: AppState, plans: seq<L.Plan>)

  datatype Invocation = Invocation(op: Payload, resendTimer: nat)

  /** Messages and results wait in the buffers net and upcall. */
  datatype Client = Client(id: nat, addr: Addr, seqNum: nat, invoke: Option<Invocation>,
                           net: seq<MessageEvent>, upcall: seq<Payload>)

  datatype Node = Node(client: Client, timer: T.Timer, loop: L.Loop)

  datatype Replica = Replica(replies: map<nat, Reply>, app: AppState, net: seq<MessageEvent>)

  datatype State = State(clients: seq<Node>, replica: Replica, messages: set<MessageEvent>)

  datatype Event = Delivery(message: MessageEvent) | Alarm(client: nat, timer: nat)

  const RESEND_PERIOD: nat := 1000

  function NewNode(i: nat): Node {
    Node(Client(i + 1000, ClientAddr(i), 0, None, [], []), T.NewTimer, L.NewLoop)
  }

  // The client

  function CurrentRequest(c: Client): MessageEvent
    requires c.invoke.Some?
  {
    MessageEvent(ReplicaAddr, RequestMsg(Request(c.id, c.addr, c.seqNum, c.invoke.value.op)))
  }

  function DoSend(c: Client): Client
    requires c.invoke.Some?
  {
    c.(net := c.net + [CurrentRequest(c)])
  }

  function OnInvoke(n: Node, op: Payload): (r: Fallible<Node>)
    ensures r.Success? ==> r.value.loop == n.loop && r.value.client.upcall == n.client.upcall
  {
    if n.client.invoke.Some? then
      Failure(ConcurrentInvocation)
    else
      var timer := T.Set(n.timer, RESEND_PERIOD);
      var c := n.client.(seqNum := n.client.seqNum + 1, invoke := Some(Invocation(op, timer.lastId)));
      Success(n.(client := DoSend(c), timer := timer))
  }

  function OnTimer(n: Node, id: nat): Fallible<Node> {
    if n.client.invoke.None? || n.client.invoke.value.resendTimer != id then Failure(Panicked)
    else Success(n.(client := DoSend(n.client)))
  }

  function OnReply(n: Node, reply: Reply): Fallible<Node> {
    if reply.seqNum != n.client.seqNum || n.client.invoke.None? then
      Success(n)
    else
      match T.Unset(n.timer, n.client.invoke.value.resendTimer)
      case Failure(e) => Failure(e)
      case Success(timer) =>
        Success(n.(timer := timer, client := n.client.(invoke := None, upcall := n.client.upcall + [reply.result])))
  }

  // The replica

  /** No reply is cached for this request or a later one of its client. */
  predicate Fresh(r: Replica, request: Request) {
    request.clientId !in r.replies || r.replies[request.clientId].seqNum < request.seqNum
  }

  function OnRequest(u: Setup, r: Replica, request: Request): Replica {
    if !Fresh(r, request) then
      var cached := r.replies[request.clientId];
      if cached.seqNum > request.seqNum then r
      else r.(net := r.net + [MessageEvent(request.clientAddr, ReplyMsg(cached))])
    else
      var (app, result) := u.execute(r.app, request.op);
      var reply := Reply(request.seqNum, result);
      Replica(r.replies[request.clientId := reply], app, r.net + [MessageEvent(request.clientAddr, ReplyMsg(reply))])
  }

  // Carrying invocations and results between a client and its loop

  function InvokeAll(n: Node, ops: seq<Payload>): (r: Fallible<Node>)
    ensures r.Success? ==> r.value.loop == n.loop && r.value.client.upcall == n.client.upcall
    decreases |ops|
  {
    if ops == [] then Success(n)
    else match OnInvoke(n, ops[0])
      case Failure(e) => Failure(e)
      case Success(next) => InvokeAll(next, ops[1..])
  }

  function ReturnAll(plan: L.Plan, n: Node, results: seq<Payload>): (r: Fallible<Node>)
    ensures r.Success? ==>
              && r.value.client == n.client && r.value.timer == n.timer
              && |r.value.loop.sender| <= |n.loop.sender| + |results|
    decreases |results|
  {
    if results == [] then Success(n)
    else match L.OnInvokeOk(plan, n.loop, results[0])
      case Failure(e) => Failure(e)
      case Success(loop) => ReturnAll(plan, n.(loop := loop), results[1..])
  }

  /** Until both buffers are empty: invoke all that is buffered, then return all. */
  function Rerun(plan: L.Plan, n: Node): Fallible<Node>
    decreases |n.loop.sender| + 2 * |n.client.upcall|
  {
    if n.loop.sender == [] && n.client.upcall == [] then
      Success(n)
    else
      match InvokeAll(n.(loop := n.loop.(sender := [])), n.loop.sender)
      case Failure(e) => Failure(e)
      case Success(invoked) =>
        match ReturnAll(plan, invoked.(client := invoked.client.(upcall := [])), invoked.client.upcall)
        case Failure(e) => Failure(e)
        case Success(returned) => Rerun(plan, returned)
  }

  // The state

  function Elements(ms: seq<MessageEvent>): set<MessageEvent> {
    set m <- ms
  }

  function FlushNode(plan: L.Plan, n: Node): Fallible<Node> {
    Rerun(plan, n.(client := n.client.(net := [])))
  }

  /** A client's messages go to the network before its loop runs. */
  function FlushFrom(u: Setup, s: State, i: nat): (r: Fallible<State>)
    requires i <= |s.clients| == |u.plans|
    ensures r.Success? ==> |r.value.clients| == |s.clients|
    decreases |s.clients| - i
  {
    if i == |s.clients| then
      Success(s)
    else
      match FlushNode(u.plans[i], s.clients[i])
      case Failure(e) => Failure(e)
      case Success(n) =>
        FlushFrom(u, s.(clients := s.clients[i := n],
                        messages := s.messages + Elements(s.clients[i].client.net)), i + 1)
  }

  function Flush(u: Setup, s: State): (r: Fallible<State>)
    requires |s.clients| == |u.plans|
    ensures r.Success? ==> |r.value.clients| == |s.clients|
  {
    FlushFrom(u, s.(replica := s.replica.(net := []), messages := s.messages + Elements(s.replica.net)), 0)
  }

  function New(u: Setup): State {
    State(seq(|u.plans|, i requires 0 <= i => NewNode(i)), Replica(map[], u.app, []), {})
  }

  function InitFrom(u: Setup, s: State, i: nat): (r: Fallible<State>)
    requires i <= |s.clients| == |u.plans|
    ensures r.Success? ==> |r.value.clients| == |s.clients|
    decreases |s.clients| - i
  {
    if i == |s.clients| then
      Success(s)
    else
      match L.Init(u.plans[i], s.clients[i].loop)
      case Failure(e) => Failure(e)
      case Success(loop) => InitFrom(u, s.(clients := s.clients[i := s.clients[i].(loop := loop)]), i + 1)
  }

  function Launch(u: Setup): (r: Fallible<State>)
    ensures r.Success? ==> |r.value.clients| == |u.plans|
  {
    match InitFrom(u, New(u), 0)
    case Failure(e) => Failure(e)
    case Success(s) => Flush(u, s)
  }

  /** The events the checker may choose from. */
  predicate Offers(s: State, e: Event) {
    match e
    case Delivery(m) => m in s.messages
    case Alarm(i, id) => i < |s.clients| && id in T.Offered(s.clients[i].timer)
  }

  /** The part of a step before the flush. */
  function React(u: Setup, s: State, e: Event): (r: Fallible<State>)
    ensures r.Success? ==> |r.value.clients| == |s.clients|
  {
    match e
    case Delivery(MessageEvent(ReplicaAddr, RequestMsg(request))) =>
      Success(s.(replica := OnRequest(u, s.replica, request)))
    case Delivery(MessageEvent(ClientAddr(i), ReplyMsg(reply))) =>
      if i >= |s.clients| then Failure(Panicked)
      else (match OnReply(s.clients[i], reply)
            case Failure(error) => Failure(error)
            case Success(n) => Success(s.(clients := s.clients[i := n])))
    case Alarm(i, id) =>
      if i >= |s.clients| then Failure(Panicked)
      else (match T.StepTimer(s.clients[i].timer, id)
            case Failure(error) => Failure(error)
            case Success(timer) =>
              match OnTimer(s.clients[i].(timer := timer), id)
              case Failure(error) => Failure(error)
              case Success(n) => Success(s.(clients := s.clients[i := n])))
    case _ => Failure(UnexpectedEvent)
  }

  function Step(u: Setup, s: State, e: Event): (r: Fallible<State>)
    requires |s.clients| == |u.plans|
    ensures r.Success? ==> |r.value.clients| == |s.clients|
  {
    match React(u, s, e)
    case Failure(error) => Failure(error)
    case Success(next) => Flush(u, next)
  }
}
