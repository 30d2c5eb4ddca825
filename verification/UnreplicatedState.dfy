/** What every state the checker can reach looks like.  A client's timer, buffers and
    loop are functions of the rest of the state; a step fails only on a wrong result. */
module UnreplicatedState {
  import opened Wrappers
  import opened UnreplicatedTypes
  import opened UnreplicatedSpec
  import T = LinearTimer
  import L = CloseLoop

  // Dry states

  datatype DryNode = DryNode(id: nat, addr: Addr, seqNum: nat, invoke: Option<Invocation>,
                             invocations: seq<(Payload, Payload)>)

  datatype DryState = DryState(clients: seq<DryNode>, replies: map<nat, Reply>, app: AppState, messages: set<MessageEvent>)

  function DryOf(n: Node): DryNode {
    DryNode(n.client.id, n.client.addr, n.client.seqNum, n.client.invoke, n.loop.workload.invocations)
  }

  function Dry(s: State): DryState {
    DryState(seq(|s.clients|, i requires 0 <= i < |s.clients| => DryOf(s.clients[i])),
             s.replica.replies, s.replica.app, s.messages)
  }

  /** The request of an open invocation, none when nothing is open. */
  function Asking(d: DryNode): Option<MessageEvent> {
    if d.invoke.None? then None
    else Some(MessageEvent(ReplicaAddr, RequestMsg(Request(d.id, d.addr, d.seqNum, d.invoke.value.op))))
  }

  /** The full client from its dry state: the timer of the open invocation carries the
      sequence number as its id, and the buffer holds the request unless the network does. */
  function Rehydrated(plan: L.Plan, d: DryNode, messages: set<MessageEvent>): Node {
    var open, ask := d.invoke.Some?, Asking(d);
    var net := if open && ask.value !in messages then [ask.value] else [];
    var timer := T.Timer(if open then [T.Alarm(d.seqNum, RESEND_PERIOD)] else [], d.seqNum);
    var awaited := if open && plan.checked && d.seqNum > 0 then Some(plan.want(d.seqNum - 1)) else None;
    var attach := if open then Some(d.invoke.value.op) else None;
    Node(Client(d.id, d.addr, d.seqNum, d.invoke, net, []), timer,
         L.Loop(L.Workload(d.seqNum, awaited, d.invocations), attach, [], !open))
  }

  function Rehydrate(u: Setup, d: DryState): State
    requires |d.clients| == |u.plans|
  {
    State(seq(|d.clients|, i requires 0 <= i < |d.clients| => Rehydrated(u.plans[i], d.clients[i], d.messages)),
          Replica(d.replies, d.app, []), d.messages)
  }

  // The invariant

  predicate NodeOk(plan: L.Plan, i: nat, n: Node, messages: set<MessageEvent>) {
    && n == Rehydrated(plan, DryOf(n), messages)
    && n.client.id == i + 1000 && n.client.addr == ClientAddr(i)
    && (match n.client.invoke
        case Some(Invocation(op, timer)) =>
          n.client.seqNum >= 1 && timer == n.client.seqNum && plan.op(n.client.seqNum - 1) == Some(op)
        case None => plan.op(n.client.seqNum) == None)
  }

  /** A reply to this invocation exists only if the network has seen its request. */
  predicate ReplyKnown(n: Node, seqNum: nat, messages: set<MessageEvent>) {
    && 1 <= seqNum <= n.client.seqNum
    && (seqNum == n.client.seqNum && n.client.invoke.Some? ==> CurrentRequest(n.client) in messages)
  }

  predicate RequestKnown(u: Setup, clients: seq<Node>, r: Request)
    requires |clients| == |u.plans|
  {
    && r.clientAddr.ClientAddr?
    && var i := r.clientAddr.index;
    && i < |clients| && r.clientId == i + 1000
    && 1 <= r.seqNum <= clients[i].client.seqNum && u.plans[i].op(r.seqNum - 1) == Some(r.op)
  }

  predicate MessageOk(u: Setup, clients: seq<Node>, messages: set<MessageEvent>, m: MessageEvent)
    requires |clients| == |u.plans|
  {
    match m
    case MessageEvent(ReplicaAddr, RequestMsg(r)) => RequestKnown(u, clients, r)
    case MessageEvent(ClientAddr(i), ReplyMsg(r)) => i < |clients| && ReplyKnown(clients[i], r.seqNum, messages)
    case _ => false
  }

  predicate RepliesOk(clients: seq<Node>, messages: set<MessageEvent>, replies: map<nat, Reply>) {
    forall id <- replies ::
      1000 <= id < 1000 + |clients| && ReplyKnown(clients[id - 1000], replies[id].seqNum, messages)
  }

  ghost predicate StateOk(u: Setup, s: State) {
    && |s.clients| == |u.plans| && s.replica.net == []
    && (forall i: nat | i < |s.clients| :: NodeOk(u.plans[i], i, s.clients[i], s.messages))
    && (forall m <- s.messages :: MessageOk(u, s.clients, s.messages, m))
    && RepliesOk(s.clients, s.messages, s.replica.replies)
  }

  // The flush

  function Flushed(n: Node): Node {
    n.(client := n.client.(net := []))
  }

  function Settled(clients: seq<Node>): (out: seq<Node>)
    ensures |out| == |clients| && forall i: nat | i < |clients| :: out[i] == Flushed(clients[i])
  {
    seq(|clients|, i requires 0 <= i < |clients| => Flushed(clients[i]))
  }

  function Pending(clients: seq<Node>, i: nat): set<MessageEvent> {
    set j: nat, m | i <= j < |clients| && m in clients[j].client.net :: m
  }

  predicate Quiet(n: Node) {
    n.loop.sender == [] && n.client.upcall == []
  }

  lemma {:induction false} FlushResult(u: Setup, s: State, i: nat, out: seq<Node>)
    requires i <= |s.clients| == |u.plans| == |out|
    requires forall j: nat | i <= j < |out| :: FlushNode(u.plans[j], s.clients[j]) == Success(out[j])
    requires forall j: nat | j < i :: s.clients[j] == out[j]
    ensures FlushFrom(u, s, i) == Success(s.(clients := out, messages := s.messages + Pending(s.clients, i)))
    decreases |out| - i
  {
    hide FlushNode;
    if i == |out| {
      assert s.clients == out;
      assert s.messages + Pending(s.clients, i) == s.messages;
    } else {
      assert FlushNode(u.plans[i], s.clients[i]) == Success(out[i]);
      var next := s.(clients := s.clients[i := out[i]], messages := s.messages + Elements(s.clients[i].client.net));
      FlushResult(u, next, i + 1, out);
      PendingSplit(s.clients, i, out[i]);
      assert s.messages + Pending(s.clients, i) == next.messages + Pending(next.clients, i + 1);
    }
  }

  lemma PendingSplit(clients: seq<Node>, i: nat, n: Node)
    requires i < |clients|
    ensures Pending(clients, i) == Elements(clients[i].client.net) + Pending(clients[i := n], i + 1)
  {
    var after := clients[i := n];
    forall m ensures m in Pending(clients, i) <==> m in Elements(clients[i].client.net) || m in Pending(after, i + 1) {
      if m in Pending(clients, i) {
        var j: nat :| i <= j < |clients| && m in clients[j].client.net;
        assert j > i ==> m in after[j].client.net;
      }
      if m in Pending(after, i + 1) {
        var j: nat :| i + 1 <= j < |after| && m in after[j].client.net;
        assert m in clients[j].client.net;
      }
    }
  }

  /** The first failure of a client's loop is the failure of the flush. */
  lemma {:induction false} FlushFails(u: Setup, s: State, i: nat, k: nat, error: Error)
    requires i <= k < |s.clients| == |u.plans|
    requires forall j: nat | i <= j < k :: Quiet(s.clients[j])
    requires FlushNode(u.plans[k], s.clients[k]) == Failure(error)
    ensures FlushFrom(u, s, i) == Failure(error)
    decreases k - i
  {
    hide FlushNode;
    if i < k {
      FlushQuiet(u.plans[i], s.clients[i]);
      var n := Flushed(s.clients[i]);
      FlushFails(u, s.(clients := s.clients[i := n], messages := s.messages + Elements(s.clients[i].client.net)), i + 1, k, error);
    }
  }

  lemma FlushQuiet(plan: L.Plan, n: Node)
    requires Quiet(n)
    ensures FlushNode(plan, n) == Success(Flushed(n))
  {
  }

  /** A flush with at most one client whose loop has something to do. */
  lemma FlushOne(u: Setup, s: State, k: nat, n: Node)
    requires |s.clients| == |u.plans| && k < |s.clients|
    requires forall j: nat | j < |s.clients| && j != k :: Quiet(s.clients[j])
    requires FlushNode(u.plans[k], s.clients[k]) == Success(n)
    ensures
      var network := s.messages + Elements(s.replica.net) + Pending(s.clients, 0);
      Flush(u, s) == Success(State(Settled(s.clients)[k := n], s.replica.(net := []), network))
  {
    hide FlushNode;
    var out := Settled(s.clients)[k := n];
    forall j: nat | j < |out| ensures FlushNode(u.plans[j], s.clients[j]) == Success(out[j]) {
      if j != k {
        FlushQuiet(u.plans[j], s.clients[j]);
      }
    }
    FlushResult(u, s.(replica := s.replica.(net := []), messages := s.messages + Elements(s.replica.net)), 0, out);
  }

  lemma FlushNone(u: Setup, s: State)
    requires |s.clients| == |u.plans|
    requires forall j: nat | j < |s.clients| :: Quiet(s.clients[j])
    ensures
      var network := s.messages + Elements(s.replica.net) + Pending(s.clients, 0);
      Flush(u, s) == Success(State(Settled(s.clients), s.replica.(net := []), network))
  {
    hide FlushNode;
    forall j: nat | j < |s.clients| ensures FlushNode(u.plans[j], s.clients[j]) == Success(Settled(s.clients)[j]) {
      FlushQuiet(u.plans[j], s.clients[j]);
    }
    FlushResult(u, s.(replica := s.replica.(net := []), messages := s.messages + Elements(s.replica.net)), 0, Settled(s.clients));
  }

  // An accepted reply

  function Noted(plan: L.Plan, invocations: seq<(Payload, Payload)>, op: Payload, result: Payload): seq<(Payload, Payload)> {
    if plan.recorded then invocations + [(op, result)] else invocations
  }

  /** The dry client after its open invocation returned: the next one is open, if any. */
  function Advanced(plan: L.Plan, d: DryNode, result: Payload): DryNode
    requires d.invoke.Some?
  {
    var invocations := Noted(plan, d.invocations, d.invoke.value.op, result);
    match plan.op(d.seqNum)
    case Some(op) => DryNode(d.id, d.addr, d.seqNum + 1, Some(Invocation(op, d.seqNum + 1)), invocations)
    case None => DryNode(d.id, d.addr, d.seqNum, None, invocations)
  }

  predicate Expected(plan: L.Plan, seqNum: nat, result: Payload)
    requires seqNum >= 1
  {
    plan.checked ==> result == plan.want(seqNum - 1)
  }

  lemma AcceptReply(plan: L.Plan, i: nat, n: Node, messages: set<MessageEvent>, reply: Reply)
    requires NodeOk(plan, i, n, messages) && n.client.invoke.Some? && reply.seqNum == n.client.seqNum
    requires CurrentRequest(n.client) in messages
    ensures OnReply(n, reply).Success? && OnReply(n, reply).value.client.net == []
    ensures
      var flushed := FlushNode(plan, OnReply(n, reply).value);
      if Expected(plan, n.client.seqNum, reply.result) then
        flushed == Success(Rehydrated(plan, Advanced(plan, DryOf(n), reply.result), {}))
      else
        flushed == Failure(UnexpectedResult(plan.want(n.client.seqNum - 1), reply.result))
  {
    var k := n.client.seqNum;
    assert T.Position(n.timer.events, k) == 0;
    var a := OnReply(n, reply).value;
    assert a.timer.events == [] && a.client.upcall == [reply.result] && a.client.net == [];
    assert [reply.result][1..] == [];
    var a' := a.(client := a.client.(upcall := []));
    assert a.(loop := a.loop.(sender := [])) == a;
    assert InvokeAll(a, []) == Success(a);
    var back := L.OnInvokeOk(plan, a.loop, reply.result);
    assert ReturnAll(plan, a', [reply.result]) ==
      if back.Success? then Success(a'.(loop := back.value)) else Failure(back.error);
    if back.Success? {
      RerunRest(plan, a'.(loop := back.value), n, reply.result);
    }
  }

  /** What is left after the result was recorded: invoke the next op, if there is one. */
  lemma RerunRest(plan: L.Plan, b: Node, n: Node, result: Payload)
    requires n.client.invoke.Some? && b.client == n.client.(invoke := None, net := [], upcall := [])
    requires b.timer == T.Timer([], n.client.seqNum)
    requires
      var k, op := n.client.seqNum, plan.op(n.client.seqNum);
      var w := L.Workload(k, None, Noted(plan, n.loop.workload.invocations, n.client.invoke.value.op, result));
      b.loop == if op.None? then L.Loop(w, None, [], true)
                else L.Loop(w.(position := k + 1, awaited := if plan.checked then Some(plan.want(k)) else None), op, [op.value], false)
    ensures Rerun(plan, b) == Success(Rehydrated(plan, Advanced(plan, DryOf(n), result), {}))
  {
    var op := plan.op(n.client.seqNum);
    if op.Some? {
      assert [op.value][1..] == [];
      var c := b.(loop := b.loop.(sender := []));
      var d := OnInvoke(c, op.value).value;
      assert InvokeAll(c, [op.value]) == Success(d);
      assert d.client.upcall == [] && d.(client := d.client.(upcall := [])) == d;
      assert ReturnAll(plan, d, []) == Success(d);
      assert Rerun(plan, b) == Rerun(plan, d) == Success(d);
      var e := Rehydrated(plan, Advanced(plan, DryOf(n), result), {});
      assert d.client.net == e.client.net && d.timer.events == e.timer.events;
    }
  }
}
