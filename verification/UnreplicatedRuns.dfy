/** Every run of the checker keeps the invariant, and its steps fail only on a result the
    workload did not expect. */
module UnreplicatedRuns {
  import opened Wrappers
  import opened UnreplicatedTypes
  import opened UnreplicatedSpec
  import opened UnreplicatedState
  import T = LinearTimer
  import L = CloseLoop

  /** The state after these events, none if the launch fails, an event is not offered or
      a step fails. */
  function After(u: Setup, events: seq<Event>): (s: Option<State>)
    ensures s.Some? ==> |s.value.clients| == |u.plans|
  {
    if events == [] then
      match Launch(u)
      case Failure(_) => None
      case Success(s) => Some(s)
    else
      match After(u, events[..|events| - 1])
      case None => None
      case Some(s) =>
        if !Offers(s, events[|events| - 1]) then None
        else match Step(u, s, events[|events| - 1])
          case Failure(_) => None
          case Success(next) => Some(next)
  }

  // The shape of a step

  function Network(s: State): set<MessageEvent> {
    s.messages + Pending(s.clients, 0)
  }

  lemma NodesQuiet(u: Setup, s: State)
    requires StateOk(u, s)
    ensures forall j: nat | j < |s.clients| :: Quiet(s.clients[j])
  {
    forall j: nat | j < |s.clients| ensures Quiet(s.clients[j]) {
      assert NodeOk(u.plans[j], j, s.clients[j], s.messages);
    }
  }

  lemma RequestStep(u: Setup, s: State, r: Request)
    requires StateOk(u, s)
    ensures
      var replica := OnRequest(u, s.replica, r);
      Step(u, s, Delivery(MessageEvent(ReplicaAddr, RequestMsg(r))))
        == Success(State(Settled(s.clients), replica.(net := []), Network(s) + Elements(replica.net)))
  {
    hide NodeOk, RepliesOk, OnRequest;
    NodesQuiet(u, s);
    var next := s.(replica := OnRequest(u, s.replica, r));
    FlushNone(u, next);
    assert next.messages + Elements(next.replica.net) + Pending(next.clients, 0) == Network(s) + Elements(next.replica.net);
  }

  lemma AlarmStep(u: Setup, s: State, i: nat, id: nat)
    requires StateOk(u, s) && Offers(s, Alarm(i, id))
    ensures s.clients[i].client.invoke.Some? && id == s.clients[i].client.seqNum
    ensures Step(u, s, Alarm(i, id)) ==
              Success(State(Settled(s.clients), s.replica, Network(s) + {CurrentRequest(s.clients[i].client)}))
  {
    hide RepliesOk, NodeOk, T.StepTimer, T.Offered;
    NodesQuiet(u, s);
    var n := s.clients[i];
    assert NodeOk(u.plans[i], i, n, s.messages);
    OfferedAlarm(u.plans[i], i, n, s.messages, id);
    var rung := n.(client := DoSend(n.client));
    assert OnTimer(n, id) == Success(rung);
    var next := s.(clients := s.clients[i := rung]);
    FlushNone(u, next);
    assert Settled(next.clients) == Settled(s.clients);
    PendingPut(s.clients, i, rung);
    assert Elements(rung.client.net) == Elements(n.client.net) + {CurrentRequest(n.client)};
    assert next.messages + Elements(next.replica.net) + Pending(next.clients, 0) == Network(s) + {CurrentRequest(n.client)};
  }

  lemma OfferedAlarm(plan: L.Plan, i: nat, n: Node, messages: set<MessageEvent>, id: nat)
    requires NodeOk(plan, i, n, messages) && id in T.Offered(n.timer)
    ensures n.client.invoke.Some? && n.client.invoke.value.resendTimer == id == n.client.seqNum
    ensures T.StepTimer(n.timer, id) == Success(n.timer)
  {
    if n.client.invoke.Some? {
      T.LoneTimer(n.timer, T.Alarm(n.client.seqNum, RESEND_PERIOD));
    }
  }

  lemma PendingPut(clients: seq<Node>, i: nat, n: Node)
    requires i < |clients| && Elements(clients[i].client.net) <= Elements(n.client.net)
    ensures Pending(clients[i := n], 0) == Pending(clients, 0) + Elements(n.client.net)
  {
    var after := clients[i := n];
    forall m ensures m in Pending(after, 0) <==> m in Pending(clients, 0) || m in Elements(n.client.net) {
      if m in Pending(clients, 0) {
        var j: nat :| j < |clients| && m in clients[j].client.net;
        assert m in Elements(clients[j].client.net) && (j != i ==> m in after[j].client.net);
        assert m in after[j].client.net;
      }
      if m in Elements(n.client.net) {
        assert m in after[i].client.net;
      }
      if m in Pending(after, 0) {
        var j: nat :| j < |after| && m in after[j].client.net;
        assert j != i ==> m in clients[j].client.net;
      }
    }
  }

  predicate Accepts(n: Node, r: Reply) {
    r.seqNum == n.client.seqNum && n.client.invoke.Some?
  }

  lemma IgnoredReplyStep(u: Setup, s: State, i: nat, r: Reply)
    requires StateOk(u, s) && i < |s.clients| && !Accepts(s.clients[i], r)
    ensures Step(u, s, Delivery(MessageEvent(ClientAddr(i), ReplyMsg(r)))) == Success(State(Settled(s.clients), s.replica, Network(s)))
  {
    hide NodeOk, RepliesOk;
    NodesQuiet(u, s);
    assert s.(clients := s.clients[i := s.clients[i]]) == s;
    FlushNone(u, s);
    assert s.messages + Elements(s.replica.net) + Pending(s.clients, 0) == Network(s);
  }

  lemma AcceptedReplyStep(u: Setup, s: State, i: nat, r: Reply)
    requires StateOk(u, s) && i < |s.clients| && Accepts(s.clients[i], r)
    requires MessageEvent(ClientAddr(i), ReplyMsg(r)) in s.messages
    ensures s.clients[i].client.seqNum >= 1
    ensures
      var e, n := Delivery(MessageEvent(ClientAddr(i), ReplyMsg(r))), s.clients[i];
      Step(u, s, e) ==
        if Expected(u.plans[i], n.client.seqNum, r.result) then
          var next := Rehydrated(u.plans[i], Advanced(u.plans[i], DryOf(n), r.result), {});
          Success(State(Settled(s.clients)[i := next], s.replica, Network(s)))
        else
          Failure(UnexpectedResult(u.plans[i].want(n.client.seqNum - 1), r.result))
  {
    hide RepliesOk, FlushNode, OnReply, Rehydrated;
    NodesQuiet(u, s);
    var n := s.clients[i];
    assert NodeOk(u.plans[i], i, n, s.messages);
    assert MessageOk(u, s.clients, s.messages, MessageEvent(ClientAddr(i), ReplyMsg(r)));
    AcceptReply(u.plans[i], i, n, s.messages, r);
    var a := OnReply(n, r).value;
    var next := s.(clients := s.clients[i := a]);
    if Expected(u.plans[i], n.client.seqNum, r.result) {
      var out := Rehydrated(u.plans[i], Advanced(u.plans[i], DryOf(n), r.result), {});
      FlushOne(u, next, i, out);
      assert Settled(next.clients)[i := out] == Settled(s.clients)[i := out];
      EmptyNet(u.plans[i], i, n, s.messages);
      PendingPut(s.clients, i, a);
      assert next.messages + Elements(next.replica.net) + Pending(next.clients, 0) == Network(s);
    } else {
      FlushFails(u, next.(replica := next.replica.(net := []), messages := next.messages + Elements(next.replica.net)), 0, i,
                 UnexpectedResult(u.plans[i].want(n.client.seqNum - 1), r.result));
    }
  }

  lemma EmptyNet(plan: L.Plan, i: nat, n: Node, messages: set<MessageEvent>)
    requires NodeOk(plan, i, n, messages) && n.client.invoke.Some? && CurrentRequest(n.client) in messages
    ensures n.client.net == []
  {
  }

  // The invariant is kept

  /** The client has moved on or has still the same open request. */
  predicate Grows(n: Node, n': Node) {
    && n.client.seqNum <= n'.client.seqNum
    && (n.client.seqNum == n'.client.seqNum && n'.client.invoke.Some? ==>
          n.client.invoke.Some? && CurrentRequest(n.client) == CurrentRequest(n'.client))
  }

  ghost predicate AllGrow(s: State, s': State) {
    && |s'.clients| == |s.clients| && s.messages <= s'.messages
    && forall i: nat | i < |s.clients| :: Grows(s.clients[i], s'.clients[i])
  }

  lemma MessageStaysOk(u: Setup, s: State, s': State, m: MessageEvent)
    requires |s.clients| == |u.plans| && AllGrow(s, s') && MessageOk(u, s.clients, s.messages, m)
    ensures MessageOk(u, s'.clients, s'.messages, m)
  {
  }

  lemma StateGrows(u: Setup, s: State, s': State)
    requires StateOk(u, s) && AllGrow(s, s') && s'.replica.net == []
    requires forall i: nat | i < |s'.clients| :: NodeOk(u.plans[i], i, s'.clients[i], s'.messages)
    requires forall m <- s'.messages - s.messages :: MessageOk(u, s'.clients, s'.messages, m)
    requires RepliesOk(s'.clients, s'.messages, s'.replica.replies)
    ensures StateOk(u, s')
  {
    hide NodeOk, MessageOk, RepliesOk;
    forall m <- s'.messages ensures MessageOk(u, s'.clients, s'.messages, m) {
      if m in s.messages {
        MessageStaysOk(u, s, s', m);
      }
    }
  }

  lemma RepliesStayOk(s: State, s': State)
    requires AllGrow(s, s') && RepliesOk(s.clients, s.messages, s.replica.replies)
    ensures RepliesOk(s'.clients, s'.messages, s.replica.replies)
  {
    forall id <- s.replica.replies
      ensures 1000 <= id < 1000 + |s'.clients| && ReplyKnown(s'.clients[id - 1000], s.replica.replies[id].seqNum, s'.messages)
    {
      assert Grows(s.clients[id - 1000], s'.clients[id - 1000]);
    }
  }

  lemma NodeSettles(plan: L.Plan, i: nat, n: Node, messages: set<MessageEvent>, network: set<MessageEvent>)
    requires NodeOk(plan, i, n, messages) && messages + Elements(n.client.net) <= network
    ensures NodeOk(plan, i, Flushed(n), network) && Grows(n, Flushed(n))
  {
    if n.client.invoke.Some? && CurrentRequest(n.client) !in messages {
      assert CurrentRequest(n.client) in n.client.net;
    }
  }

  lemma PendingIn(s: State, i: nat)
    requires i < |s.clients|
    ensures s.messages + Elements(s.clients[i].client.net) <= Network(s)
  {
  }

  /** What a settled state adds to the network are open requests. */
  lemma PendingOk(u: Setup, s: State, m: MessageEvent)
    requires StateOk(u, s) && m in Pending(s.clients, 0)
    ensures m.dest == ReplicaAddr && m.message.RequestMsg? && RequestKnown(u, s.clients, m.message.request)
  {
    var j: nat :| j < |s.clients| && m in s.clients[j].client.net;
    assert NodeOk(u.plans[j], j, s.clients[j], s.messages);
  }

  lemma OpenRequestKnown(u: Setup, s: State, i: nat)
    requires StateOk(u, s) && i < |s.clients| && s.clients[i].client.invoke.Some?
    ensures RequestKnown(u, s.clients, CurrentRequest(s.clients[i].client).message.request)
  {
    assert NodeOk(u.plans[i], i, s.clients[i], s.messages);
  }

  /** A step that changes no client beyond sending what it has buffered. */
  lemma SettledOk(u: Setup, s: State, replica: Replica, more: set<MessageEvent>)
    requires StateOk(u, s) && replica.net == []
    requires
      var s' := State(Settled(s.clients), replica, Network(s) + more);
      && (forall m <- more :: MessageOk(u, s'.clients, s'.messages, m))
      && RepliesOk(s'.clients, s'.messages, replica.replies)
    ensures
      var s' := State(Settled(s.clients), replica, Network(s) + more);
      StateOk(u, s') && AllGrow(s, s')
  {
    hide NodeOk, MessageOk, RepliesOk, Pending;
    var s' := State(Settled(s.clients), replica, Network(s) + more);
    forall i: nat | i < |s.clients|
      ensures NodeOk(u.plans[i], i, s'.clients[i], s'.messages) && Grows(s.clients[i], s'.clients[i])
    {
      PendingIn(s, i);
      NodeSettles(u.plans[i], i, s.clients[i], s.messages, s'.messages);
    }
    forall m <- s'.messages - s.messages ensures MessageOk(u, s'.clients, s'.messages, m) {
      if m !in more {
        PendingOk(u, s, m);
        RequestOk(u, s, s', m);
      }
    }
    StateGrows(u, s, s');
  }

  lemma RequestOk(u: Setup, s: State, s': State, m: MessageEvent)
    requires |s.clients| == |u.plans| && AllGrow(s, s')
    requires m.dest == ReplicaAddr && m.message.RequestMsg? && RequestKnown(u, s.clients, m.message.request)
    ensures MessageOk(u, s'.clients, s'.messages, m)
  {
  }

  lemma RequestKeepsOk(u: Setup, s: State, r: Request)
    requires StateOk(u, s) && MessageEvent(ReplicaAddr, RequestMsg(r)) in s.messages
    ensures
      var replica := OnRequest(u, s.replica, r);
      StateOk(u, State(Settled(s.clients), replica.(net := []), Network(s) + Elements(replica.net)))
  {
    hide NodeOk, Pending;
    var replica := OnRequest(u, s.replica, r);
    var s' := State(Settled(s.clients), replica.(net := []), Network(s) + Elements(replica.net));
    var i := RequestOrigin(u, s, r);
    var n, n' := s.clients[i], s'.clients[i];
    assert ReplyKnown(n', r.seqNum, s'.messages);
    assert forall j: nat | j < |s.clients| :: Grows(s.clients[j], s'.clients[j]);
    RepliesStayOk(s, s');
    assert RepliesOk(s'.clients, s'.messages, replica.replies);
    forall m <- Elements(replica.net) ensures MessageOk(u, s'.clients, s'.messages, m) {
    }
    SettledOk(u, s, replica.(net := []), Elements(replica.net));
  }

  /** A request in the network is an old one of its client, or the open one. */
  lemma RequestOrigin(u: Setup, s: State, r: Request) returns (i: nat)
    requires StateOk(u, s) && MessageEvent(ReplicaAddr, RequestMsg(r)) in s.messages
    ensures i < |s.clients| && r.clientAddr == ClientAddr(i) && r.clientId == i + 1000
    ensures ReplyKnown(s.clients[i], r.seqNum, s.messages)
    ensures s.clients[i].client.invoke.Some? && r.seqNum == s.clients[i].client.seqNum ==>
              MessageEvent(ReplicaAddr, RequestMsg(r)) == CurrentRequest(s.clients[i].client)
  {
    var m := MessageEvent(ReplicaAddr, RequestMsg(r));
    assert MessageOk(u, s.clients, s.messages, m);
    i := r.clientAddr.index;
    assert NodeOk(u.plans[i], i, s.clients[i], s.messages);
  }

  lemma AlarmKeepsOk(u: Setup, s: State, i: nat)
    requires StateOk(u, s) && i < |s.clients| && s.clients[i].client.invoke.Some?
    ensures StateOk(u, State(Settled(s.clients), s.replica, Network(s) + {CurrentRequest(s.clients[i].client)}))
  {
    hide NodeOk, Pending, RepliesOk;
    var s' := State(Settled(s.clients), s.replica, Network(s) + {CurrentRequest(s.clients[i].client)});
    assert forall j: nat | j < |s.clients| :: Grows(s.clients[j], s'.clients[j]);
    RepliesStayOk(s, s');
    OpenRequestKnown(u, s, i);
    RequestOk(u, s, s', CurrentRequest(s.clients[i].client));
    SettledOk(u, s, s.replica, {CurrentRequest(s.clients[i].client)});
  }

  lemma IgnoredKeepsOk(u: Setup, s: State)
    requires StateOk(u, s)
    ensures StateOk(u, State(Settled(s.clients), s.replica, Network(s)))
  {
    hide NodeOk, Pending, RepliesOk;
    var s' := State(Settled(s.clients), s.replica, Network(s) + {});
    assert forall j: nat | j < |s.clients| :: Grows(s.clients[j], s'.clients[j]);
    RepliesStayOk(s, s');
    SettledOk(u, s, s.replica, {});
    assert Network(s) + {} == Network(s);
  }

  lemma AdvancedOk(plan: L.Plan, i: nat, n: Node, messages: set<MessageEvent>, network: set<MessageEvent>, result: Payload)
    requires NodeOk(plan, i, n, messages) && n.client.invoke.Some?
    requires forall r: Request ::
      MessageEvent(ReplicaAddr, RequestMsg(r)) in network && r.clientId == i + 1000 ==> r.seqNum <= n.client.seqNum
    ensures
      var n' := Rehydrated(plan, Advanced(plan, DryOf(n), result), {});
      NodeOk(plan, i, n', network) && Grows(n, n')
  {
  }

  lemma AcceptedKeepsOk(u: Setup, s: State, i: nat, result: Payload)
    requires StateOk(u, s) && i < |s.clients| && s.clients[i].client.invoke.Some?
    ensures
      var n := Rehydrated(u.plans[i], Advanced(u.plans[i], DryOf(s.clients[i]), result), {});
      StateOk(u, State(Settled(s.clients)[i := n], s.replica, Network(s)))
  {
    hide NodeOk, MessageOk, RepliesOk, Pending, Rehydrated, RequestKnown, Advanced;
    var n := Rehydrated(u.plans[i], Advanced(u.plans[i], DryOf(s.clients[i]), result), {});
    var s' := State(Settled(s.clients)[i := n], s.replica, Network(s));
    assert NodeOk(u.plans[i], i, s.clients[i], s.messages);
    forall r: Request | MessageEvent(ReplicaAddr, RequestMsg(r)) in Network(s) && r.clientId == i + 1000
      ensures r.seqNum <= s.clients[i].client.seqNum
    {
      NetworkRequest(u, s, r, i);
    }
    AdvancedOk(u.plans[i], i, s.clients[i], s.messages, Network(s), result);
    forall j: nat | j < |s.clients|
      ensures NodeOk(u.plans[j], j, s'.clients[j], s'.messages) && Grows(s.clients[j], s'.clients[j])
    {
      if j != i {
        PendingIn(s, j);
        NodeSettles(u.plans[j], j, s.clients[j], s.messages, s'.messages);
      }
    }
    forall m <- s'.messages - s.messages ensures MessageOk(u, s'.clients, s'.messages, m) {
      PendingOk(u, s, m);
      RequestOk(u, s, s', m);
    }
    RepliesStayOk(s, s');
    StateGrows(u, s, s');
  }

  lemma NetworkRequest(u: Setup, s: State, r: Request, i: nat)
    requires StateOk(u, s) && MessageEvent(ReplicaAddr, RequestMsg(r)) in Network(s) && r.clientId == i + 1000
    ensures i < |s.clients| && r.seqNum <= s.clients[i].client.seqNum
  {
    hide Pending, RepliesOk, NodeOk;
    var m := MessageEvent(ReplicaAddr, RequestMsg(r));
    if m in s.messages {
      assert MessageOk(u, s.clients, s.messages, m);
    } else {
      PendingOk(u, s, m);
    }
  }

  /** A step on an offered event keeps the invariant.  It fails exactly when it delivers
      the reply an open invocation waits for and a checking workload expects another result. */
  lemma StepKeepsOk(u: Setup, s: State, e: Event)
    requires StateOk(u, s) && Offers(s, e)
    ensures Step(u, s, e).Success? ==> StateOk(u, Step(u, s, e).value)
    ensures
      Step(u, s, e).Failure? <==>
        && e.Delivery? && e.message.dest.ClientAddr? && e.message.message.ReplyMsg?
        && e.message.dest.index < |s.clients|
        && var n, r := s.clients[e.message.dest.index], e.message.message.reply;
        && Accepts(n, r) && n.client.seqNum >= 1
        && !Expected(u.plans[e.message.dest.index], n.client.seqNum, r.result)
    ensures Step(u, s, e).Failure? ==> Step(u, s, e).error.UnexpectedResult?
  {
    hide NodeOk, RepliesOk, Pending, Step, Rehydrated, Advanced, ReplyKnown, RequestKnown;
    match e
    case Delivery(m) =>
      assert MessageOk(u, s.clients, s.messages, m);
      match m {
        case MessageEvent(ReplicaAddr, RequestMsg(r)) =>
          RequestStep(u, s, r);
          RequestKeepsOk(u, s, r);
        case MessageEvent(ClientAddr(i), ReplyMsg(r)) =>
          if Accepts(s.clients[i], r) {
            AcceptedReplyStep(u, s, i, r);
            AcceptedKeepsOk(u, s, i, r.result);
          } else {
            IgnoredReplyStep(u, s, i, r);
            IgnoredKeepsOk(u, s);
          }
      }
    case Alarm(i, id) =>
      AlarmStep(u, s, i, id);
      AlarmKeepsOk(u, s, i);
  }

  // The launch

  function First(plan: L.Plan, i: nat): Node
    requires plan.op(0).Some?
  {
    Rehydrated(plan, DryNode(i + 1000, ClientAddr(i), 1, Some(Invocation(plan.op(0).value, 1)), []), {})
  }

  predicate Ready(u: Setup) {
    forall i: nat | i < |u.plans| :: u.plans[i].op(0).Some?
  }

  function FirstNodes(u: Setup): seq<Node>
    requires Ready(u)
  {
    seq(|u.plans|, i requires 0 <= i < |u.plans| => First(u.plans[i], i))
  }

  function Loaded(plan: L.Plan, i: nat): Node
    requires plan.op(0).Some?
  {
    var awaited := if plan.checked then Some(plan.want(0)) else None;
    NewNode(i).(loop := L.Loop(L.Workload(1, awaited, []), plan.op(0), [plan.op(0).value], false))
  }

  lemma LoadedByInit(plan: L.Plan, i: nat)
    ensures
      var l := L.Init(plan, NewNode(i).loop);
      if plan.op(0).Some? then l == Success(Loaded(plan, i).loop) else l == Failure(NotEnoughOps)
  {
    if plan.op(0).Some? {
      var sender: seq<Payload> := [];
      assert sender + [plan.op(0).value] == [plan.op(0).value];
    }
  }

  lemma {:induction false} InitResult(u: Setup, s: State, i: nat)
    requires i <= |s.clients| == |u.plans|
    requires forall j: nat | i <= j < |s.clients| :: s.clients[j] == NewNode(j)
    requires forall j: nat | j < i :: u.plans[j].op(0).Some? && s.clients[j] == Loaded(u.plans[j], j)
    ensures InitFrom(u, s, i).Success? <==> Ready(u)
    ensures Ready(u) ==>
              InitFrom(u, s, i).value == s.(clients := seq(|u.plans|, j requires 0 <= j < |u.plans| => Loaded(u.plans[j], j)))
    decreases |s.clients| - i
  {
    hide Loaded, L.Init;
    if i == |s.clients| {
      assert s.clients == seq(|u.plans|, j requires 0 <= j < |u.plans| => Loaded(u.plans[j], j));
    } else {
      LoadedByInit(u.plans[i], i);
      if u.plans[i].op(0).Some? {
        var n := s.clients[i].(loop := Loaded(u.plans[i], i).loop);
        assert n == Loaded(u.plans[i], i) by { LoadedIsNew(u.plans[i], i); }
        InitResult(u, s.(clients := s.clients[i := n]), i + 1);
      }
    }
  }

  lemma LoadedIsNew(plan: L.Plan, i: nat)
    requires plan.op(0).Some?
    ensures Loaded(plan, i) == NewNode(i).(loop := Loaded(plan, i).loop)
  {
  }

  lemma FirstFlush(plan: L.Plan, i: nat)
    requires plan.op(0).Some?
    ensures FlushNode(plan, Loaded(plan, i)) == Success(First(plan, i))
  {
    var b := Loaded(plan, i);
    var op := plan.op(0).value;
    assert [op][1..] == [];
    var c := b.(loop := b.loop.(sender := []));
    var d := OnInvoke(c, op).value;
    assert b.(client := b.client.(net := [])) == b;
    assert InvokeAll(c, [op]) == Success(d);
    assert d.client.upcall == [] && d.(client := d.client.(upcall := [])) == d;
    assert ReturnAll(plan, d, []) == Success(d);
    assert Rerun(plan, b) == Rerun(plan, d) == Success(d);
    assert d.client.net == First(plan, i).client.net && d.timer.events == First(plan, i).timer.events;
  }

  /** The launch succeeds exactly when every workload has an op to start with, and then
      every client's first request waits in its buffer. */
  lemma LaunchShape(u: Setup)
    ensures Launch(u).Success? <==> Ready(u)
    ensures Ready(u) ==> Launch(u).value == State(FirstNodes(u), Replica(map[], u.app, []), {})
  {
    hide Loaded, First, FlushNode;
    InitResult(u, New(u), 0);
    if Ready(u) {
      var s := InitFrom(u, New(u), 0).value;
      forall j: nat | j < |s.clients|
        ensures FlushNode(u.plans[j], s.clients[j]) == Success(FirstNodes(u)[j]) && s.clients[j].client.net == []
      {
        FirstFlush(u.plans[j], j);
        LoadedIsNew(u.plans[j], j);
      }
      FlushResult(u, s.(replica := s.replica.(net := []), messages := s.messages + Elements(s.replica.net)), 0, FirstNodes(u));
      assert Pending(s.clients, 0) == {};
      assert s.messages + Elements([]) + Pending(s.clients, 0) == {};
    }
  }

  lemma LaunchOk(u: Setup)
    requires Ready(u)
    ensures Launch(u).Success? && StateOk(u, Launch(u).value)
  {
    LaunchShape(u);
  }

  lemma {:induction false} RunOk(u: Setup, events: seq<Event>)
    requires After(u, events).Some?
    ensures StateOk(u, After(u, events).value)
  {
    hide Step, Offers;
    if events == [] {
      LaunchShape(u);
      LaunchOk(u);
    } else {
      RunOk(u, events[..|events| - 1]);
      StepKeepsOk(u, After(u, events[..|events| - 1]).value, events[|events| - 1]);
    }
  }

  // The dry state

  /** The part of a reachable state that its dry state drops can be computed back from it. */
  lemma DryDeterminesState(u: Setup, events: seq<Event>)
    requires After(u, events).Some?
    ensures var s := After(u, events).value; Rehydrate(u, Dry(s)) == s
  {
    hide Rehydrated;
    RunOk(u, events);
    var s := After(u, events).value;
    forall i: nat | i < |s.clients| ensures Rehydrated(u.plans[i], DryOf(s.clients[i]), s.messages) == s.clients[i] {
      assert NodeOk(u.plans[i], i, s.clients[i], s.messages);
    }
    assert Rehydrate(u, Dry(s)).clients == s.clients;
  }

  /** Two reachable states with the same dry state offer the same events and lead to the
      same results of every event: deduplicating on dry states loses nothing. */
  lemma EqualDryEqualFuture(u: Setup, events: seq<Event>, others: seq<Event>, e: Event)
    requires After(u, events).Some? && After(u, others).Some?
    requires Dry(After(u, events).value) == Dry(After(u, others).value)
    ensures
      var s, t := After(u, events).value, After(u, others).value;
      && s.clients == t.clients
      && (Offers(s, e) <==> Offers(t, e))
      && Step(u, s, e) == Step(u, t, e)
  {
    hide Rehydrate, Dry, Step, Offers;
    DryDeterminesState(u, events);
    DryDeterminesState(u, others);
  }

  /** A client has one live timer while an invocation is open and none otherwise; the id
      of that timer is the sequence number; its request is either in the network or once
      in the client's buffer. */
  lemma TimerAndRequest(u: Setup, events: seq<Event>, i: nat)
    requires After(u, events).Some? && i < |u.plans|
    ensures
      var s := After(u, events).value;
      var n := s.clients[i];
      && T.Offered(n.timer) == (if n.client.invoke.Some? then [n.client.seqNum] else [])
      && (n.client.invoke.Some? ==>
            && n.client.invoke.value.resendTimer == n.client.seqNum
            && n.client.net == if CurrentRequest(n.client) in s.messages then [] else [CurrentRequest(n.client)])
      && (n.client.invoke.None? ==> n.client.net == [])
  {
    RunOk(u, events);
    var s := After(u, events).value;
    assert NodeOk(u.plans[i], i, s.clients[i], s.messages);
    if s.clients[i].client.invoke.Some? {
      T.LoneTimer(s.clients[i].timer, T.Alarm(s.clients[i].client.seqNum, RESEND_PERIOD));
    }
  }
}
