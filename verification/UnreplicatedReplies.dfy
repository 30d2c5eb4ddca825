/** What the nodes of the unreplicated protocol send: the replica answers every request that is
    not outdated, and a client's request goes out again whenever its timer rings. */
module UnreplicatedReplies {
  import opened Wrappers
  import opened UnreplicatedTypes
  import opened UnreplicatedSpec
  import opened UnreplicatedState
  import opened UnreplicatedRuns
  import opened UnreplicatedHistory
  import T = LinearTimer
  import L = CloseLoop

  function ReplyTo(i: nat, reply: Reply): MessageEvent {
    MessageEvent(ClientAddr(i), ReplyMsg(reply))
  }

  // The replica

  /** A request that is not older than the last one of its client is answered by exactly one
      message: it goes to the client, has the request's number, and is what the cache holds
      then.  An older one changes nothing. */
  lemma AnswersOnce(u: Setup, r: Replica, q: Request)
    ensures
      var r' := OnRequest(u, r, q);
      if q.clientId in r.replies && r.replies[q.clientId].seqNum > q.seqNum then
        r' == r
      else
        && |r'.net| == |r.net| + 1 && r'.net[..|r.net|] == r.net
        && r'.net[|r.net|].dest == q.clientAddr && r'.net[|r.net|].message.ReplyMsg?
        && var reply := r'.net[|r.net|].message.reply;
        && reply.seqNum == q.seqNum
        && q.clientId in r'.replies && r'.replies[q.clientId] == reply
        && (forall id | id != q.clientId :: id in r'.replies <==> id in r.replies)
        && (forall id <- r.replies | id != q.clientId :: r'.replies[id] == r.replies[id])
  {
  }

  lemma MessagesStay(u: Setup, s: State, e: Event)
    requires StateOk(u, s) && Offers(s, e) && Step(u, s, e).Success?
    ensures s.messages <= Step(u, s, e).value.messages
  {
    hide StateOk, Step, Pending, OnRequest, Rehydrated, Advanced;
    match e
    case Delivery(m) =>
      KnownShape(u, s, m);
      match m {
        case MessageEvent(ReplicaAddr, RequestMsg(r)) => RequestStep(u, s, r);
        case MessageEvent(ClientAddr(i), ReplyMsg(r)) =>
          if Accepts(s.clients[i], r) { AcceptedReplyStep(u, s, i, r); } else { IgnoredReplyStep(u, s, i, r); }
      }
    case Alarm(i, id) => AlarmStep(u, s, i, id);
  }

  /** The step in which a request is executed puts its reply into the network. */
  lemma ObservedIsAnswered(u: Setup, s: State, e: Event, m: Moment)
    requires StateOk(u, s) && Offers(s, e) && Step(u, s, e).Success?
    requires m in Observed(s, e, Step(u, s, e).value) && m.Executed?
    ensures ReplyTo(m.client, Reply(m.seqNum, m.result)) in Step(u, s, e).value.messages
  {
    hide StateOk, Step, Pending;
    match e
    case Delivery(MessageEvent(ReplicaAddr, RequestMsg(r))) =>
      RequestStep(u, s, r);
      assert ReplyTo(m.client, Reply(m.seqNum, m.result)) in OnRequest(u, s.replica, r).net by { QuietReplica(u, s); }
    case _ =>
  }

  lemma QuietReplica(u: Setup, s: State)
    requires StateOk(u, s)
    ensures s.replica.net == []
  {
  }

  /** In every run, whatever was executed was answered: the reply with its number and result
      is in the network, addressed to its client. */
  lemma {:induction false} ExecutedIsAnswered(u: Setup, events: seq<Event>, m: Moment)
    requires After(u, events).Some? && m in History(u, events) && m.Executed?
    ensures ReplyTo(m.client, Reply(m.seqNum, m.result)) in After(u, events).value.messages
  {
    hide Step, Offers, Observed, StateOk;
    if events == [] {
      FirstAreInvoked(u, m);
    } else {
      var before, e := events[..|events| - 1], events[|events| - 1];
      var s := After(u, before).value;
      RunOk(u, before);
      MessagesStay(u, s, e);
      if m in History(u, before) {
        ExecutedIsAnswered(u, before, m);
      } else {
        ObservedIsAnswered(u, s, e, m);
      }
    }
  }

  lemma FirstAreInvoked(u: Setup, m: Moment)
    requires m in History(u, [])
    ensures m.Invoked?
  {
  }

  /** A client's repeated request gets the result its operation was executed with. */
  lemma RepeatedIsAnswered(u: Setup, events: seq<Event>, q: Request)
    requires After(u, events).Some?
    requires MessageEvent(ReplicaAddr, RequestMsg(q)) in After(u, events).value.messages
    ensures
      var s := After(u, events).value;
      s.replica.net == [] &&
      (q.clientId in s.replica.replies && s.replica.replies[q.clientId].seqNum == q.seqNum ==>
        && q.clientAddr.ClientAddr?
        && exists m <- History(u, events) ::
             && m.Executed? && m.client == q.clientAddr.index && m.seqNum == q.seqNum
             && OnRequest(u, s.replica, q).net == [ReplyTo(m.client, Reply(q.seqNum, m.result))])
  {
    hide History, After, Project, Legal, AppAfter, TracesOk, StateOk;
    RunOk(u, events);
    RunHistory(u, events);
    var s, h := After(u, events).value, History(u, events);
    RequestFacts(u, s, q);
    QuietReplica(u, s);
    var i := q.clientAddr.index;
    if q.clientId in s.replica.replies && s.replica.replies[q.clientId].seqNum == q.seqNum {
      var reply := s.replica.replies[i + 1000];
      assert Recorded(Project(h, i), reply);
      InProject(h, i, 3 * reply.seqNum - 2);
      var m := Project(h, i)[3 * reply.seqNum - 2];
      TurnAt(u, s, h, i, 3 * reply.seqNum - 2);
    }
  }

  lemma TurnAt(u: Setup, s: State, h: seq<Moment>, i: nat, p: nat)
    requires HistoryOk(u, s, h) && i < |u.plans| && p < |Project(h, i)|
    ensures InTurn(u.plans[i], i, Project(h, i), p)
  {
    hide Project, Legal, AppAfter;
    assert TraceOk(u.plans[i], i, DryOf(s.clients[i]), s.replica.replies, Project(h, i));
  }

  lemma {:induction false} InProject(h: seq<Moment>, i: nat, n: nat)
    requires n < |Project(h, i)|
    ensures Project(h, i)[n] in h && Project(h, i)[n].client == i
  {
    var before := h[..|h| - 1];
    if n < |Project(before, i)| {
      InProject(before, i, n);
    }
  }

  // Every operation can return

  lemma AfterNext(u: Setup, events: seq<Event>, e: Event)
    requires After(u, events).Some? && Offers(After(u, events).value, e)
    requires Step(u, After(u, events).value, e).Success?
    ensures After(u, events + [e]) == Some(Step(u, After(u, events).value, e).value)
  {
    hide Step, Offers;
    assert (events + [e])[..|events|] == events;
  }

  /** Ringing the timer of an open invocation puts its request into the network. */
  lemma RingOnce(u: Setup, events: seq<Event>, i: nat)
    requires After(u, events).Some? && i < |u.plans| && After(u, events).value.clients[i].client.invoke.Some?
    ensures
      var s, e := After(u, events).value, Alarm(i, After(u, events).value.clients[i].client.seqNum);
      && After(u, events + [e]).Some?
      && var s' := After(u, events + [e]).value;
      && DryOf(s'.clients[i]) == DryOf(s.clients[i])
      && CurrentRequest(s.clients[i].client) in s'.messages
  {
    hide Step, Pending, StateOk;
    var s := After(u, events).value;
    var e := Alarm(i, s.clients[i].client.seqNum);
    RunOk(u, events);
    TimerAndRequest(u, events, i);
    assert e.timer in T.Offered(s.clients[i].timer);
    AlarmStep(u, s, i, e.timer);
    AfterNext(u, events, e);
  }

  /** In every reachable state, an open operation can return: its timer rings, its request is
      delivered, and then the reply is in the network, which the client accepts unless it
      checks results and expects another one. */
  lemma OperationCanReturn(u: Setup, events: seq<Event>, i: nat) returns (more: seq<Event>, reply: Reply)
    requires After(u, events).Some? && i < |u.plans| && After(u, events).value.clients[i].client.invoke.Some?
    ensures After(u, events + more).Some?
    ensures
      var s, s' := After(u, events).value, After(u, events + more).value;
      var e := Delivery(ReplyTo(i, reply));
      && DryOf(s'.clients[i]) == DryOf(s.clients[i]) && Offers(s', e) && Accepts(s'.clients[i], reply)
      && s.clients[i].client.seqNum >= 1
      && (Expected(u.plans[i], s.clients[i].client.seqNum, reply.result) ==>
            && Step(u, s', e).Success?
            && var n := Step(u, s', e).value.clients[i].client;
            n.invoke.None? || n.seqNum == s.clients[i].client.seqNum + 1)
  {
    hide Step, Pending, StateOk, OnRequest, After;
    var s := After(u, events).value;
    var ring := Alarm(i, s.clients[i].client.seqNum);
    RingOnce(u, events, i);
    var s1 := After(u, events + [ring]).value;
    RunOk(u, events + [ring]);
    var q := CurrentRequest(s.clients[i].client).message.request;
    var deliver := Delivery(MessageEvent(ReplicaAddr, RequestMsg(q)));
    RequestStep(u, s1, q);
    AfterNext(u, events + [ring], deliver);
    more := [ring, deliver];
    assert events + [ring] + [deliver] == events + more;
    var s2 := After(u, events + more).value;
    RunOk(u, events + more);
    RequestFacts(u, s1, q);
    QuietReplica(u, s1);
    RunOk(u, events);
    NodeNamed(u, s, i);
    NotOutdated(u, s1, i, q);
    AnswersOnce(u, s1.replica, q);
    var net := OnRequest(u, s1.replica, q).net;
    reply := net[0].message.reply;
    assert net[0] == ReplyTo(i, reply) && net[0] in Elements(net);
    AcceptedReplyStep(u, s2, i, reply);
    AdvancedMoves(u.plans[i], DryOf(s2.clients[i]), reply.result);
  }

  lemma NodeNamed(u: Setup, s: State, i: nat)
    requires StateOk(u, s) && i < |s.clients|
    ensures s.clients[i].client.id == i + 1000 && s.clients[i].client.addr == ClientAddr(i)
  {
  }

  lemma NotOutdated(u: Setup, s: State, i: nat, q: Request)
    requires StateOk(u, s) && i < |s.clients| && RequestKnown(u, s.clients, q) && q.clientId == i + 1000
    requires q.seqNum == s.clients[i].client.seqNum
    ensures q.clientId in s.replica.replies ==> s.replica.replies[q.clientId].seqNum <= q.seqNum
  {
  }

  lemma AdvancedMoves(plan: L.Plan, d: DryNode, result: Payload)
    requires d.invoke.Some?
    ensures
      var d' := Rehydrated(plan, Advanced(plan, d, result), {});
      d'.client.invoke.None? || d'.client.seqNum == d.seqNum + 1
  {
  }

  // The clients

  /** A timer that rings for the open invocation sends its request once more, and does nothing
      else; any other timer is a failed assertion. */
  lemma RingingSendsAgain(n: Node, id: nat)
    ensures
      if n.client.invoke.Some? && n.client.invoke.value.resendTimer == id then
        && OnTimer(n, id).Success?
        && var n' := OnTimer(n, id).value;
        && |n'.client.net| == |n.client.net| + 1 && n'.client.net[..|n.client.net|] == n.client.net
        && n'.client.net[|n.client.net|].dest == ReplicaAddr
        && n'.client.net[|n.client.net|].message
           == RequestMsg(Request(n.client.id, n.client.addr, n.client.seqNum, n.client.invoke.value.op))
        && n'.(client := n'.client.(net := n.client.net)) == n
      else
        OnTimer(n, id) == Failure(Panicked)
  {
  }

  /** An accepted invocation sends the same request that its timer, set for a second, would
      send again. */
  lemma InvokingSends(n: Node, op: Payload)
    requires OnInvoke(n, op).Success?
    ensures
      var n' := OnInvoke(n, op).value;
      && n'.client.invoke.Some? && n'.client.invoke.value.op == op && n'.client.seqNum == n.client.seqNum + 1
      && n'.timer.events == n.timer.events + [T.Alarm(n'.client.invoke.value.resendTimer, 1000)]
      && |n'.client.net| == |n.client.net| + 1 && n'.client.net[..|n.client.net|] == n.client.net
      && OnTimer(n', n'.client.invoke.value.resendTimer).Success?
      && OnTimer(n', n'.client.invoke.value.resendTimer).value.client.net == n'.client.net + n'.client.net[|n.client.net|..]
  {
  }
}
