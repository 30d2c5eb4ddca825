/** Histories of runs: when an operation is invoked, executed and returned.  However the
    network repeats and reorders, the executions are a sequential history in which each
    client's operations appear once and in order, between their invoke and their return. */
module UnreplicatedHistory {
  import opened Wrappers
  import opened UnreplicatedTypes
  import opened UnreplicatedSpec
  import opened UnreplicatedState
  import opened UnreplicatedRuns
  import L = CloseLoop

  datatype Moment =
    | Invoked(client: nat, seqNum: nat, op: Payload)
    | Executed(client: nat, seqNum: nat, op: Payload, result: Payload)
    | Returned(client: nat, seqNum: nat, result: Payload)

  /** What can be seen of one client in a step that hands it a result: its open invocation
      returned, the next one began. */
  function Seen(i: nat, d: DryNode, d': DryNode, result: Payload): seq<Moment> {
    var invoked := d'.seqNum > d.seqNum && d'.invoke.Some?;
    var returned := d.invoke.Some? && (d'.invoke.None? || invoked);
    (if returned then [Returned(i, d.seqNum, result)] else [])
      + if invoked then [Invoked(i, d'.seqNum, d'.invoke.value.op)] else []
  }

  function Observed(s: State, e: Event, s': State): seq<Moment> {
    match e
    case Delivery(MessageEvent(ReplicaAddr, RequestMsg(r))) =>
      if r.clientAddr.ClientAddr? && Fresh(s.replica, r) && r.clientId in s'.replica.replies then
        [Executed(r.clientAddr.index, r.seqNum, r.op, s'.replica.replies[r.clientId].result)]
      else []
    case Delivery(MessageEvent(ClientAddr(i), ReplyMsg(r))) =>
      if i < |s.clients| && i < |s'.clients| then Seen(i, DryOf(s.clients[i]), DryOf(s'.clients[i]), r.result) else []
    case _ => []
  }

  function FirstInvocations(u: Setup): seq<Moment>
    requires Ready(u)
  {
    seq(|u.plans|, i requires 0 <= i < |u.plans| => Invoked(i, 1, u.plans[i].op(0).value))
  }

  function History(u: Setup, events: seq<Event>): seq<Moment> {
    if After(u, events).None? then []
    else if events == [] then
      if Ready(u) then FirstInvocations(u) else []
    else
      var before := events[..|events| - 1];
      if After(u, before).None? then []
      else History(u, before) + Observed(After(u, before).value, events[|events| - 1], After(u, events).value)
  }

  // What histories should look like

  function Project(h: seq<Moment>, i: nat): seq<Moment> {
    if h == [] then []
    else
      var last := h[|h| - 1];
      Project(h[..|h| - 1], i) + if last.client == i then [last] else []
  }

  /** The application after the executions of a history. */
  function AppAfter(u: Setup, h: seq<Moment>): AppState {
    if h == [] then u.app
    else
      var last, app := h[|h| - 1], AppAfter(u, h[..|h| - 1]);
      if last.Executed? then u.execute(app, last.op).0 else app
  }

  /** Every execution gives the result of executing its op after all earlier ones. */
  ghost predicate Legal(u: Setup, h: seq<Moment>) {
    forall p: nat | p < |h| && h[p].Executed? :: h[p].result == u.execute(AppAfter(u, h[..p]), h[p].op).1
  }

  predicate InTurn(plan: L.Plan, i: nat, t: seq<Moment>, p: nat)
    requires p < |t|
  {
    var k := p / 3;
    if p % 3 == 0 then
      plan.op(k).Some? && t[p] == Invoked(i, k + 1, plan.op(k).value)
    else if p % 3 == 1 then
      plan.op(k).Some? && t[p].Executed? && t[p] == Executed(i, k + 1, plan.op(k).value, t[p].result)
    else
      t[p - 1].Executed? && t[p] == Returned(i, k + 1, t[p - 1].result)
  }

  /** One client's moments: invoke 1, execute 1, return 1, invoke 2, ... with the ops of its
      workload, each result returned being the one executed. */
  predicate Alternates(plan: L.Plan, i: nat, t: seq<Moment>) {
    forall p: nat | p < |t| :: InTurn(plan, i, t, p)
  }

  // The invariant of histories

  /** How far a client's moments go, by its state and the replica's cache. */
  predicate TraceOk(plan: L.Plan, i: nat, d: DryNode, replies: map<nat, Reply>, t: seq<Moment>) {
    var executed := (|t| + 1) / 3;
    && Alternates(plan, i, t)
    && (if d.invoke.Some? then 3 * d.seqNum - 2 <= |t| <= 3 * d.seqNum - 1 else |t| == 3 * d.seqNum)
    && (i + 1000 in replies <==> executed > 0)
    && (executed > 0 ==> replies[i + 1000].seqNum == executed)
    && |d.invocations| == (if plan.recorded then |t| / 3 else 0)
    && (forall j: nat | j < |d.invocations| ::
          t[3 * j + 1].Executed? && d.invocations[j] == (t[3 * j + 1].op, t[3 * j + 1].result))
  }

  predicate Recorded(t: seq<Moment>, r: Reply) {
    && r.seqNum >= 1
    && var p := 3 * r.seqNum - 2;
    && p < |t| && t[p].Executed? && t[p].result == r.result
  }

  ghost predicate RepliesRecorded(s: State, h: seq<Moment>) {
    && (forall i: nat, r :: MessageEvent(ClientAddr(i), ReplyMsg(r)) in s.messages ==> Recorded(Project(h, i), r))
    && (forall i: nat :: i + 1000 in s.replica.replies ==> Recorded(Project(h, i), s.replica.replies[i + 1000]))
  }

  ghost predicate TracesOk(u: Setup, s: State, h: seq<Moment>)
    requires |s.clients| == |u.plans|
  {
    forall i: nat | i < |u.plans| :: TraceOk(u.plans[i], i, DryOf(s.clients[i]), s.replica.replies, Project(h, i))
  }

  ghost predicate HistoryOk(u: Setup, s: State, h: seq<Moment>) {
    && |s.clients| == |u.plans|
    && Legal(u, h) && AppAfter(u, h) == s.replica.app
    && TracesOk(u, s, h) && RepliesRecorded(s, h)
    && (forall m <- h :: m.client < |u.plans|)
  }

  // Extending a history

  lemma Extend(u: Setup, h: seq<Moment>, m: Moment)
    ensures forall i: nat :: Project(h + [m], i) == Project(h, i) + if m.client == i then [m] else []
    ensures AppAfter(u, h + [m]) == if m.Executed? then u.execute(AppAfter(u, h), m.op).0 else AppAfter(u, h)
    ensures Legal(u, h) && (m.Executed? ==> m.result == u.execute(AppAfter(u, h), m.op).1) ==> Legal(u, h + [m])
  {
    assert (h + [m])[..|h|] == h;
    if Legal(u, h) && (m.Executed? ==> m.result == u.execute(AppAfter(u, h), m.op).1) {
      forall p: nat | p < |h + [m]| && (h + [m])[p].Executed?
        ensures (h + [m])[p].result == u.execute(AppAfter(u, (h + [m])[..p]), (h + [m])[p].op).1
      {
        if p < |h| {
          assert (h + [m])[..p] == h[..p];
        }
      }
    }
  }

  lemma AlternatesMore(plan: L.Plan, i: nat, t: seq<Moment>, m: Moment)
    requires Alternates(plan, i, t) && InTurn(plan, i, t + [m], |t|)
    ensures Alternates(plan, i, t + [m])
  {
    forall p: nat | p < |t + [m]| ensures InTurn(plan, i, t + [m], p) {
      if p < |t| {
        assert InTurn(plan, i, t, p);
      }
    }
  }

  /** A step in which nothing is executed and no client moves on. */
  lemma HistoryStays(u: Setup, s: State, s': State, h: seq<Moment>)
    requires HistoryOk(u, s, h) && s'.replica.replies == s.replica.replies && s'.replica.app == s.replica.app
    requires |s'.clients| == |s.clients| && forall i: nat | i < |s.clients| :: DryOf(s'.clients[i]) == DryOf(s.clients[i])
    requires forall i: nat, r :: MessageEvent(ClientAddr(i), ReplyMsg(r)) in s'.messages - s.messages ==>
               i + 1000 in s.replica.replies && r == s.replica.replies[i + 1000]
    ensures HistoryOk(u, s', h)
  {
    hide TraceOk, Recorded, Project, AppAfter, Legal;
    forall i: nat, r | MessageEvent(ClientAddr(i), ReplyMsg(r)) in s'.messages ensures Recorded(Project(h, i), r) {
      if MessageEvent(ClientAddr(i), ReplyMsg(r)) !in s.messages {
        assert MessageEvent(ClientAddr(i), ReplyMsg(r)) in s'.messages - s.messages;
      }
    }
  }

  // The steps

  lemma ExecutionTrace(plan: L.Plan, i: nat, d: DryNode, replies: map<nat, Reply>, t: seq<Moment>, r: Request, result: Payload)
    requires TraceOk(plan, i, d, replies, t) && 1 <= r.seqNum <= d.seqNum && plan.op(r.seqNum - 1) == Some(r.op)
    requires i + 1000 in replies ==> replies[i + 1000].seqNum < r.seqNum
    ensures
      var t' := t + [Executed(i, r.seqNum, r.op, result)];
      && TraceOk(plan, i, d, replies[i + 1000 := Reply(r.seqNum, result)], t')
      && Recorded(t', Reply(r.seqNum, result))
  {
    assert d.invoke.Some? && |t| == 3 * d.seqNum - 2 && r.seqNum == d.seqNum;
    AlternatesMore(plan, i, t, Executed(i, r.seqNum, r.op, result));
  }

  /** The moment a fresh request makes, and the state after its step. */
  function Execution(u: Setup, s: State, r: Request): Moment
    requires r.clientAddr.ClientAddr?
  {
    Executed(r.clientAddr.index, r.seqNum, r.op, u.execute(s.replica.app, r.op).1)
  }

  function Served(u: Setup, s: State, r: Request): State {
    var replica := OnRequest(u, s.replica, r);
    State(Settled(s.clients), replica.(net := []), Network(s) + Elements(replica.net))
  }

  lemma ExecuteTraces(u: Setup, s: State, r: Request, h: seq<Moment>)
    requires |s.clients| == |u.plans| && TracesOk(u, s, h) && RequestKnown(u, s.clients, r) && Fresh(s.replica, r)
    ensures TracesOk(u, Served(u, s, r), h + [Execution(u, s, r)])
    ensures Recorded(Project(h + [Execution(u, s, r)], r.clientAddr.index), Served(u, s, r).replica.replies[r.clientId])
  {
    hide TraceOk, Recorded, Project, Network, Legal, AppAfter, Elements;
    var i, m, s' := r.clientAddr.index, Execution(u, s, r), Served(u, s, r);
    Extend(u, h, m);
    assert s'.replica.replies == s.replica.replies[i + 1000 := Reply(r.seqNum, m.result)];
    ExecutionTrace(u.plans[i], i, DryOf(s.clients[i]), s.replica.replies, Project(h, i), r, m.result);
    forall j: nat | j < |u.plans|
      ensures TraceOk(u.plans[j], j, DryOf(s'.clients[j]), s'.replica.replies, Project(h + [m], j))
    {
      assert DryOf(s'.clients[j]) == DryOf(s.clients[j]);
      if j != i {
        assert Project(h + [m], j) == Project(h, j);
        OtherTrace(u.plans[j], j, DryOf(s.clients[j]), s.replica.replies, Project(h, j), i + 1000, Reply(r.seqNum, m.result));
      }
    }
  }

  lemma ExecuteReplies(u: Setup, s: State, r: Request, h: seq<Moment>)
    requires StateOk(u, s) && RepliesRecorded(s, h)
    requires MessageEvent(ReplicaAddr, RequestMsg(r)) in s.messages && Fresh(s.replica, r) && RequestKnown(u, s.clients, r)
    requires Recorded(Project(h + [Execution(u, s, r)], r.clientAddr.index), Served(u, s, r).replica.replies[r.clientId])
    ensures RepliesRecorded(Served(u, s, r), h + [Execution(u, s, r)])
  {
    hide StateOk, Recorded, Project, Pending, Network, Legal, AppAfter;
    var i, m, s' := r.clientAddr.index, Execution(u, s, r), Served(u, s, r);
    var h' := h + [m];
    Extend(u, h, m);
    forall j: nat, q | MessageEvent(ClientAddr(j), ReplyMsg(q)) in s'.messages ensures Recorded(Project(h', j), q) {
      NewReplies(u, s, r, j, q);
      if MessageEvent(ClientAddr(j), ReplyMsg(q)) in s.messages {
        RecordedLonger(Project(h, j), Project(h', j), q);
      }
    }
    forall j: nat | j + 1000 in s'.replica.replies ensures Recorded(Project(h', j), s'.replica.replies[j + 1000]) {
      if j != i {
        RecordedLonger(Project(h, j), Project(h', j), s.replica.replies[j + 1000]);
      }
    }
  }

  lemma ExecuteStep(u: Setup, s: State, r: Request, h: seq<Moment>)
    requires StateOk(u, s) && HistoryOk(u, s, h)
    requires MessageEvent(ReplicaAddr, RequestMsg(r)) in s.messages && Fresh(s.replica, r)
    ensures
      var e := Delivery(MessageEvent(ReplicaAddr, RequestMsg(r)));
      && Step(u, s, e).Success?
      && HistoryOk(u, Step(u, s, e).value, h + Observed(s, e, Step(u, s, e).value))
  {
    hide StateOk, Step, Network, TraceOk, RepliesRecorded, TracesOk, Recorded, Legal, AppAfter, Project;
    var e := Delivery(MessageEvent(ReplicaAddr, RequestMsg(r)));
    RequestStep(u, s, r);
    RequestFacts(u, s, r);
    var m := Execution(u, s, r);
    assert Observed(s, e, Served(u, s, r)) == [m];
    Extend(u, h, m);
    ExecuteTraces(u, s, r, h);
    ExecuteReplies(u, s, r, h);
  }

  lemma OtherTrace(plan: L.Plan, j: nat, d: DryNode, replies: map<nat, Reply>, t: seq<Moment>, id: nat, r: Reply)
    requires TraceOk(plan, j, d, replies, t) && id != j + 1000
    ensures TraceOk(plan, j, d, replies[id := r], t)
  {
  }

  lemma RecordedLonger(t: seq<Moment>, t': seq<Moment>, r: Reply)
    requires Recorded(t, r) && t <= t'
    ensures Recorded(t', r)
  {
  }

  lemma RequestFacts(u: Setup, s: State, r: Request)
    requires StateOk(u, s) && MessageEvent(ReplicaAddr, RequestMsg(r)) in s.messages
    ensures RequestKnown(u, s.clients, r)
  {
    assert MessageOk(u, s.clients, s.messages, MessageEvent(ReplicaAddr, RequestMsg(r)));
  }

  /** The replies a request adds to the network: none but the replica's own answer. */
  lemma NewReplies(u: Setup, s: State, r: Request, j: nat, q: Reply)
    requires StateOk(u, s) && MessageEvent(ReplicaAddr, RequestMsg(r)) in s.messages
    requires MessageEvent(ClientAddr(j), ReplyMsg(q)) in Network(s) + Elements(OnRequest(u, s.replica, r).net)
    ensures
      || MessageEvent(ClientAddr(j), ReplyMsg(q)) in s.messages
      || (r.clientAddr == ClientAddr(j) && r.clientId == j + 1000 && q == OnRequest(u, s.replica, r).replies[r.clientId])
  {
    hide Pending;
    RequestFacts(u, s, r);
    var m := MessageEvent(ClientAddr(j), ReplyMsg(q));
    if m in Pending(s.clients, 0) {
      PendingOk(u, s, m);
    }
  }

  lemma IgnoreStep(u: Setup, s: State, r: Request, h: seq<Moment>)
    requires |s.clients| == |u.plans| && StateOk(u, s) && HistoryOk(u, s, h)
    requires MessageEvent(ReplicaAddr, RequestMsg(r)) in s.messages && !Fresh(s.replica, r)
    ensures
      var e := Delivery(MessageEvent(ReplicaAddr, RequestMsg(r)));
      && Step(u, s, e).Success?
      && HistoryOk(u, Step(u, s, e).value, h + Observed(s, e, Step(u, s, e).value))
  {
    hide StateOk, Step, Pending, HistoryOk;
    var e := Delivery(MessageEvent(ReplicaAddr, RequestMsg(r)));
    RequestStep(u, s, r);
    var s' := Step(u, s, e).value;
    forall i: nat, q | MessageEvent(ClientAddr(i), ReplyMsg(q)) in s'.messages - s.messages
      ensures i + 1000 in s.replica.replies && q == s.replica.replies[i + 1000]
    {
      NewReplies(u, s, r, i, q);
    }
    HistoryStays(u, s, s', h);
    assert h + [] == h;
  }

  lemma AlarmHistory(u: Setup, s: State, i: nat, id: nat, h: seq<Moment>)
    requires |s.clients| == |u.plans| && StateOk(u, s) && HistoryOk(u, s, h) && Offers(s, Alarm(i, id))
    ensures
      var e := Alarm(i, id);
      && Step(u, s, e).Success?
      && HistoryOk(u, Step(u, s, e).value, h + Observed(s, e, Step(u, s, e).value))
  {
    hide StateOk, Step, Pending, HistoryOk;
    AlarmStep(u, s, i, id);
    var s' := Step(u, s, Alarm(i, id)).value;
    forall j: nat, q | MessageEvent(ClientAddr(j), ReplyMsg(q)) in s'.messages - s.messages ensures false {
      PendingOk(u, s, MessageEvent(ClientAddr(j), ReplyMsg(q)));
    }
    HistoryStays(u, s, s', h);
    assert h + [] == h;
  }

  lemma IgnoredReplyHistory(u: Setup, s: State, i: nat, r: Reply, h: seq<Moment>)
    requires |s.clients| == |u.plans| && StateOk(u, s) && HistoryOk(u, s, h) && i < |s.clients| && !Accepts(s.clients[i], r)
    ensures
      var e := Delivery(MessageEvent(ClientAddr(i), ReplyMsg(r)));
      && Step(u, s, e).Success?
      && HistoryOk(u, Step(u, s, e).value, h + Observed(s, e, Step(u, s, e).value))
  {
    hide StateOk, Step, Pending, HistoryOk;
    IgnoredReplyStep(u, s, i, r);
    var s' := Step(u, s, Delivery(MessageEvent(ClientAddr(i), ReplyMsg(r)))).value;
    forall j: nat, q | MessageEvent(ClientAddr(j), ReplyMsg(q)) in s'.messages - s.messages ensures false {
      PendingOk(u, s, MessageEvent(ClientAddr(j), ReplyMsg(q)));
    }
    HistoryStays(u, s, s', h);
    assert Seen(i, DryOf(s.clients[i]), DryOf(s'.clients[i]), r.result) == [];
    assert h + [] == h;
  }

  /** The return completes the open operation; the next one, if any, is invoked at once. */
  lemma ReturnTrace(plan: L.Plan, i: nat, d: DryNode, replies: map<nat, Reply>, t: seq<Moment>, r: Reply)
    requires TraceOk(plan, i, d, replies, t) && d.invoke.Some? && d.seqNum >= 1 && r.seqNum == d.seqNum && Recorded(t, r)
    requires plan.op(d.seqNum - 1) == Some(d.invoke.value.op)
    ensures
      var d' := Advanced(plan, d, r.result);
      TraceOk(plan, i, d', replies, t + Seen(i, d, d', r.result))
  {
    var d' := Advanced(plan, d, r.result);
    var m := Returned(i, d.seqNum, r.result);
    assert |t| == 3 * d.seqNum - 1;
    assert InTurn(plan, i, t, |t| - 1);
    AlternatesMore(plan, i, t, m);
    var t1 := t + [m];
    if plan.op(d.seqNum).Some? {
      var m' := Invoked(i, d.seqNum + 1, plan.op(d.seqNum).value);
      AlternatesMore(plan, i, t1, m');
      assert t + Seen(i, d, d', r.result) == t1 + [m'];
    } else {
      assert t + Seen(i, d, d', r.result) == t1;
    }
  }

  lemma AcceptedReplyHistory(u: Setup, s: State, i: nat, r: Reply, h: seq<Moment>)
    requires StateOk(u, s) && HistoryOk(u, s, h) && i < |s.clients| && Accepts(s.clients[i], r)
    requires MessageEvent(ClientAddr(i), ReplyMsg(r)) in s.messages
    ensures
      var e := Delivery(MessageEvent(ClientAddr(i), ReplyMsg(r)));
      Step(u, s, e).Success? ==> HistoryOk(u, Step(u, s, e).value, h + Observed(s, e, Step(u, s, e).value))
  {
    hide StateOk, Step, Pending, TraceOk, Recorded, Legal, AppAfter, Project, Advanced;
    var e := Delivery(MessageEvent(ClientAddr(i), ReplyMsg(r)));
    AcceptedReplyStep(u, s, i, r);
    if Step(u, s, e).Success? {
      var s' := Step(u, s, e).value;
      var d := DryOf(s.clients[i]);
      var d' := Advanced(u.plans[i], d, r.result);
      OpenOp(u, s, i);
      ReturnTrace(u.plans[i], i, d, s.replica.replies, Project(h, i), r);
      assert DryOf(s'.clients[i]) == d';
      var seen := Seen(i, d, d', r.result);
      ExtendAll(u, h, seen, i);
      var h' := h + seen;
      forall j: nat | j < |u.plans|
        ensures TraceOk(u.plans[j], j, DryOf(s'.clients[j]), s'.replica.replies, Project(h', j))
      {
        if j != i {
          assert DryOf(s'.clients[j]) == DryOf(s.clients[j]);
          assert Project(h', j) == Project(h, j);
        }
      }
      forall j: nat, q | MessageEvent(ClientAddr(j), ReplyMsg(q)) in s'.messages ensures Recorded(Project(h', j), q) {
        if MessageEvent(ClientAddr(j), ReplyMsg(q)) !in s.messages {
          PendingOk(u, s, MessageEvent(ClientAddr(j), ReplyMsg(q)));
        }
        RecordedLonger(Project(h, j), Project(h', j), q);
      }
      forall j: nat | j + 1000 in s'.replica.replies ensures Recorded(Project(h', j), s'.replica.replies[j + 1000]) {
        RecordedLonger(Project(h, j), Project(h', j), s.replica.replies[j + 1000]);
      }
    }
  }

  lemma OpenOp(u: Setup, s: State, i: nat)
    requires StateOk(u, s) && i < |s.clients| && s.clients[i].client.invoke.Some?
    ensures
      var d := DryOf(s.clients[i]);
      d.seqNum >= 1 && u.plans[i].op(d.seqNum - 1) == Some(d.invoke.value.op)
  {
    assert NodeOk(u.plans[i], i, s.clients[i], s.messages);
  }

  /** Returns and invocations of one client change neither the application nor other clients. */
  lemma {:induction false} ExtendAll(u: Setup, h: seq<Moment>, more: seq<Moment>, i: nat)
    requires forall m <- more :: m.client == i && !m.Executed?
    ensures forall j: nat :: Project(h + more, j) == Project(h, j) + if j == i then more else []
    ensures AppAfter(u, h + more) == AppAfter(u, h)
    ensures Legal(u, h) ==> Legal(u, h + more)
  {
    hide Legal, Project, AppAfter;
    if more == [] {
      assert h + more == h;
    } else {
      var first, last := more[..|more| - 1], more[|more| - 1];
      ExtendAll(u, h, first, i);
      Extend(u, h + first, last);
      assert h + more == h + first + [last];
      forall j: nat ensures Project(h + more, j) == Project(h, j) + if j == i then more else [] {
        assert first + [last] == more;
        assert Project(h, j) + first + [last] == Project(h, j) + (first + [last]);
      }
    }
  }

  lemma HistoryStep(u: Setup, s: State, e: Event, h: seq<Moment>)
    requires |s.clients| == |u.plans| && StateOk(u, s) && HistoryOk(u, s, h) && Offers(s, e) && Step(u, s, e).Success?
    ensures HistoryOk(u, Step(u, s, e).value, h + Observed(s, e, Step(u, s, e).value))
  {
    hide StateOk, Step, HistoryOk;
    match e
    case Delivery(m) =>
      KnownShape(u, s, m);
      match m {
        case MessageEvent(ReplicaAddr, RequestMsg(r)) =>
          if Fresh(s.replica, r) { ExecuteStep(u, s, r, h); } else { IgnoreStep(u, s, r, h); }
        case MessageEvent(ClientAddr(i), ReplyMsg(r)) =>
          if Accepts(s.clients[i], r) { AcceptedReplyHistory(u, s, i, r, h); } else { IgnoredReplyHistory(u, s, i, r, h); }
      }
    case Alarm(i, id) => AlarmHistory(u, s, i, id, h);
  }

  lemma KnownShape(u: Setup, s: State, m: MessageEvent)
    requires StateOk(u, s) && m in s.messages
    ensures m.dest.ReplicaAddr? <==> m.message.RequestMsg?
    ensures m.dest.ClientAddr? ==> m.dest.index < |s.clients|
  {
    assert MessageOk(u, s.clients, s.messages, m);
  }

  lemma {:induction false} FirstProject(u: Setup, n: nat, i: nat)
    requires Ready(u) && n <= |u.plans|
    ensures
      Project(FirstInvocations(u)[..n], i) == if i < n then [Invoked(i, 1, u.plans[i].op(0).value)] else []
    ensures AppAfter(u, FirstInvocations(u)[..n]) == u.app
  {
    if n > 0 {
      FirstProject(u, n - 1, i);
      assert FirstInvocations(u)[..n][..n - 1] == FirstInvocations(u)[..n - 1];
    }
  }

  lemma FirstHistory(u: Setup)
    requires Ready(u)
    ensures Launch(u).Success? && HistoryOk(u, Launch(u).value, FirstInvocations(u))
  {
    hide Project, AppAfter;
    LaunchShape(u);
    var h := FirstInvocations(u);
    assert h[..|u.plans|] == h;
    forall i: nat ensures Project(h, i) == if i < |u.plans| then [Invoked(i, 1, u.plans[i].op(0).value)] else [] {
      FirstProject(u, |u.plans|, i);
    }
    FirstProject(u, |u.plans|, 0);
  }

  lemma {:induction false} RunHistory(u: Setup, events: seq<Event>)
    requires After(u, events).Some?
    ensures HistoryOk(u, After(u, events).value, History(u, events))
  {
    hide Step, Offers, HistoryOk, StateOk;
    if events == [] {
      LaunchShape(u);
      FirstHistory(u);
    } else {
      var before := events[..|events| - 1];
      RunHistory(u, before);
      RunOk(u, before);
      HistoryStep(u, After(u, before).value, events[|events| - 1], History(u, before));
    }
  }
}
