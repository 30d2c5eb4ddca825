/** The unreplicated client and replica, the checker's timers and closed loops, and the
    checker's state, as objects updated in place.  Every method is proved to do what the
    specification function of the same step does. */
module UnreplicatedNodes {
  import opened Wrappers
  import opened UnreplicatedTypes
  import Spec = UnreplicatedSpec
  import T = LinearTimer
  import L = CloseLoop

  class Timer {
    var events: seq<T.Alarm>
    var timerId: nat

    function State(): T.Timer
      reads this
    {
      T.Timer(events, timerId)
    }

    constructor ()
      ensures State() == T.NewTimer
    {
      events, timerId := [], 0;
    }

    method Set(period: nat) returns (id: nat)
      modifies this
      ensures State() == T.Set(old(State()), period) && id == timerId
    {
      timerId := timerId + 1;
      id := timerId;
      events := events + [T.Alarm(id, period)];
    }

    /** Take a timer out, and say which one it was. */
    method Remove(id: nat) returns (r: Fallible<T.Alarm>)
      modifies this
      ensures
        var i := T.Position(old(events), id);
        if i == |old(events)| then r == Failure(TimerNotFound) && State() == old(State())
        else r == Success(old(events)[i]) && State() == T.Removed(old(State()), i)
    {
      var i := 0;
      while i < |events| && events[i].id != id
        invariant i <= |events| && i + T.Position(events[i..], id) == T.Position(events, id)
      {
        i := i + 1;
      }
      if i == |events| {
        return Failure(TimerNotFound);
      }
      r := Success(events[i]);
      events := events[..i] + events[i + 1..];
    }

    method Unset(id: nat) returns (r: Fallible<()>)
      modifies this
      ensures
        match T.Unset(old(State()), id)
        case Success(t) => r == Success(()) && State() == t
        case Failure(e) => r == Failure(e) && State() == old(State())
    {
      var removed := Remove(id);
      if removed.Failure? {
        return Failure(removed.error);
      }
      return Success(());
    }

    method StepTimer(id: nat) returns (r: Fallible<()>)
      modifies this
      ensures
        match T.StepTimer(old(State()), id)
        case Success(t) => r == Success(()) && State() == t
        case Failure(e) => r == Failure(e) && State() == old(State())
    {
      var removed := Remove(id);
      if removed.Failure? {
        return Failure(removed.error);
      }
      events := events + [removed.value];
      return Success(());
    }

    /** The ids of the longest run of alarms from the front with decreasing periods. */
    method Events() returns (ids: seq<nat>)
      ensures ids == T.Offered(State())
    {
      hide T.Descent;
      ids := [];
      var previous: Option<nat> := None;
      var n := 0;
      while n < |events|
        invariant T.Descends(events, n) && |ids| == n
        invariant previous == if n == 0 then None else Some(events[n - 1].period)
        invariant forall i | 0 <= i < n :: ids[i] == events[i].id
      {
        var alarm := events[n];
        if previous.Some? && alarm.period >= previous.value {
          break;
        }
        ids := ids + [alarm.id];
        previous := Some(alarm.period);
        n := n + 1;
      }
      T.DescentIsLongest(events, n);
    }
  }

  class Client {
    const id: nat
    const addr: Addr
    var seqNum: nat
    var invoke: Option<Spec.Invocation>
    var net: seq<MessageEvent>
    var upcall: seq<Payload>

    function State(): Spec.Client
      reads this
    {
      Spec.Client(id, addr, seqNum, invoke, net, upcall)
    }

    constructor (id: nat, addr: Addr)
      ensures State() == Spec.Client(id, addr, 0, None, [], [])
    {
      this.id, this.addr := id, addr;
      seqNum, invoke, net, upcall := 0, None, [], [];
    }

    method DoSend()
      requires invoke.Some?
      modifies `net
      ensures State() == Spec.DoSend(old(State()))
    {
      net := net + [MessageEvent(ReplicaAddr, RequestMsg(Request(id, addr, seqNum, invoke.value.op)))];
    }

    method OnInvoke(op: Payload, timer: Timer) returns (r: Fallible<()>)
      modifies this, timer
      ensures forall loop ::
        match Spec.OnInvoke(Spec.Node(old(State()), old(timer.State()), loop), op)
        case Success(n) => r == Success(()) && n == Spec.Node(State(), timer.State(), loop)
        case Failure(e) => r == Failure(e)
    {
      if invoke.Some? {
        return Failure(ConcurrentInvocation);
      }
      seqNum := seqNum + 1;
      var resendTimer := timer.Set(Spec.RESEND_PERIOD);
      invoke := Some(Spec.Invocation(op, resendTimer));
      DoSend();
      return Success(());
    }

    method OnTimer(id: nat, timer: Timer) returns (r: Fallible<()>)
      modifies this
      ensures forall loop ::
        match Spec.OnTimer(Spec.Node(old(State()), timer.State(), loop), id)
        case Success(n) => r == Success(()) && n == Spec.Node(State(), timer.State(), loop)
        case Failure(e) => r == Failure(e)
    {
      if invoke.None? || invoke.value.resendTimer != id {
        return Failure(Panicked);
      }
      DoSend();
      return Success(());
    }

    method OnReply(reply: Reply, timer: Timer) returns (r: Fallible<()>)
      modifies this, timer
      ensures forall loop ::
        match Spec.OnReply(Spec.Node(old(State()), old(timer.State()), loop), reply)
        case Success(n) => r == Success(()) && n == Spec.Node(State(), timer.State(), loop)
        case Failure(e) => r == Failure(e)
    {
      if reply.seqNum != seqNum || invoke.None? {
        return Success(());
      }
      var open := invoke.value;
      invoke := None;
      r := timer.Unset(open.resendTimer);
      if r.Success? {
        upcall := upcall + [reply.result];
      }
    }
  }

  class CloseLoop {
    const plan: L.Plan
    var workload: L.Workload
    var attach: Option<Payload>
    var sender: seq<Payload>
    var done: bool

    function State(): L.Loop
      reads this
    {
      L.Loop(workload, attach, sender, done)
    }

    constructor (plan: L.Plan)
      ensures this.plan == plan && State() == L.NewLoop
    {
      this.plan := plan;
      workload, attach, sender, done := L.Workload(0, None, []), None, [], false;
    }

    method NextOp() returns (r: Fallible<Option<Payload>>)
      modifies `workload
      ensures
        match L.NextOp(plan, old(workload))
        case Success((w, op)) => r == Success(op) && workload == w
        case Failure(e) => r == Failure(e)
    {
      var op := plan.op(workload.position);
      if op.None? {
        return Success(None);
      }
      var replaced := workload.awaited;
      workload := workload.(position := workload.position + 1,
                            awaited := if plan.checked then Some(plan.want(workload.position)) else None);
      if plan.checked && replaced.Some? {
        return Failure(OnlyCloseLoop);
      }
      return Success(op);
    }

    method OnResult(op: Payload, result: Payload) returns (r: Fallible<()>)
      modifies `workload
      ensures
        match L.OnResult(plan, old(workload), op, result)
        case Success(w) => r == Success(()) && workload == w
        case Failure(e) => r == Failure(e)
    {
      if plan.recorded {
        workload := workload.(invocations := workload.invocations + [(op, result)]);
      }
      if plan.checked {
        var awaited := workload.awaited;
        workload := workload.(awaited := None);
        if awaited.None? {
          return Failure(MissingInvocation);
        }
        if awaited.value != result {
          return Failure(UnexpectedResult(awaited.value, result));
        }
      }
      return Success(());
    }

    method Init() returns (r: Fallible<()>)
      modifies this
      ensures
        match L.Init(plan, old(State()))
        case Success(l) => r == Success(()) && State() == l
        case Failure(e) => r == Failure(e)
    {
      var op := NextOp();
      if op.Failure? {
        return Failure(op.error);
      }
      if op.value.None? {
        return Failure(NotEnoughOps);
      }
      var replaced := attach;
      attach := op.value;
      if replaced.Some? {
        return Failure(DuplicatedLaunch);
      }
      sender := sender + [op.value.value];
      return Success(());
    }

    method OnInvokeOk(result: Payload) returns (r: Fallible<()>)
      modifies this
      ensures
        match L.OnInvokeOk(plan, old(State()), result)
        case Success(l) => r == Success(()) && State() == l
        case Failure(e) => r == Failure(e)
    {
      if attach.None? {
        return Failure(MissingAttach);
      }
      var taken := attach.value;
      attach := None;
      r := OnResult(taken, result);
      if r.Failure? {
        return;
      }
      var op := NextOp();
      if op.Failure? {
        return Failure(op.error);
      }
      if op.value.Some? {
        attach := op.value;
        sender := sender + [op.value.value];
      } else {
        done := true;
      }
    }
  }

  class Replica {
    const u: Spec.Setup
    var replies: map<nat, Reply>
    var app: AppState
    var net: seq<MessageEvent>

    function State(): Spec.Replica
      reads this
    {
      Spec.Replica(replies, app, net)
    }

    constructor (u: Spec.Setup)
      ensures this.u == u && State() == Spec.Replica(map[], u.app, [])
    {
      this.u := u;
      replies, app, net := map[], u.app, [];
    }

    method OnRequest(request: Request)
      modifies this
      ensures State() == Spec.OnRequest(u, old(State()), request)
    {
      if request.clientId in replies {
        var cached := replies[request.clientId];
        if cached.seqNum > request.seqNum {
          return;
        }
        if cached.seqNum == request.seqNum {
          net := net + [MessageEvent(request.clientAddr, ReplyMsg(cached))];
          return;
        }
      }
      var (next, result) := u.execute(app, request.op);
      app := next;
      var reply := Reply(request.seqNum, result);
      replies := replies[request.clientId := reply];
      net := net + [MessageEvent(request.clientAddr, ReplyMsg(reply))];
    }
  }
}
