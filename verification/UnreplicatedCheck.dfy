/** The checker's state as an object: the clients with their timers and loops, the replica
    and the network.  Launch, step and flush are proved against their specification. */
module UnreplicatedCheck {
  import opened Wrappers
  import opened UnreplicatedTypes
  import opened UnreplicatedNodes
  import Spec = UnreplicatedSpec
  import T = LinearTimer
  import L = CloseLoop

  /** One client with the timer service and the loop that belong to it. */
  datatype ClientState = ClientState(client: Client, timer: Timer, loop: CloseLoop)
  {
    function Value(): Spec.Node
      reads client, timer, loop
    {
      Spec.Node(client.State(), timer.State(), loop.State())
    }

    predicate Apart(other: ClientState) {
      client != other.client && timer != other.timer && loop != other.loop
    }

    /** Hand the buffered invocations to the client. */
    method InvokeAll() returns (rerun: bool, r: Fallible<()>)
      modifies client, timer, loop
      ensures
        match Spec.InvokeAll(old(Value()).(loop := old(loop.State()).(sender := [])), old(loop.sender))
        case Success(n) => r == Success(()) && Value() == n
        case Failure(e) => r == Failure(e)
      ensures rerun <==> old(loop.sender) != []
    {
      var ops := loop.sender;
      rerun, loop.sender := false, [];
      ghost var start := Value();
      var k := 0;
      while k < |ops|
        invariant k <= |ops| && (rerun <==> k > 0)
        invariant Spec.InvokeAll(Value(), ops[k..]) == Spec.InvokeAll(start, ops)
      {
        rerun := true;
        assert ops[k..][1..] == ops[k + 1..];
        r := client.OnInvoke(ops[k], timer);
        if r.Failure? {
          return;
        }
        k := k + 1;
      }
      return rerun, Success(());
    }

    /** Hand the buffered results to the loop. */
    method ReturnAll() returns (rerun: bool, r: Fallible<()>)
      modifies client, loop
      ensures
        match Spec.ReturnAll(loop.plan, old(Value()).(client := old(client.State()).(upcall := [])), old(client.upcall))
        case Success(n) => r == Success(()) && Value() == n
        case Failure(e) => r == Failure(e)
      ensures rerun <==> old(client.upcall) != []
    {
      var results := client.upcall;
      rerun, client.upcall := false, [];
      ghost var start := Value();
      var k := 0;
      while k < |results|
        invariant k <= |results| && (rerun <==> k > 0)
        invariant Spec.ReturnAll(loop.plan, Value(), results[k..]) == Spec.ReturnAll(loop.plan, start, results)
      {
        rerun := true;
        assert results[k..][1..] == results[k + 1..];
        r := loop.OnInvokeOk(results[k]);
        if r.Failure? {
          return;
        }
        k := k + 1;
      }
      return rerun, Success(());
    }

    /** Run the client and its loop until neither has anything for the other. */
    method Rerun() returns (r: Fallible<()>)
      modifies client, timer, loop
      ensures
        match Spec.Rerun(loop.plan, old(Value()))
        case Success(n) => r == Success(()) && Value() == n
        case Failure(e) => r == Failure(e)
    {
      ghost var goal := Spec.Rerun(loop.plan, Value());
      var rerun := true;
      while rerun
        invariant Spec.Rerun(loop.plan, Value()) == goal
        invariant !rerun ==> loop.sender == [] && client.upcall == []
        decreases |loop.sender| + 2 * |client.upcall|, rerun
      {
        ghost var before := Value();
        var more;
        rerun, r := InvokeAll();
        if r.Failure? {
          return;
        }
        more, r := ReturnAll();
        if r.Failure? {
          return;
        }
        rerun := rerun || more;
        if !rerun {
          assert Value() == before;
        }
      }
      return Success(());
    }
  }

  class State {
    const u: Spec.Setup
    const clients: seq<ClientState>
    const replica: Replica
    var messages: set<MessageEvent>

    ghost predicate Valid() {
      && |clients| == |u.plans| && replica.u == u
      && (forall i: nat | i < |clients| :: clients[i].loop.plan == u.plans[i])
      && (forall i: nat, j: nat | i < j < |clients| :: clients[i].Apart(clients[j]))
    }

    ghost function Objects(): set<object> {
      (set c <- clients :: c.client) + (set c <- clients :: c.timer) + (set c <- clients :: c.loop) + {this, replica}
    }

    ghost function Nodes(): (nodes: seq<Spec.Node>)
      reads Objects()
      ensures |nodes| == |clients|
    {
      seq(|clients|, i requires 0 <= i < |clients| reads Objects() => ClientValue(i))
    }

    ghost function ClientValue(i: nat): Spec.Node
      requires i < |clients|
      reads Objects()
    {
      clients[i].Value()
    }

    ghost function Value(): Spec.State
      reads Objects()
    {
      Spec.State(Nodes(), replica.State(), messages)
    }

    /** An empty state to which a client is pushed for every workload. */
    constructor (u: Spec.Setup)
      ensures Valid() && this.u == u && Value() == Spec.New(u) && fresh(Objects())
    {
      var pushed: seq<ClientState> := [];
      while |pushed| < |u.plans|
        invariant |pushed| <= |u.plans|
        invariant forall i: nat | i < |pushed| ::
          && fresh(pushed[i].client) && fresh(pushed[i].timer) && fresh(pushed[i].loop)
          && pushed[i].loop.plan == u.plans[i] && pushed[i].Value() == Spec.NewNode(i)
        invariant forall i: nat, j: nat | i < j < |pushed| :: pushed[i].Apart(pushed[j])
      {
        var index := |pushed|;
        var client := new Client(index + 1000, ClientAddr(index));
        var timer := new Timer();
        var loop := new CloseLoop(u.plans[index]);
        pushed := pushed + [ClientState(client, timer, loop)];
      }
      this.u, clients, messages := u, pushed, {};
      replica := new Replica(u);
      new;
      assert Nodes() == Spec.New(u).clients;
    }

    twostate lemma OnlyOneChanged(i: nat)
      requires Valid() && i < |clients|
      requires forall j: nat | j < |clients| && j != i :: unchanged(clients[j].client, clients[j].timer, clients[j].loop)
      ensures Nodes() == old(Nodes())[i := ClientValue(i)]
    {
    }

    /** Move what a client has sent to the network, and run its loop. */
    method FlushClient(i: nat) returns (r: Fallible<()>)
      requires Valid() && i < |clients|
      modifies `messages, clients[i].client, clients[i].timer, clients[i].loop
      ensures messages == old(messages) + Spec.Elements(old(clients[i].client.net))
      ensures
        match Spec.FlushNode(u.plans[i], old(Nodes())[i])
        case Success(n) => r == Success(()) && Nodes() == old(Nodes())[i := n]
        case Failure(e) => r == Failure(e)
    {
      var c := clients[i];
      messages := messages + Spec.Elements(c.client.net);
      c.client.net := [];
      r := c.Rerun();
      OnlyOneChanged(i);
    }

    /** Move what the nodes have sent to the network, and run every client's loop. */
    method Flush() returns (r: Fallible<()>)
      requires Valid()
      modifies Objects()
      ensures
        match Spec.Flush(u, old(Value()))
        case Success(s) => r == Success(()) && Value() == s
        case Failure(e) => r == Failure(e)
    {
      hide Spec.FlushNode;
      messages := messages + Spec.Elements(replica.net);
      replica.net := [];
      ghost var goal := Spec.FlushFrom(u, Value(), 0);
      assert Nodes() == old(Nodes());
      var i := 0;
      while i < |clients|
        invariant i <= |clients|
        invariant Spec.FlushFrom(u, Value(), i) == goal
      {
        r := FlushClient(i);
        if r.Failure? {
          return;
        }
        i := i + 1;
      }
      return Success(());
    }

    /** Every loop invokes its first op. */
    method Launch() returns (r: Fallible<()>)
      requires Valid()
      modifies Objects()
      ensures
        match Spec.InitFrom(u, old(Value()), 0)
        case Failure(e) => r == Failure(e)
        case Success(loaded) =>
          match Spec.Flush(u, loaded)
          case Success(s) => r == Success(()) && Value() == s
          case Failure(e) => r == Failure(e)
    {
      hide L.Init, Spec.FlushFrom;
      ghost var goal := Spec.InitFrom(u, Value(), 0);
      var i := 0;
      while i < |clients|
        invariant i <= |clients|
        invariant Spec.InitFrom(u, Value(), i) == goal
      {
        r := InitClient(i);
        if r.Failure? {
          return;
        }
        i := i + 1;
      }
      r := Flush();
    }

    method InitClient(i: nat) returns (r: Fallible<()>)
      requires Valid() && i < |clients|
      modifies clients[i].loop
      ensures
        match L.Init(u.plans[i], old(Nodes())[i].loop)
        case Success(loop) => r == Success(()) && Nodes() == old(Nodes())[i := old(Nodes())[i].(loop := loop)]
        case Failure(e) => r == Failure(e)
    {
      r := clients[i].loop.Init();
      OnlyOneChanged(i);
    }

    /** One event the checker chose, then the flush. */
    method Step(e: Spec.Event) returns (r: Fallible<()>)
      requires Valid()
      modifies Objects()
      ensures
        match Spec.Step(u, old(Value()), e)
        case Success(s) => r == Success(()) && Value() == s
        case Failure(error) => r == Failure(error)
    {
      hide Spec.Flush, Spec.OnRequest, Spec.OnReply, Spec.OnTimer;
      r := React(e);
      if r.Success? {
        r := Flush();
      }
    }

    method React(e: Spec.Event) returns (r: Fallible<()>)
      requires Valid()
      modifies Objects()
      ensures
        match Spec.React(u, old(Value()), e)
        case Success(s) => r == Success(()) && Value() == s
        case Failure(error) => r == Failure(error)
    {
      hide Spec.OnRequest, Spec.OnReply, Spec.OnTimer;
      match e
      case Delivery(MessageEvent(ReplicaAddr, RequestMsg(request))) =>
        replica.OnRequest(request);
        assert Nodes() == old(Nodes());
        return Success(());
      case Delivery(MessageEvent(ClientAddr(i), ReplyMsg(reply))) =>
        if i >= |clients| {
          return Failure(Panicked);
        }
        r := clients[i].client.OnReply(reply, clients[i].timer);
        OnlyOneChanged(i);
      case Alarm(i, id) =>
        if i >= |clients| {
          return Failure(Panicked);
        }
        r := clients[i].timer.StepTimer(id);
        if r.Success? {
          r := clients[i].client.OnTimer(id, clients[i].timer);
        }
        OnlyOneChanged(i);
      case _ => return Failure(UnexpectedEvent);
    }

    /** The events the checker may choose from: the messages, then the timers in client order. */
    method Events() returns (alarms: seq<Spec.Event>)
      requires Valid()
      ensures forall e: Spec.Event ::
        Spec.Offers(Value(), e) <==> (e.Delivery? && e.message in messages) || (e.Alarm? && e in alarms)
    {
      hide T.Offered;
      alarms := [];
      var i := 0;
      while i < |clients|
        invariant i <= |clients|
        invariant forall e <- alarms :: e.Alarm?
        invariant forall j: nat, id: nat ::
          Spec.Alarm(j, id) in alarms <==> j < i && id in T.Offered(Nodes()[j].timer)
      {
        var ids := clients[i].timer.Events();
        var k := 0;
        while k < |ids|
          invariant k <= |ids|
          invariant forall e <- alarms :: e.Alarm?
          invariant forall j: nat, id: nat ::
            Spec.Alarm(j, id) in alarms <==> (j < i && id in T.Offered(Nodes()[j].timer)) || (j == i && id in ids[..k])
        {
          alarms := alarms + [Spec.Alarm(i, ids[k])];
          assert ids[..k + 1] == ids[..k] + [ids[k]];
          k := k + 1;
        }
        assert ids[..k] == ids == T.Offered(Nodes()[i].timer);
        i := i + 1;
      }
    }
  }
}
