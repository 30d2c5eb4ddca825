/** A PBFT client as an object whose handlers update its fields in place. */
module PbftClientNode {
  import opened Wrappers
  import opened PbftTypes
  import Spec = PbftClient

  class Client {
    const c: Config
    const id: nat
    const addr: Addr
    var seqNum: nat
    var invoke: Option<Spec.Invocation>
    var viewNum: nat
    // The timer service, the requests sent and the results handed up
    var timers: set<nat>
    var lastTimer: nat
    var requests: seq<(nat, Request)>
    var upcalls: seq<Spec.Completed>

    function State(): Spec.Client
      reads this
    {
      Spec.Client(id, addr, seqNum, invoke, viewNum, timers, lastTimer, requests, upcalls)
    }

    constructor (c: Config, id: nat, addr: Addr)
      ensures this.c == c && State() == Spec.NewClient(id, addr)
    {
      this.c, this.id, this.addr := c, id, addr;
      seqNum, viewNum, lastTimer := 0, 0, 0;
      invoke, timers, requests, upcalls := None, {}, [], [];
    }

    /** An error leaves the fields as they are. */
    method OnInvoke(op: Payload) returns (outcome: Outcome)
      requires c.numReplica > 0
      modifies this
      ensures
        match Spec.OnInvoke(c, old(State()), op)
        case Success(next) => outcome == Invoked && State() == next
        case Failure(error) => outcome == Refused(error) && State() == old(State())
    {
      if invoke.Some? {
        return Refused("concurrent invocation");
      }
      seqNum := seqNum + 1;
      lastTimer := lastTimer + 1;
      timers := timers + {lastTimer};
      invoke := Some(Spec.Invocation(op, lastTimer, map[]));
      requests := requests + [(viewNum % c.numReplica, Request(id, addr, seqNum, op))];
      return Invoked;
    }

    /** With the invariants of the counting and of the timer there is no error. */
    method OnReply(reply: Reply)
      requires Spec.BelowQuorum(c, State()) && Spec.TimerOk(State())
      modifies this
      ensures Spec.BelowQuorum(c, State()) && Spec.TimerOk(State())
      ensures Spec.OnReply(c, old(State()), reply) == Success(State())
    {
      Spec.ReplyCountsExactly(c, State(), reply);
      if reply.seqNum != seqNum || invoke.None? {
        return;
      }
      var open := invoke.value;
      var replies := open.replies[reply.replicaId := reply];
      invoke := Some(open.(replies := replies));
      if |Spec.Voters(replies, reply.result)| == c.numFaulty + 1 {
        viewNum := reply.viewNum;
        invoke := None;
        timers := timers - {open.resendTimer};
        upcalls := upcalls + [Spec.Completed(seqNum, reply.result)];
      }
    }
  }

  datatype Outcome = Invoked | Refused(message: string)
}
