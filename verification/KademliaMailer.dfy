/** The control as an object: its tables of waiting messages, updated in place. */
module KademliaMailer {
  import opened Wrappers
  import opened KademliaIds
  import B = KademliaBuckets
  import opened KademliaControl
  import opened KademliaConservation
  import Q = KademliaQuery

  class Mailer {
    var unicasts: map<Id, Unicasts>
    var multicasts: map<Id, Multicasts>
    var pending: map<Id, seq<Mail>>
    var addrs: seq<B.PeerRecord>
    var clock: Clock
    var sent: seq<Sent>
    ghost var dropped: seq<Body>
    var queries: seq<(Id, nat)>

    ghost function State(): Control
      reads this
    {
      Control(Waiting(unicasts, multicasts, pending), addrs, clock, Outputs(sent, dropped, queries))
    }

    constructor ()
      ensures State() == NewControl
    {
      unicasts, multicasts, pending := map[], map[], map[];
      addrs, clock, sent, dropped, queries := [], Clock(map[], 0), [], [], [];
    }

    /** Ask the peer for a target, with a timer on the answer. */
    method Query(target: Id, count: nat) returns (timer: nat)
      modifies `queries, `clock
      ensures queries == old(queries) + [(target, count)]
      ensures clock == SetTimer(old(clock), target) && timer == old(clock.last) + 1
    {
      queries := queries + [(target, count)];
      timer := clock.last + 1;
      clock := Clock(clock.live[timer := target], timer);
    }

    method OnUnicast(id: Id, body: Body)
      modifies this
      ensures State() == KademliaControl.OnUnicast(old(State()), id, body)
    {
      var i := B.Position(addrs, id);
      if i < |addrs| {
        var contact := addrs[i];
        addrs := addrs[..i] + addrs[i + 1..] + [contact];
        sent := sent + [Sent(body, [contact.endpoint])];
      } else if id in multicasts {
        var querying := multicasts[id];
        multicasts := multicasts[id := querying.(messages := querying.messages + [Mail(1, body)])];
      } else if id in unicasts {
        var querying := unicasts[id];
        unicasts := unicasts[id := querying.(messages := querying.messages + [body])];
      } else {
        var timer := Query(id, 1);
        unicasts := unicasts[id := Unicasts([body], timer)];
      }
    }

    method Postpone(target: Id, m: Mail)
      modifies `pending
      ensures State() == Pend(old(State()), target, m)
    {
      var before := if target in pending then pending[target] else [];
      pending := pending[target := before + [m]];
    }

    method OnMulticast(target: Id, m: Mail)
      modifies this
      ensures State() == KademliaControl.OnMulticast(old(State()), target, m)
    {
      if target in multicasts {
        var querying := multicasts[target];
        if m.count <= querying.count {
          multicasts := multicasts[target := querying.(messages := querying.messages + [m])];
        } else {
          Postpone(target, m);
        }
        return;
      }
      if target in unicasts {
        Postpone(target, m);
        return;
      }
      var timer := Query(target, m.count);
      multicasts := multicasts[target := Multicasts(m.count, [m], timer)];
    }

    /** Send the unicasts waiting for a found peer. */
    method ResolveOne(found: B.PeerRecord)
      requires ControlOk(State()) && found.id in unicasts
      modifies this
      ensures Resolve(old(State()), found) == Success(State())
    {
      hide ControlOk, Remember, UnicastSends, Total;
      ResolveOk(State(), found);
      var querying := unicasts[found.id];
      unicasts := unicasts - {found.id};
      addrs := Remember(addrs, found);
      clock := clock.(live := clock.live - {querying.timer});
      SendUnicasts(querying.messages, found.endpoint);
    }

    method SendUnicasts(messages: seq<Body>, addr: B.Endpoint)
      modifies `sent
      ensures sent == old(sent) + UnicastSends(messages, addr)
    {
      var n := 0;
      while n < |messages|
        invariant n <= |messages|
        invariant sent == old(sent) + UnicastSends(messages, addr)[..n]
      {
        sent := sent + [Sent(messages[n], [addr])];
        n := n + 1;
      }
      assert UnicastSends(messages, addr)[..n] == UnicastSends(messages, addr);
    }

    method SendMulticasts(messages: seq<Mail>, closest: seq<B.PeerRecord>)
      modifies `sent
      ensures sent == old(sent) + MulticastSends(messages, closest)
    {
      var n := 0;
      while n < |messages|
        invariant n <= |messages|
        invariant sent == old(sent) + MulticastSends(messages, closest)[..n]
      {
        sent := sent + [Sent(messages[n].body, Addresses(closest, messages[n].count))];
        n := n + 1;
      }
      assert MulticastSends(messages, closest)[..n] == MulticastSends(messages, closest);
    }

    method RememberPeers(closest: seq<B.PeerRecord>)
      modifies `addrs
      ensures addrs == RememberAll(old(addrs), closest)
    {
      var k := 0;
      while k < |closest|
        invariant k <= |closest|
        invariant RememberAll(addrs, closest[k..]) == RememberAll(old(addrs), closest)
      {
        assert closest[k..][1..] == closest[k + 1..];
        addrs := Remember(addrs, closest[k]);
        k := k + 1;
      }
    }

    /** A result of a query resolves what it can; when it is final, what waited for its target
        is delivered or dropped, and what was postponed starts over. */
    method OnResult(status: Q.Status, target: Id, closest: seq<B.PeerRecord>)
      requires ControlOk(State())
      modifies this
      ensures KademliaControl.OnResult(old(State()), status, target, closest) == Success(State())
      ensures ControlOk(State()) && Total(State()) == old(Total(State()))
    {
      hide ControlOk, Resolve, Total, Drop, Deliver, Restart;
      OnResultOk(State(), status, target, closest);
      ResolveAllOk(State(), closest);
      ghost var goal := ResolveAll(State(), closest);
      var n := 0;
      while n < |closest|
        invariant n <= |closest| && ControlOk(State())
        invariant ResolveAll(State(), closest[n..]) == goal
      {
        assert closest[n..][1..] == closest[n + 1..];
        ResolveOk(State(), closest[n]);
        if closest[n].id in unicasts {
          ResolveOne(closest[n]);
        } else {
          NothingToResolve(State(), closest[n]);
        }
        n := n + 1;
      }
      assert goal == Success(State());
      if status == Q.Progress {
        return;
      }
      if target in unicasts {
        DropWaiting(target);
        return;
      }
      DeliverOk(State(), target, closest);
      DeliverWaiting(target, closest);
      RestartOk(State(), target);
      RestartPending(target);
    }

    method DropWaiting(target: Id)
      requires ControlOk(State()) && target in unicasts
      modifies this
      ensures Drop(old(State()), target) == Success(State())
    {
      hide ControlOk, Total;
      DropOk(State(), target);
      var querying := unicasts[target];
      unicasts := unicasts - {target};
      clock := clock.(live := clock.live - {querying.timer});
      dropped := dropped + querying.messages;
    }

    method DeliverWaiting(target: Id, closest: seq<B.PeerRecord>)
      requires ControlOk(State()) && forall f <- closest :: f.id !in unicasts
      modifies this
      ensures Deliver(old(State()), target, closest) == Success(State())
    {
      hide ControlOk, Total, RememberAll, MulticastSends;
      DeliverOk(State(), target, closest);
      if target !in multicasts {
        return;
      }
      var querying := multicasts[target];
      multicasts := multicasts - {target};
      RememberPeers(closest);
      clock := clock.(live := clock.live - {querying.timer});
      SendMulticasts(querying.messages, closest);
    }

    method RestartPending(target: Id)
      requires ControlOk(State()) && target !in unicasts && target !in multicasts
      modifies this
      ensures Restart(old(State()), target) == Success(State())
    {
      hide ControlOk, Total, MaxCount;
      RestartOk(State(), target);
      if target !in pending {
        return;
      }
      var messages := pending[target];
      pending := pending - {target};
      var count := MaxCount(messages);
      var timer := Query(target, count);
      multicasts := multicasts[target := Multicasts(count, messages, timer)];
    }
  }

  lemma NothingToResolve(c: Control, found: B.PeerRecord)
    requires found.id !in c.waiting.unicasts
    ensures Resolve(c, found) == Success(c)
  {
  }
}
