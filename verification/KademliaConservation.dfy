/** No message is lost or sent twice by accident: each one given is held, pending, sent or
    dropped, exactly as often as it was given. */
module KademliaConservation {
  import opened Wrappers
  import opened KademliaIds
  import B = KademliaBuckets
  import opened KademliaControl
  import Q = KademliaQuery

  // The invariant

  /** This query timer belongs to what waits for its target. */
  predicate Backed(w: Waiting, c: Clock, timer: nat)
    requires timer in c.live
  {
    var target := c.live[timer];
    || (target in w.unicasts && w.unicasts[target].timer == timer)
    || (target in w.multicasts && w.multicasts[target].timer == timer)
  }

  ghost predicate ClockOk(w: Waiting, c: Clock) {
    && (forall timer <- c.live :: timer <= c.last && Backed(w, c, timer))
    && (forall id <- w.unicasts :: w.unicasts[id].timer in c.live && c.live[w.unicasts[id].timer] == id)
    && (forall id <- w.multicasts :: w.multicasts[id].timer in c.live && c.live[w.multicasts[id].timer] == id)
  }

  predicate Fits(count: nat, messages: seq<Mail>) {
    forall m <- messages :: 1 <= m.count <= count
  }

  /** Unicast and multicast queries have different targets; no unicast waits for an address
      that is known; no multicast wants more peers than its query asks for. */
  ghost predicate WaitingOk(w: Waiting, addrs: seq<B.PeerRecord>) {
    && w.unicasts.Keys !! w.multicasts.Keys
    && (forall id <- w.unicasts :: !Cached(addrs, id))
    && (forall id <- w.multicasts :: w.multicasts[id].count >= 1 && Fits(w.multicasts[id].count, w.multicasts[id].messages))
    && (forall id <- w.pending :: w.pending[id] != [] && forall m <- w.pending[id] :: m.count >= 1)
  }

  ghost predicate ControlOk(c: Control) {
    WaitingOk(c.waiting, c.addrs) && ClockOk(c.waiting, c.clock)
  }

  // One step at a time

  lemma WithoutCached(addrs: seq<B.PeerRecord>, id: Id)
    requires B.Position(addrs, id) < |addrs|
    ensures forall x :: Cached(B.Without(addrs, id) + [addrs[B.Position(addrs, id)]], x) ==> Cached(addrs, x)
  {
    var i := B.Position(addrs, id);
    assert forall c <- B.Without(addrs, id) + [addrs[i]] :: c in addrs;
  }

  lemma NotCached(addrs: seq<B.PeerRecord>, id: Id)
    ensures Cached(addrs, id) <==> B.Position(addrs, id) < |addrs|
  {
    var i := B.Position(addrs, id);
    if i < |addrs| {
      assert addrs[i] in addrs;
    }
  }

  /** Starting a query for a target that nothing waits for. */
  lemma AskUnicastOk(c: Control, id: Id, u: Unicasts)
    requires ControlOk(c) && id !in c.waiting.unicasts && id !in c.waiting.multicasts && !Cached(c.addrs, id)
    requires u.timer == c.clock.last + 1
    ensures ControlOk(PutUnicasts(Ask(c, id, 1), id, u))
  {
    hide Cached;
    var c' := PutUnicasts(Ask(c, id, 1), id, u);
    forall timer <- c'.clock.live ensures timer <= c'.clock.last && Backed(c'.waiting, c'.clock, timer) {
      if timer != c'.clock.last { assert Backed(c.waiting, c.clock, timer); }
    }
  }

  lemma AskMulticastOk(c: Control, target: Id, q: Multicasts)
    requires ControlOk(c) && target !in c.waiting.unicasts && target !in c.waiting.multicasts
    requires q.timer == c.clock.last + 1 && q.count >= 1 && Fits(q.count, q.messages)
    ensures ControlOk(PutMulticasts(Ask(c, target, q.count), target, q))
  {
    hide Cached;
    var c' := PutMulticasts(Ask(c, target, q.count), target, q);
    forall timer <- c'.clock.live ensures timer <= c'.clock.last && Backed(c'.waiting, c'.clock, timer) {
      if timer != c'.clock.last { assert Backed(c.waiting, c.clock, timer); }
    }
  }

  lemma AskTotal(c: Control, target: Id, count: nat)
    ensures Total(Ask(c, target, count)) == Total(c)
  {
  }

  lemma OnUnicastOk(c: Control, id: Id, body: Body)
    requires ControlOk(c)
    ensures ControlOk(OnUnicast(c, id, body))
    ensures Total(OnUnicast(c, id, body)) == Total(c) + multiset{body}
  {
    hide Total, Sum, Cached;
    NotCached(c.addrs, id);
    var i, w := B.Position(c.addrs, id), c.waiting;
    if i < |c.addrs| {
      WithoutCached(c.addrs, id);
      var c1 := c.(addrs := B.Without(c.addrs, id) + [c.addrs[i]]);
      CacheTotal(c, c1.addrs);
      SendTotal(c1, [Sent(body, [c.addrs[i].endpoint])]);
      assert SentBodies([Sent(body, [c.addrs[i].endpoint])]) == [body];
    } else if id in w.multicasts {
      JoinMulticast(c, id, Mail(1, body));
    } else if id in w.unicasts {
      JoinUnicast(c, id, body);
    } else {
      var c1 := Ask(c, id, 1);
      var u := Unicasts([body], c.clock.last + 1);
      AskUnicastOk(c, id, u);
      AskTotal(c, id, 1);
      PutUnicastsTotal(c1, id, u);
    }
  }

  lemma CacheTotal(c: Control, addrs: seq<B.PeerRecord>)
    ensures Total(c.(addrs := addrs)) == Total(c)
  {
  }

  lemma JoinUnicast(c: Control, id: Id, body: Body)
    requires ControlOk(c) && id in c.waiting.unicasts
    ensures
      var u := c.waiting.unicasts[id];
      var c' := PutUnicasts(c, id, u.(messages := u.messages + [body]));
      ControlOk(c') && Total(c') == Total(c) + multiset{body}
  {
    hide Total, Sum, Cached;
    var u := c.waiting.unicasts[id];
    var u' := u.(messages := u.messages + [body]);
    var c' := PutUnicasts(c, id, u');
    forall timer <- c.clock.live ensures Backed(c'.waiting, c'.clock, timer) {
      assert Backed(c.waiting, c.clock, timer);
    }
    PutUnicastsTotal(c, id, u');
    assert multiset(u'.messages) == multiset(u.messages) + multiset{body};
    Cancel(Total(c), Total(c'), multiset(u.messages), multiset{body});
  }

  lemma JoinMulticast(c: Control, id: Id, m: Mail)
    requires ControlOk(c) && id in c.waiting.multicasts && 1 <= m.count <= c.waiting.multicasts[id].count
    ensures
      var q := c.waiting.multicasts[id];
      var c' := PutMulticasts(c, id, q.(messages := q.messages + [m]));
      ControlOk(c') && Total(c') == Total(c) + multiset{m.body}
  {
    hide Total, Sum, Cached, Bodies;
    var q := c.waiting.multicasts[id];
    var q' := q.(messages := q.messages + [m]);
    var c' := PutMulticasts(c, id, q');
    forall timer <- c.clock.live ensures Backed(c'.waiting, c'.clock, timer) {
      assert Backed(c.waiting, c.clock, timer);
    }
    PutMulticastsTotal(c, id, q');
    OneMore(q.messages, m);
    Cancel(Total(c), Total(c'), multiset(Bodies(q.messages)), multiset{m.body});
  }

  lemma PendOk(c: Control, target: Id, m: Mail)
    requires ControlOk(c) && m.count >= 1
    ensures ControlOk(Pend(c, target, m))
  {
    hide Cached;
    var c' := Pend(c, target, m);
    forall timer <- c.clock.live ensures Backed(c'.waiting, c'.clock, timer) {
      assert Backed(c.waiting, c.clock, timer);
    }
  }

  lemma OneMail(m: Mail)
    ensures Bodies([m]) == [m.body]
  {
  }

  lemma OnMulticastOk(c: Control, target: Id, m: Mail)
    requires ControlOk(c) && m.count >= 1
    ensures ControlOk(OnMulticast(c, target, m))
    ensures Total(OnMulticast(c, target, m)) == Total(c) + multiset{m.body}
  {
    hide Total, Sum, Cached, ControlOk, Bodies;
    var w := c.waiting;
    if target in w.multicasts {
      if m.count <= w.multicasts[target].count {
        JoinMulticast(c, target, m);
      } else {
        PendOk(c, target, m);
        PendTotal(c, target, m);
      }
    } else if target in w.unicasts {
      PendOk(c, target, m);
      PendTotal(c, target, m);
    } else {
      var q := Multicasts(m.count, [m], c.clock.last + 1);
      AskMulticastOk(c, target, q);
      AskTotal(c, target, m.count);
      PutMulticastsTotal(Ask(c, target, m.count), target, q);
      OneMail(m);
    }
  }

  // A result

  /** Ending the wait for one target unsets its timer. */
  lemma EndWait(c: Control, w': Waiting, target: Id, timer: nat)
    requires ControlOk(c)
    requires
      || (target in c.waiting.unicasts && timer == c.waiting.unicasts[target].timer
          && w' == c.waiting.(unicasts := c.waiting.unicasts - {target}))
      || (target in c.waiting.multicasts && timer == c.waiting.multicasts[target].timer
          && w' == c.waiting.(multicasts := c.waiting.multicasts - {target}))
    ensures timer in c.clock.live
    ensures ClockOk(w', c.clock.(live := c.clock.live - {timer})) && WaitingOk(w', c.addrs)
  {
    hide Cached;
    var clock := c.clock.(live := c.clock.live - {timer});
    forall t <- clock.live ensures t <= clock.last && Backed(w', clock, t) {
      assert Backed(c.waiting, c.clock, t);
    }
  }

  lemma RememberOk(w: Waiting, addrs: seq<B.PeerRecord>, found: B.PeerRecord)
    requires WaitingOk(w, addrs) && found.id !in w.unicasts
    ensures WaitingOk(w, Remember(addrs, found))
  {
    hide Cached;
  }

  lemma UnicastSendsBodies(messages: seq<Body>, addr: B.Endpoint)
    ensures SentBodies(UnicastSends(messages, addr)) == messages
  {
  }

  lemma MulticastSendsBodies(messages: seq<Mail>, closest: seq<B.PeerRecord>)
    ensures SentBodies(MulticastSends(messages, closest)) == Bodies(messages)
  {
  }

  lemma ClockTotal(c: Control, clock: Clock)
    ensures Total(c.(clock := clock)) == Total(c)
  {
  }

  lemma ResolveOk(c: Control, found: B.PeerRecord)
    requires ControlOk(c)
    ensures Resolve(c, found).Success?
    ensures
      var c' := Resolve(c, found).value;
      && ControlOk(c') && Total(c') == Total(c) && c'.waiting.multicasts == c.waiting.multicasts
      && c'.waiting.unicasts == c.waiting.unicasts - {found.id}
  {
    hide Total, Sum, Cached, Remember, WaitingOk, ClockOk;
    var w := c.waiting;
    if found.id in w.unicasts {
      var u := w.unicasts[found.id];
      var w' := w.(unicasts := w.unicasts - {found.id});
      EndWait(c, w', found.id, u.timer);
      RememberOk(w', c.addrs, found);
      var c1 := c.(waiting := w');
      DropUnicastsTotal(c, found.id);
      CacheTotal(c1, Remember(c.addrs, found));
      var c2 := c1.(addrs := Remember(c.addrs, found));
      ClockTotal(c2, c.clock.(live := c.clock.live - {u.timer}));
      SendTotal(c2.(clock := c.clock.(live := c.clock.live - {u.timer})), UnicastSends(u.messages, found.endpoint));
      UnicastSendsBodies(u.messages, found.endpoint);
    } else {
      assert w.unicasts - {found.id} == w.unicasts;
    }
  }

  lemma {:induction false} ResolveAllOk(c: Control, closest: seq<B.PeerRecord>)
    requires ControlOk(c)
    ensures ResolveAll(c, closest).Success?
    ensures
      var c' := ResolveAll(c, closest).value;
      && ControlOk(c') && Total(c') == Total(c) && c'.waiting.multicasts == c.waiting.multicasts
      && forall id :: id in c'.waiting.unicasts <==> id in c.waiting.unicasts && forall f <- closest :: f.id != id
    decreases |closest|
  {
    hide Total, ControlOk, Resolve;
    if closest != [] {
      ResolveOk(c, closest[0]);
      ResolveAllOk(Resolve(c, closest[0]).value, closest[1..]);
      assert closest == [closest[0]] + closest[1..];
    }
  }

  lemma DropOk(c: Control, target: Id)
    requires ControlOk(c) && target in c.waiting.unicasts
    ensures Drop(c, target).Success? && ControlOk(Drop(c, target).value) && Total(Drop(c, target).value) == Total(c)
  {
    hide Total, Sum, Cached, WaitingOk, ClockOk;
    var w := c.waiting;
    var u := w.unicasts[target];
    var w' := w.(unicasts := w.unicasts - {target});
    EndWait(c, w', target, u.timer);
    UnknownTarget(c, target);
    DropUnicastsTotal(c, target);
    var clock := c.clock.(live := c.clock.live - {u.timer});
    ClockTotal(c.(waiting := w'), clock);
    DroppedTotal(c.(waiting := w', clock := clock), u.messages);
  }

  lemma UnknownTarget(c: Control, target: Id)
    requires ControlOk(c) && target in c.waiting.unicasts
    ensures !Cached(c.addrs, target)
  {
  }

  lemma DroppedTotal(c: Control, messages: seq<Body>)
    ensures Total(c.(out := c.out.(dropped := c.out.dropped + messages))) == Total(c) + multiset(messages)
  {
    hide Sum, UnicastBags, MulticastBags, PendingBags;
  }

  lemma {:induction false} RememberAllOk(w: Waiting, addrs: seq<B.PeerRecord>, cs: seq<B.PeerRecord>)
    requires WaitingOk(w, addrs) && forall c <- cs :: c.id !in w.unicasts
    ensures WaitingOk(w, RememberAll(addrs, cs))
    decreases |cs|
  {
    hide WaitingOk, Remember;
    if cs != [] {
      RememberOk(w, addrs, cs[0]);
      RememberAllOk(w, Remember(addrs, cs[0]), cs[1..]);
    }
  }

  lemma DeliverOk(c: Control, target: Id, closest: seq<B.PeerRecord>)
    requires ControlOk(c) && forall f <- closest :: f.id !in c.waiting.unicasts
    ensures Deliver(c, target, closest).Success?
    ensures
      var c' := Deliver(c, target, closest).value;
      && ControlOk(c') && Total(c') == Total(c) && target !in c'.waiting.multicasts
      && c'.waiting.unicasts == c.waiting.unicasts
  {
    hide Total, Sum, Cached, WaitingOk, ClockOk, RememberAll, Bodies;
    var w := c.waiting;
    if target in w.multicasts {
      var q := w.multicasts[target];
      var w' := w.(multicasts := w.multicasts - {target});
      EndWait(c, w', target, q.timer);
      RememberAllOk(w', c.addrs, closest);
      DropMulticastsTotal(c, target);
      var c1 := c.(waiting := w');
      CacheTotal(c1, RememberAll(c.addrs, closest));
      var c2 := c1.(addrs := RememberAll(c.addrs, closest));
      ClockTotal(c2, c.clock.(live := c.clock.live - {q.timer}));
      SendTotal(c2.(clock := c.clock.(live := c.clock.live - {q.timer})), MulticastSends(q.messages, closest));
      MulticastSendsBodies(q.messages, closest);
    }
  }

  lemma RestartOk(c: Control, target: Id)
    requires ControlOk(c) && target !in c.waiting.unicasts && target !in c.waiting.multicasts
    ensures Restart(c, target).Success? && ControlOk(Restart(c, target).value) && Total(Restart(c, target).value) == Total(c)
  {
    hide Total, Sum, Cached, Bodies, MaxCount;
    var w := c.waiting;
    if target in w.pending {
      var messages := w.pending[target];
      var count := MaxCount(messages);
      assert messages[0] in messages;
      var c1 := c.(waiting := w.(pending := w.pending - {target}));
      forall timer <- c.clock.live ensures Backed(c1.waiting, c1.clock, timer) {
        assert Backed(c.waiting, c.clock, timer);
      }
      var q := Multicasts(count, messages, c.clock.last + 1);
      AskMulticastOk(c1, target, q);
      DropPendingTotal(c, target);
      AskTotal(c1, target, count);
      PutMulticastsTotal(Ask(c1, target, count), target, q);
    }
  }

  /** A result never fails: no timer is missing, and the assertion that a peer nobody found
      has no known address holds, as do those that nothing else waits for the target. */
  lemma OnResultOk(c: Control, status: Q.Status, target: Id, closest: seq<B.PeerRecord>)
    requires ControlOk(c)
    ensures OnResult(c, status, target, closest).Success?
    ensures ControlOk(OnResult(c, status, target, closest).value)
    ensures Total(OnResult(c, status, target, closest).value) == Total(c)
  {
    hide Total, ControlOk, ResolveAll, Drop, Deliver, Restart;
    ResolveAllOk(c, closest);
    var c1 := ResolveAll(c, closest).value;
    if status != Q.Progress {
      if target in c1.waiting.unicasts {
        DropOk(c1, target);
      } else {
        DeliverOk(c1, target, closest);
        RestartOk(Deliver(c1, target, closest).value, target);
      }
    }
  }

  /** Multicasts that waited for a unicast's query are left without any query when that query
      ends and did not find its target. */
  lemma LeftPending(c: Control, status: Q.Status, target: Id, closest: seq<B.PeerRecord>)
    requires ControlOk(c) && status != Q.Progress && target in c.waiting.pending
    ensures OnResult(c, status, target, closest).Success?
    ensures
      var w := OnResult(c, status, target, closest).value.waiting;
      target in w.pending && target !in w.unicasts && target !in w.multicasts <==>
        target in c.waiting.unicasts && forall f <- closest :: f.id != target
  {
    hide Total, ControlOk, ResolveAll, Sum;
    OnResultOk(c, status, target, closest);
    ResolveAllOk(c, closest);
    ResolveAllPending(c, closest);
    var c1 := ResolveAll(c, closest).value;
    if target in c1.waiting.unicasts {
      DropOk(c1, target);
      TargetsApart(c1, target);
    } else {
      DeliverOk(c1, target, closest);
    }
  }

  lemma TargetsApart(c: Control, target: Id)
    requires ControlOk(c) && target in c.waiting.unicasts
    ensures target !in c.waiting.multicasts
  {
  }

  lemma {:induction false} ResolveAllPending(c: Control, closest: seq<B.PeerRecord>)
    ensures ResolveAll(c, closest).Success? ==> ResolveAll(c, closest).value.waiting.pending == c.waiting.pending
    decreases |closest|
  {
    if closest != [] && Resolve(c, closest[0]).Success? {
      ResolveAllPending(Resolve(c, closest[0]).value, closest[1..]);
    }
  }

  /** A found peer is sent all that waited for it, in order. */
  lemma FoundPeerGetsItsMail(c: Control, found: B.PeerRecord)
    requires ControlOk(c) && found.id in c.waiting.unicasts
    ensures Resolve(c, found).Success?
    ensures
      var c', u := Resolve(c, found).value, c.waiting.unicasts[found.id];
      && |c'.out.sent| == |c.out.sent| + |u.messages| && c'.out.sent[..|c.out.sent|] == c.out.sent
      && (forall i: nat | i < |u.messages| :: c'.out.sent[|c.out.sent| + i] == Sent(u.messages[i], [found.endpoint]))
      && Cached(c'.addrs, found.id) && found.id !in c'.waiting.unicasts
  {
    hide ControlOk, Total;
    ResolveOk(c, found);
    var r := Remember(c.addrs, found);
    assert r[|r| - 1] == found && found in r;
  }

  // Runs

  datatype Event =
    | Unicast(id: Id, body: Body)
    | Multicast(target: Id, mail: Mail)
    | Resulted(status: Q.Status, target: Id, closest: seq<B.PeerRecord>)

  predicate Possible(e: Event) {
    e.Multicast? ==> e.mail.count >= 1
  }

  function Handle(c: Control, e: Event): B.Fallible<Control> {
    match e
    case Unicast(id, body) => Success(OnUnicast(c, id, body))
    case Multicast(target, mail) => Success(OnMulticast(c, target, mail))
    case Resulted(status, target, closest) => OnResult(c, status, target, closest)
  }

  function After(events: seq<Event>): B.Fallible<Control> {
    if events == [] then Success(NewControl)
    else
      match After(events[..|events| - 1])
      case Failure(e) => Failure(e)
      case Success(c) => Handle(c, events[|events| - 1])
  }

  /** The messages handed to the control. */
  function Given(events: seq<Event>): multiset<Body> {
    if events == [] then multiset{}
    else
      Given(events[..|events| - 1]) +
      match events[|events| - 1]
      case Unicast(_, body) => multiset{body}
      case Multicast(_, mail) => multiset{mail.body}
      case Resulted(_, _, _) => multiset{}
  }

  /** In every run no handler fails, and the messages held for a unicast or a multicast,
      pending, sent and dropped are together exactly the messages given. */
  lemma {:induction false} MessagesConserved(events: seq<Event>)
    requires forall e <- events :: Possible(e)
    ensures After(events).Success?
    ensures ControlOk(After(events).value) && Total(After(events).value) == Given(events)
  {
    hide ControlOk, Total, OnUnicast, OnMulticast, OnResult;
    if events == [] {
      NewControlOk();
    } else {
      var before, e := events[..|events| - 1], events[|events| - 1];
      assert e in events;
      MessagesConserved(before);
      var c := After(before).value;
      match e
      case Unicast(id, body) => OnUnicastOk(c, id, body);
      case Multicast(target, mail) => OnMulticastOk(c, target, mail);
      case Resulted(status, target, closest) => OnResultOk(c, status, target, closest);
    }
  }

  lemma NewControlOk()
    ensures ControlOk(NewControl) && Total(NewControl) == multiset{}
  {
  }
}
