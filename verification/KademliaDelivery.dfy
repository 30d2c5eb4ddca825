/** Who gets a message: a unicast goes to the peer with its identifier, a multicast to the
    peers its query found nearest, as many as it asked for. */
module KademliaDelivery {
  import opened Wrappers
  import opened KademliaIds
  import B = KademliaBuckets
  import opened KademliaControl
  import opened KademliaConservation
  import Q = KademliaQuery

  // What one result sends

  /** The addresses are those of the first peers found, count of them or all there are. */
  ghost predicate ToNearest(dests: seq<B.Endpoint>, closest: seq<B.PeerRecord>, count: nat) {
    && |dests| <= count && |dests| <= |closest| && (|dests| == count || |dests| == |closest|)
    && forall i: nat | i < |dests| :: dests[i] == closest[i].endpoint
  }

  /** From position p on these messages went to this address, one after the other. */
  predicate CarriesAt(sent: seq<Sent>, p: nat, messages: seq<Body>, addr: B.Endpoint) {
    p + |messages| <= |sent| && forall i: nat | i < |messages| :: sent[p + i] == Sent(messages[i], [addr])
  }

  ghost predicate Carries(sent: seq<Sent>, messages: seq<Body>, addr: B.Endpoint) {
    exists p: nat :: CarriesAt(sent, p, messages, addr)
  }

  lemma CarriesMore(sent: seq<Sent>, more: seq<Sent>, messages: seq<Body>, addr: B.Endpoint)
    requires Carries(sent, messages, addr)
    ensures Carries(sent + more, messages, addr)
  {
    var p: nat :| CarriesAt(sent, p, messages, addr);
    assert CarriesAt(sent + more, p, messages, addr);
  }

  /** A peer found for which unicasts wait is sent them; for any other nothing is sent. */
  lemma ResolveSends(c: Control, found: B.PeerRecord)
    requires ControlOk(c)
    ensures Resolve(c, found).Success?
    ensures
      var c' := Resolve(c, found).value;
      && c.out.sent <= c'.out.sent
      && (found.id in c.waiting.unicasts ==> Carries(c'.out.sent, c.waiting.unicasts[found.id].messages, found.endpoint))
      && (found.id !in c.waiting.unicasts ==> c' == c)
  {
    hide ControlOk, Remember;
    ResolveOk(c, found);
    if found.id in c.waiting.unicasts {
      assert CarriesAt(Resolve(c, found).value.out.sent, |c.out.sent|, c.waiting.unicasts[found.id].messages, found.endpoint);
    }
  }

  /** Every unicast whose peer is among those found is sent to it, in order. */
  lemma {:induction false} ResolveAllSends(c: Control, closest: seq<B.PeerRecord>, id: Id)
    requires ControlOk(c)
    ensures ResolveAll(c, closest).Success?
    ensures
      var c' := ResolveAll(c, closest).value;
      && c.out.sent <= c'.out.sent
      && (id in c.waiting.unicasts && (exists f <- closest :: f.id == id) ==>
            exists f <- closest :: f.id == id && Carries(c'.out.sent, c.waiting.unicasts[id].messages, f.endpoint))
    decreases |closest|
  {
    hide ControlOk, Resolve, Carries;
    if closest != [] {
      ResolveOk(c, closest[0]);
      var c1 := Resolve(c, closest[0]).value;
      ResolveSends(c, closest[0]);
      ResolveAllSends(c1, closest[1..], id);
      assert closest == [closest[0]] + closest[1..];
      var c' := ResolveAll(c, closest).value;
      if id in c.waiting.unicasts && exists f <- closest :: f.id == id {
        var messages := c.waiting.unicasts[id].messages;
        if closest[0].id == id {
          assert c'.out.sent == c1.out.sent + c'.out.sent[|c1.out.sent|..];
          CarriesMore(c1.out.sent, c'.out.sent[|c1.out.sent|..], messages, closest[0].endpoint);
          assert closest[0] in closest;
        } else {
          var f :| f in closest && f.id == id;
          assert f in closest[1..];
          assert c1.waiting.unicasts[id] == c.waiting.unicasts[id];
          var g :| g in closest[1..] && g.id == id && Carries(c'.out.sent, messages, g.endpoint);
          assert g in closest;
        }
      }
    }
  }

  lemma AddressesAreNearest(closest: seq<B.PeerRecord>, count: nat)
    ensures ToNearest(Addresses(closest, count), closest, count)
  {
  }

  /** When the result of a multicast's query is final, each message it holds goes out, in
      order, to the addresses of the nearest peers found: as many as the message asks for, or
      all of them.  These are the last messages sent. */
  lemma MulticastsGoToNearest(c: Control, status: Q.Status, target: Id, closest: seq<B.PeerRecord>)
    requires ControlOk(c) && status != Q.Progress && target in c.waiting.multicasts
    ensures OnResult(c, status, target, closest).Success?
    ensures
      var sent, held := OnResult(c, status, target, closest).value.out.sent, c.waiting.multicasts[target].messages;
      && |c.out.sent| + |held| <= |sent| && c.out.sent <= sent
      && forall i: nat | i < |held| ::
           && sent[|sent| - |held| + i].body == held[i].body
           && ToNearest(sent[|sent| - |held| + i].dests, closest, held[i].count)
  {
    hide ControlOk, ResolveAll, RememberAll, Addresses, Total, ToNearest;
    OnResultOk(c, status, target, closest);
    ResolveAllOk(c, closest);
    ResolveAllSends(c, closest, target);
    var c1, held := ResolveAll(c, closest).value, c.waiting.multicasts[target].messages;
    NotBoth(c1, target);
    var c2 := Deliver(c1, target, closest).value;
    DeliverOk(c1, target, closest);
    assert c2.out.sent == c1.out.sent + MulticastSends(held, closest);
    assert OnResult(c, status, target, closest).value.out.sent == c2.out.sent;
    forall i: nat | i < |held| ensures ToNearest(Addresses(closest, held[i].count), closest, held[i].count) {
      AddressesAreNearest(closest, held[i].count);
    }
  }

  lemma NotBoth(c: Control, target: Id)
    requires ControlOk(c) && target in c.waiting.multicasts
    ensures target !in c.waiting.unicasts
  {
  }

  /** Unicasts of every peer a result names, final or not, are sent to that peer. */
  lemma FoundPeersGetUnicasts(c: Control, status: Q.Status, target: Id, closest: seq<B.PeerRecord>, id: Id)
    requires ControlOk(c) && id in c.waiting.unicasts && exists f <- closest :: f.id == id
    ensures OnResult(c, status, target, closest).Success?
    ensures
      exists f <- closest :: f.id == id
        && Carries(OnResult(c, status, target, closest).value.out.sent, c.waiting.unicasts[id].messages, f.endpoint)
  {
    hide ControlOk, ResolveAll, RememberAll, Addresses, Total, Carries;
    OnResultOk(c, status, target, closest);
    ResolveAllOk(c, closest);
    ResolveAllSends(c, closest, id);
    var c1, c' := ResolveAll(c, closest).value, OnResult(c, status, target, closest).value;
    var f :| f in closest && f.id == id && Carries(c1.out.sent, c.waiting.unicasts[id].messages, f.endpoint);
    assert c1.out.sent <= c'.out.sent;
    assert c'.out.sent == c1.out.sent + c'.out.sent[|c1.out.sent|..];
    CarriesMore(c1.out.sent, c'.out.sent[|c1.out.sent|..], c.waiting.unicasts[id].messages, f.endpoint);
  }

  /** A unicast to a peer whose address is known goes there at once, and nothing else changes
      but that the address is now the latest one used. */
  lemma KnownPeerGetsItsMail(c: Control, id: Id, body: Body)
    requires Cached(c.addrs, id)
    ensures
      var c' := OnUnicast(c, id, body);
      && (exists r <- c.addrs :: r.id == id && c'.out.sent == c.out.sent + [Sent(body, [r.endpoint])]
                                 && c'.addrs != [] && c'.addrs[|c'.addrs| - 1] == r)
      && multiset(c'.addrs) == multiset(c.addrs)
      && c'.waiting == c.waiting && c'.clock == c.clock && c'.out == c.out.(sent := c'.out.sent)
  {
    NotCached(c.addrs, id);
    var i := B.Position(c.addrs, id);
    assert c.addrs == c.addrs[..i] + [c.addrs[i]] + c.addrs[i + 1..];
    assert c.addrs[i] in c.addrs;
  }

  // Where the addresses of a run come from

  /** Some result named this record. */
  ghost predicate Named(events: seq<Event>, r: B.PeerRecord) {
    exists e <- events :: e.Resulted? && r in e.closest
  }

  /** This message was handed in for this target. */
  ghost predicate HandedIn(events: seq<Event>, target: Id, m: Mail) {
    Multicast(target, m) in events || (m.count == 1 && Unicast(target, m.body) in events)
  }

  /** A unicast, sent to a peer with its identifier that some result named. */
  ghost predicate SentToPeer(events: seq<Event>, s: Sent) {
    exists id, r :: Unicast(id, s.body) in events && Named(events, r) && r.id == id && s.dests == [r.endpoint]
  }

  /** A message for a target, sent to the peers nearest it that a final result named. */
  ghost predicate SentToNearest(events: seq<Event>, s: Sent) {
    exists target, count, status, closest ::
      && HandedIn(events, target, Mail(count, s.body)) && Resulted(status, target, closest) in events
      && status != Q.Progress && ToNearest(s.dests, closest, count)
  }

  ghost predicate SentWell(events: seq<Event>, s: Sent) {
    SentToPeer(events, s) || SentToNearest(events, s)
  }

  ghost predicate Traced(events: seq<Event>, c: Control) {
    && (forall s <- c.out.sent :: SentWell(events, s))
    && (forall id <- c.waiting.unicasts, b <- c.waiting.unicasts[id].messages :: Unicast(id, b) in events)
    && (forall id <- c.waiting.multicasts, m <- c.waiting.multicasts[id].messages :: HandedIn(events, id, m))
    && (forall id <- c.waiting.pending, m <- c.waiting.pending[id] :: HandedIn(events, id, m))
    && (forall r <- c.addrs :: Named(events, r))
  }

  lemma MoreEvents(events: seq<Event>, e: Event, c: Control)
    requires Traced(events, c)
    ensures Traced(events + [e], c)
  {
    var more := events + [e];
    assert forall x <- events :: x in more;
    forall r | Named(events, r) ensures Named(more, r) {
      var x :| x in events && x.Resulted? && r in x.closest;
      assert x in more;
    }
    forall s <- c.out.sent ensures SentWell(more, s) {
      assert SentWell(events, s);
      if SentToPeer(events, s) {
        var id, r :| Unicast(id, s.body) in events && Named(events, r) && r.id == id && s.dests == [r.endpoint];
        assert Unicast(id, s.body) in more && Named(more, r);
      } else {
        var target, count, status, closest :|
          && HandedIn(events, target, Mail(count, s.body)) && Resulted(status, target, closest) in events
          && status != Q.Progress && ToNearest(s.dests, closest, count);
        assert HandedIn(more, target, Mail(count, s.body)) && Resulted(status, target, closest) in more;
      }
    }
  }

  lemma SentMoreTraced(events: seq<Event>, c: Control, c': Control, more: seq<Sent>)
    requires Traced(events, c) && c'.waiting == c.waiting && c'.addrs == c.addrs && c'.out.sent == c.out.sent + more
    requires forall s <- more :: SentWell(events, s)
    ensures Traced(events, c')
  {
    hide SentWell, HandedIn, Named;
  }

  lemma UnicastTraced(events: seq<Event>, c: Control, id: Id, body: Body)
    requires Traced(events, c) && Unicast(id, body) in events
    ensures Traced(events, OnUnicast(c, id, body))
  {
    hide SentToNearest;
    NotCached(c.addrs, id);
    var i := B.Position(c.addrs, id);
    if i < |c.addrs| {
      var r := c.addrs[i];
      assert r in c.addrs;
      assert SentToPeer(events, Sent(body, [r.endpoint]));
    }
  }

  lemma MulticastTraced(events: seq<Event>, c: Control, target: Id, m: Mail)
    requires Traced(events, c) && Multicast(target, m) in events
    ensures Traced(events, OnMulticast(c, target, m))
  {
    hide SentWell, Named;
  }

  lemma RememberTraced(events: seq<Event>, addrs: seq<B.PeerRecord>, r: B.PeerRecord)
    requires (forall a <- addrs :: Named(events, a)) && Named(events, r)
    ensures forall a <- Remember(addrs, r) :: Named(events, a)
  {
    hide Named;
    var kept := B.Without(addrs, r.id);
    assert forall x <- kept :: x in addrs;
    assert forall x <- Remember(addrs, r) :: x == r || x in kept;
  }

  lemma {:induction false} RememberAllTraced(events: seq<Event>, addrs: seq<B.PeerRecord>, cs: seq<B.PeerRecord>)
    requires (forall a <- addrs :: Named(events, a)) && forall r <- cs :: Named(events, r)
    ensures forall a <- RememberAll(addrs, cs) :: Named(events, a)
    decreases |cs|
  {
    hide Named, Remember;
    if cs != [] {
      RememberTraced(events, addrs, cs[0]);
      RememberAllTraced(events, Remember(addrs, cs[0]), cs[1..]);
    }
  }

  lemma ResolveTraced(events: seq<Event>, c: Control, found: B.PeerRecord)
    requires Traced(events, c) && Named(events, found) && Resolve(c, found).Success?
    ensures Traced(events, Resolve(c, found).value)
  {
    hide Remember, SentToNearest, Named;
    if found.id in c.waiting.unicasts {
      RememberTraced(events, c.addrs, found);
      var messages := c.waiting.unicasts[found.id].messages;
      forall s <- UnicastSends(messages, found.endpoint) ensures SentToPeer(events, s) {
        assert s.body in messages;
      }
    }
  }

  lemma {:induction false} ResolveAllTraced(events: seq<Event>, c: Control, closest: seq<B.PeerRecord>)
    requires Traced(events, c) && (forall f <- closest :: Named(events, f)) && ResolveAll(c, closest).Success?
    ensures Traced(events, ResolveAll(c, closest).value)
    decreases |closest|
  {
    hide Traced, Resolve, Named;
    if closest != [] {
      ResolveTraced(events, c, closest[0]);
      ResolveAllTraced(events, Resolve(c, closest[0]).value, closest[1..]);
    }
  }

  lemma DeliverTraced(events: seq<Event>, c: Control, status: Q.Status, target: Id, closest: seq<B.PeerRecord>)
    requires Traced(events, c) && Resulted(status, target, closest) in events && status != Q.Progress
    requires Deliver(c, target, closest).Success?
    ensures Traced(events, Deliver(c, target, closest).value)
  {
    hide RememberAll, Addresses, SentToPeer, Named, ToNearest, HandedIn;
    if target in c.waiting.multicasts {
      NamedByResult(events, status, target, closest);
      RememberAllTraced(events, c.addrs, closest);
      var held := c.waiting.multicasts[target].messages;
      forall s <- MulticastSends(held, closest) ensures SentToNearest(events, s) {
        var i: nat :| i < |held| && s == Sent(held[i].body, Addresses(closest, held[i].count));
        AddressesAreNearest(closest, held[i].count);
        assert held[i] in held && Mail(held[i].count, s.body) == held[i];
      }
    }
  }

  lemma NamedByResult(events: seq<Event>, status: Q.Status, target: Id, closest: seq<B.PeerRecord>)
    requires Resulted(status, target, closest) in events
    ensures forall f <- closest :: Named(events, f)
  {
  }

  lemma ResultTraced(events: seq<Event>, c: Control, status: Q.Status, target: Id, closest: seq<B.PeerRecord>)
    requires Traced(events, c) && Resulted(status, target, closest) in events && OnResult(c, status, target, closest).Success?
    ensures Traced(events, OnResult(c, status, target, closest).value)
  {
    hide Traced, ResolveAll, Drop, Deliver, Restart, Named;
    NamedByResult(events, status, target, closest);
    ResolveAllTraced(events, c, closest);
    var c1 := ResolveAll(c, closest).value;
    if status != Q.Progress {
      if target in c1.waiting.unicasts {
        DropTraced(events, c1, target);
      } else {
        DeliverTraced(events, c1, status, target, closest);
        RestartTraced(events, Deliver(c1, target, closest).value, target);
      }
    }
  }

  lemma DropTraced(events: seq<Event>, c: Control, target: Id)
    requires Traced(events, c) && target in c.waiting.unicasts && Drop(c, target).Success?
    ensures Traced(events, Drop(c, target).value)
  {
    hide SentWell, Named, HandedIn, Cached;
  }

  lemma RestartTraced(events: seq<Event>, c: Control, target: Id)
    requires Traced(events, c) && Restart(c, target).Success?
    ensures Traced(events, Restart(c, target).value)
  {
    hide SentWell, Named, HandedIn, MaxCount;
  }

  /** In every run, whatever was sent went where it should: a unicast to a peer that a result
      named with its identifier, anything else to the peers nearest its target that a final
      result for that target named, as many as the message asks for. */
  lemma {:induction false} MailGoesWhereItShould(events: seq<Event>)
    requires forall e <- events :: Possible(e)
    ensures After(events).Success? && Traced(events, After(events).value)
  {
    hide Traced, OnUnicast, OnMulticast, OnResult;
    MessagesConserved(events);
    if events != [] {
      var before, e := events[..|events| - 1], events[|events| - 1];
      assert events == before + [e] && forall x <- before :: x in events;
      MailGoesWhereItShould(before);
      var c := After(before).value;
      MoreEvents(before, e, c);
      match e
      case Unicast(id, body) => UnicastTraced(events, c, id, body);
      case Multicast(target, mail) => MulticastTraced(events, c, target, mail);
      case Resulted(status, target, closest) => ResultTraced(events, c, status, target, closest);
    } else {
      NothingSent();
    }
  }

  lemma NothingSent()
    ensures Traced([], NewControl)
  {
  }

  // Which queries are asked

  /** As many queries were asked as timers set, and the one of every live timer asks for its
      target, and for as many peers as what waits for it wants. */
  ghost predicate QueriesMatch(c: Control) {
    && |c.out.queries| == c.clock.last
    && (forall timer <- c.clock.live :: 1 <= timer <= c.clock.last && c.out.queries[timer - 1].0 == c.clock.live[timer])
    && (forall id <- c.waiting.unicasts ::
          1 <= c.waiting.unicasts[id].timer <= c.clock.last && c.out.queries[c.waiting.unicasts[id].timer - 1] == (id, 1))
    && (forall id <- c.waiting.multicasts ::
          && 1 <= c.waiting.multicasts[id].timer <= c.clock.last
          && c.out.queries[c.waiting.multicasts[id].timer - 1] == (id, c.waiting.multicasts[id].count))
  }

  /** A step that asks nothing. */
  ghost predicate AsksNothing(c: Control, c': Control) {
    && c'.out.queries == c.out.queries && c'.clock.last == c.clock.last
    && (forall timer <- c'.clock.live :: timer in c.clock.live && c'.clock.live[timer] == c.clock.live[timer])
    && (forall id <- c'.waiting.unicasts :: id in c.waiting.unicasts && c'.waiting.unicasts[id].timer == c.waiting.unicasts[id].timer)
    && (forall id <- c'.waiting.multicasts ::
          && id in c.waiting.multicasts && c'.waiting.multicasts[id].timer == c.waiting.multicasts[id].timer
          && c'.waiting.multicasts[id].count == c.waiting.multicasts[id].count)
  }

  lemma AsksNothingMatch(c: Control, c': Control)
    requires QueriesMatch(c) && AsksNothing(c, c')
    ensures QueriesMatch(c')
  {
  }

  lemma AsksNothingThen(c: Control, c1: Control, c2: Control)
    requires AsksNothing(c, c1) && AsksNothing(c1, c2)
    ensures AsksNothing(c, c2)
  {
  }

  lemma ResolveAsksNothing(c: Control, found: B.PeerRecord)
    requires Resolve(c, found).Success?
    ensures AsksNothing(c, Resolve(c, found).value)
  {
    hide Remember;
  }

  lemma {:induction false} ResolveAllAsksNothing(c: Control, closest: seq<B.PeerRecord>)
    requires ResolveAll(c, closest).Success?
    ensures AsksNothing(c, ResolveAll(c, closest).value)
    decreases |closest|
  {
    hide Resolve, AsksNothing;
    if closest != [] {
      var c1 := Resolve(c, closest[0]).value;
      ResolveAsksNothing(c, closest[0]);
      ResolveAllAsksNothing(c1, closest[1..]);
      AsksNothingThen(c, c1, ResolveAll(c, closest).value);
    } else {
      NothingAsksNothing(c);
    }
  }

  lemma NothingAsksNothing(c: Control)
    ensures AsksNothing(c, c)
  {
  }

  lemma DropAsksNothing(c: Control, target: Id)
    requires target in c.waiting.unicasts && Drop(c, target).Success?
    ensures AsksNothing(c, Drop(c, target).value)
  {
    hide Cached;
  }

  lemma DeliverAsksNothing(c: Control, target: Id, closest: seq<B.PeerRecord>)
    requires Deliver(c, target, closest).Success?
    ensures AsksNothing(c, Deliver(c, target, closest).value)
  {
    hide RememberAll, Addresses;
  }

  /** What starts over asks for as many peers as the most demanding message. */
  lemma {:induction false} MaxIsAsked(messages: seq<Mail>)
    requires messages != []
    ensures exists m <- messages :: m.count == MaxCount(messages)
  {
    if |messages| > 1 && messages[0].count <= MaxCount(messages[1..]) {
      MaxIsAsked(messages[1..]);
      var m :| m in messages[1..] && m.count == MaxCount(messages[1..]);
      assert m in messages;
    } else {
      assert |messages| == 1 ==> messages[1..] == [];
      assert messages[0] in messages && messages[0].count == MaxCount(messages);
    }
  }

  lemma ResultMatches(c: Control, status: Q.Status, target: Id, closest: seq<B.PeerRecord>)
    requires QueriesMatch(c) && OnResult(c, status, target, closest).Success?
    ensures QueriesMatch(OnResult(c, status, target, closest).value)
  {
    hide QueriesMatch, AsksNothing, ResolveAll, Drop, Deliver, Restart;
    ResolveAllAsksNothing(c, closest);
    var c1 := ResolveAll(c, closest).value;
    AsksNothingMatch(c, c1);
    if status != Q.Progress {
      if target in c1.waiting.unicasts {
        DropAsksNothing(c1, target);
        AsksNothingMatch(c1, Drop(c1, target).value);
      } else {
        var c2 := Deliver(c1, target, closest).value;
        DeliverAsksNothing(c1, target, closest);
        AsksNothingMatch(c1, c2);
        RestartMatches(c2, target);
      }
    }
  }

  lemma AskUnicastsMatch(c: Control, id: Id, messages: seq<Body>)
    requires QueriesMatch(c)
    ensures QueriesMatch(PutUnicasts(Ask(c, id, 1), id, Unicasts(messages, c.clock.last + 1)))
  {
  }

  lemma AskMulticastsMatch(c: Control, target: Id, count: nat, messages: seq<Mail>)
    requires QueriesMatch(c)
    ensures QueriesMatch(PutMulticasts(Ask(c, target, count), target, Multicasts(count, messages, c.clock.last + 1)))
  {
  }

  lemma RestartMatches(c: Control, target: Id)
    requires QueriesMatch(c) && Restart(c, target).Success?
    ensures QueriesMatch(Restart(c, target).value)
  {
    hide QueriesMatch, MaxCount;
    if target in c.waiting.pending {
      var messages := c.waiting.pending[target];
      var c1 := c.(waiting := c.waiting.(pending := c.waiting.pending - {target}));
      LessPending(c, c1);
      AskMulticastsMatch(c1, target, MaxCount(messages), messages);
    }
  }

  lemma LessPending(c: Control, c': Control)
    requires QueriesMatch(c) && c' == c.(waiting := c.waiting.(pending := c'.waiting.pending), addrs := c'.addrs, out := c'.out)
    requires c'.out.queries == c.out.queries
    ensures QueriesMatch(c')
  {
  }

  lemma JoinsMatch(c: Control, c': Control)
    requires QueriesMatch(c) && c' == c.(waiting := c'.waiting)
    requires c'.waiting.unicasts.Keys == c.waiting.unicasts.Keys && c'.waiting.multicasts.Keys == c.waiting.multicasts.Keys
    requires forall id <- c.waiting.unicasts.Keys :: c'.waiting.unicasts[id].timer == c.waiting.unicasts[id].timer
    requires forall id <- c.waiting.multicasts.Keys ::
      c'.waiting.multicasts[id].timer == c.waiting.multicasts[id].timer && c'.waiting.multicasts[id].count == c.waiting.multicasts[id].count
    ensures QueriesMatch(c')
  {
    hide QueriesMatch;
    assert AsksNothing(c, c') by {
      assert forall id <- c'.waiting.unicasts :: id in c.waiting.unicasts.Keys;
      assert forall id <- c'.waiting.multicasts :: id in c.waiting.multicasts.Keys;
    }
    AsksNothingMatch(c, c');
  }

  lemma UnicastMatches(c: Control, id: Id, body: Body)
    requires QueriesMatch(c)
    ensures QueriesMatch(OnUnicast(c, id, body))
  {
    hide QueriesMatch;
    var c', w := OnUnicast(c, id, body), c.waiting;
    if B.Position(c.addrs, id) < |c.addrs| {
      LessPending(c, c');
    } else if id in w.multicasts || id in w.unicasts {
      JoinsMatch(c, c');
    } else {
      AskUnicastsMatch(c, id, [body]);
    }
  }

  lemma MulticastMatches(c: Control, target: Id, m: Mail)
    requires QueriesMatch(c)
    ensures QueriesMatch(OnMulticast(c, target, m))
  {
    hide QueriesMatch;
    if target in c.waiting.multicasts || target in c.waiting.unicasts {
      JoinsMatch(c, OnMulticast(c, target, m));
    } else {
      AskMulticastsMatch(c, target, m.count, [m]);
    }
  }

  /** In every run, what waits for a target waits for a query of its own that was asked, for
      that target and for one peer, or for as many as the multicast wants. */
  lemma {:induction false} EveryWaitHasItsQuery(events: seq<Event>)
    requires forall e <- events :: Possible(e)
    ensures After(events).Success? && QueriesMatch(After(events).value)
  {
    hide QueriesMatch, OnUnicast, OnMulticast, OnResult;
    MessagesConserved(events);
    if events != [] {
      var before, e := events[..|events| - 1], events[|events| - 1];
      assert forall x <- before :: x in events;
      EveryWaitHasItsQuery(before);
      var c := After(before).value;
      match e
      case Unicast(id, body) => UnicastMatches(c, id, body);
      case Multicast(target, mail) => MulticastMatches(c, target, mail);
      case Resulted(status, target, closest) => ResultMatches(c, status, target, closest);
    } else {
      NothingAsked();
    }
  }

  lemma NothingAsked()
    ensures QueriesMatch(NewControl)
  {
  }

  // Where a multicast is put

  /** A multicast waits for another query of its target to end exactly if there is one that
      looks for a single peer by its identifier or asks for fewer peers; else it is the last
      message of the query that is live, or of a new one. */
  lemma MulticastPlaced(c: Control, target: Id, m: Mail)
    requires ControlOk(c)
    ensures
      var c', w := OnMulticast(c, target, m), c.waiting;
      var w' := c'.waiting;
      && w'.unicasts == w.unicasts
      && (if target in w.unicasts || (target in w.multicasts && w.multicasts[target].count < m.count) then
            && c' == c.(waiting := w') && w'.multicasts == w.multicasts
            && target in w'.pending && w'.pending - {target} == w.pending - {target}
            && w'.pending[target] == (if target in w.pending then w.pending[target] else []) + [m]
          else
            && w'.pending == w.pending
            && target in w'.multicasts && w'.multicasts - {target} == w.multicasts - {target}
            && w'.multicasts[target].messages == (if target in w.multicasts then w.multicasts[target].messages else []) + [m]
            && w'.multicasts[target].count == (if target in w.multicasts then w.multicasts[target].count else m.count)
            && |c'.out.queries| == |c.out.queries| + if target in w.multicasts then 0 else 1)
  {
    hide Cached, ClockOk;
  }

  /** A unicast to a peer whose address is not known joins, as the last message, a multicast
      query of that target as a message for one peer, else the peer's own query, which is
      started with it if there is none. */
  lemma UnicastPlaced(c: Control, id: Id, body: Body)
    requires !Cached(c.addrs, id)
    ensures
      var c', w := OnUnicast(c, id, body), c.waiting;
      var w' := c'.waiting;
      && c'.addrs == c.addrs && c'.out.sent == c.out.sent && w'.pending == w.pending
      && (if id in w.multicasts then
            && w' == w.(multicasts := w'.multicasts) && w'.multicasts - {id} == w.multicasts - {id} && id in w'.multicasts
            && w'.multicasts[id].messages == w.multicasts[id].messages + [Mail(1, body)]
            && w'.multicasts[id].count == w.multicasts[id].count && c'.out == c.out
          else
            && w' == w.(unicasts := w'.unicasts) && w'.unicasts - {id} == w.unicasts - {id} && id in w'.unicasts
            && w'.unicasts[id].messages == (if id in w.unicasts then w.unicasts[id].messages else []) + [body]
            && c'.out.queries == if id in w.unicasts then c.out.queries else c.out.queries + [(id, 1)])
  {
    NotCached(c.addrs, id);
  }

  /** When the query of a target ends without having been the single-peer one, or with its peer
      found, all that was postponed for the target starts over, in order, with a query for as
      many peers as the most demanding of it wants. */
  lemma PostponedStartsOver(c: Control, status: Q.Status, target: Id, closest: seq<B.PeerRecord>)
    requires ControlOk(c) && status != Q.Progress && target in c.waiting.pending
    requires target in c.waiting.unicasts ==> exists f <- closest :: f.id == target
    ensures OnResult(c, status, target, closest).Success?
    ensures
      var c' := OnResult(c, status, target, closest).value;
      && target !in c'.waiting.pending && target in c'.waiting.multicasts
      && var q := c'.waiting.multicasts[target];
      && q.messages == c.waiting.pending[target]
      && (forall m <- q.messages :: m.count <= q.count) && (exists m <- q.messages :: m.count == q.count)
      && c'.out.queries == c.out.queries + [(target, q.count)]
  {
    hide ControlOk, ResolveAll, Deliver, Total, MaxCount, Drop, AsksNothing;
    OnResultOk(c, status, target, closest);
    ResolveAllOk(c, closest);
    ResolveAllPending(c, closest);
    ResolveAllAsksNothing(c, closest);
    var c1 := ResolveAll(c, closest).value;
    DeliverOk(c1, target, closest);
    var c2 := Deliver(c1, target, closest).value;
    DeliverAsksNothing(c1, target, closest);
    AsksNothingThen(c, c1, c2);
    assert c2.out.queries == c.out.queries by { SameQueries(c, c2); }
    assert c2.waiting.pending == c1.waiting.pending by { DeliverPending(c1, target, closest); }
    PendingSome(c, target);
    MaxIsAsked(c.waiting.pending[target]);
  }

  lemma SameQueries(c: Control, c': Control)
    requires AsksNothing(c, c')
    ensures c'.out.queries == c.out.queries
  {
  }

  lemma DeliverPending(c: Control, target: Id, closest: seq<B.PeerRecord>)
    requires Deliver(c, target, closest).Success?
    ensures Deliver(c, target, closest).value.waiting.pending == c.waiting.pending
  {
  }

  lemma PendingSome(c: Control, target: Id)
    requires ControlOk(c) && target in c.waiting.pending
    ensures c.waiting.pending[target] != []
  {
  }

  // The cache of addresses

  /** An address used is the latest one; of the others at most the oldest goes, and only when
      there are 160 of them. */
  lemma RememberedLast(addrs: seq<B.PeerRecord>, r: B.PeerRecord)
    requires B.Distinct(addrs) && |addrs| <= 160
    ensures
      var addrs', kept := Remember(addrs, r), B.Without(addrs, r.id);
      && B.Distinct(addrs') && 1 <= |addrs'| <= 160 && addrs'[|addrs'| - 1] == r
      && (if |kept| < 160 then addrs' == kept + [r] else addrs' == kept[1..] + [r])
      && (forall x :: x in kept <==> x in addrs && x.id != r.id)
  {
    hide B.Ids;
    B.WithoutKeeps(addrs, r.id);
    var kept := B.Without(addrs, r.id);
    if |kept| >= 160 {
      assert kept == [kept[0]] + kept[1..];
      B.DistinctParts([kept[0]], kept[1..]);
      TailIds(kept);
      B.AppendDistinct(kept[1..], r);
    } else {
      B.AppendDistinct(kept, r);
    }
  }

  lemma TailIds(records: seq<B.PeerRecord>)
    requires records != []
    ensures B.Ids(records[1..]) <= B.Ids(records)
  {
  }

  predicate CacheOk(addrs: seq<B.PeerRecord>) {
    B.Distinct(addrs) && |addrs| <= 160
  }

  lemma {:induction false} RememberAllOk(addrs: seq<B.PeerRecord>, cs: seq<B.PeerRecord>)
    requires CacheOk(addrs)
    ensures CacheOk(RememberAll(addrs, cs))
    decreases |cs|
  {
    hide Remember;
    if cs != [] {
      RememberedLast(addrs, cs[0]);
      RememberAllOk(Remember(addrs, cs[0]), cs[1..]);
    }
  }

  predicate EndsWith(addrs: seq<B.PeerRecord>, last: seq<B.PeerRecord>) {
    |last| <= |addrs| && addrs[|addrs| - |last|..] == last
  }

  /** Taking out a record leaves the last ones in their place, if it is none of them. */
  lemma WithoutEnds(addrs: seq<B.PeerRecord>, last: seq<B.PeerRecord>, id: Id)
    requires EndsWith(addrs, last) && forall r <- last :: r.id != id
    ensures EndsWith(B.Without(addrs, id), last)
  {
    var n, i := |addrs| - |last|, B.Position(addrs, id);
    assert addrs == addrs[..n] + last;
    forall j: nat | n <= j < |addrs| ensures addrs[j].id != id {
      assert last[j - n] == addrs[j] && last[j - n] in last;
    }
    if i < |addrs| {
      assert B.Without(addrs, id) == addrs[..i] + addrs[i + 1..n] + last;
    }
  }

  lemma RememberedAfter(addrs: seq<B.PeerRecord>, last: seq<B.PeerRecord>, r: B.PeerRecord)
    requires EndsWith(addrs, last) && (forall x <- last :: x.id != r.id) && |last| < 160
    ensures EndsWith(Remember(addrs, r), last + [r])
  {
    hide B.Without;
    var kept := B.Without(addrs, r.id);
    WithoutEnds(addrs, last, r.id);
    var before := kept[..|kept| - |last|];
    assert kept == before + last;
    assert kept + [r] == before + (last + [r]);
    if |kept| >= 160 {
      assert kept[1..] + [r] == before[1..] + (last + [r]);
    }
  }

  lemma {:induction false} RememberedAllAfter(addrs: seq<B.PeerRecord>, last: seq<B.PeerRecord>, cs: seq<B.PeerRecord>)
    requires CacheOk(addrs) && EndsWith(addrs, last) && B.Distinct(last + cs) && |last| + |cs| <= 160
    ensures EndsWith(RememberAll(addrs, cs), last + cs)
    decreases |cs|
  {
    hide Remember, EndsWith;
    if cs == [] {
      assert last + cs == last;
    } else {
      assert last + cs == last + [cs[0]] + cs[1..];
      FirstDiffers(last, cs);
      RememberedAfter(addrs, last, cs[0]);
      RememberedLast(addrs, cs[0]);
      RememberedAllAfter(Remember(addrs, cs[0]), last + [cs[0]], cs[1..]);
    }
  }

  lemma FirstDiffers(last: seq<B.PeerRecord>, cs: seq<B.PeerRecord>)
    requires cs != [] && B.Distinct(last + cs)
    ensures forall r <- last :: r.id != cs[0].id
  {
    forall r <- last ensures r.id != cs[0].id {
      var i: nat :| i < |last| && last[i] == r;
      assert (last + cs)[i] == r && (last + cs)[|last|] == cs[0];
    }
  }

  /** The peers that a multicast's query found are the ones whose addresses were learnt last, in
      the order found. */
  lemma FoundAreRemembered(c: Control, status: Q.Status, target: Id, closest: seq<B.PeerRecord>)
    requires ControlOk(c) && CacheOk(c.addrs) && status != Q.Progress && target in c.waiting.multicasts
    requires B.Distinct(closest) && |closest| <= 160
    ensures OnResult(c, status, target, closest).Success?
    ensures EndsWith(OnResult(c, status, target, closest).value.addrs, closest)
  {
    hide ControlOk, ResolveAll, RememberAll, Addresses, Total, EndsWith, CacheOk, B.Distinct;
    OnResultOk(c, status, target, closest);
    ResolveAllOk(c, closest);
    ResolveAllSends(c, closest, target);
    var c1 := ResolveAll(c, closest).value;
    NotBoth(c1, target);
    DeliverOk(c1, target, closest);
    ResolveAllCache(c, closest);
    var c2 := Deliver(c1, target, closest).value;
    assert OnResult(c, status, target, closest).value.addrs == c2.addrs == RememberAll(c1.addrs, closest);
    assert EndsWith(c1.addrs, []) by { NothingLast(c1.addrs); }
    assert [] + closest == closest;
    RememberedAllAfter(c1.addrs, [], closest);
  }

  lemma NothingLast(addrs: seq<B.PeerRecord>)
    ensures EndsWith(addrs, [])
  {
    assert addrs[|addrs|..] == [];
  }

  lemma {:induction false} ResolveAllCache(c: Control, closest: seq<B.PeerRecord>)
    requires CacheOk(c.addrs) && ResolveAll(c, closest).Success?
    ensures CacheOk(ResolveAll(c, closest).value.addrs)
    decreases |closest|
  {
    hide Remember;
    if closest != [] {
      RememberedLast(c.addrs, closest[0]);
      ResolveAllCache(Resolve(c, closest[0]).value, closest[1..]);
    }
  }

  lemma StepCache(c: Control, e: Event)
    requires CacheOk(c.addrs) && Handle(c, e).Success?
    ensures CacheOk(Handle(c, e).value.addrs)
  {
    hide ResolveAll, RememberAll;
    match e
    case Unicast(id, body) =>
      var i := B.Position(c.addrs, id);
      if i < |c.addrs| {
        B.WithoutKeeps(c.addrs, id);
        B.AppendDistinct(B.Without(c.addrs, id), c.addrs[i]);
        assert c.addrs[i] in c.addrs;
      }
    case Multicast(target, mail) =>
    case Resulted(status, target, closest) =>
      ResolveAllCache(c, closest);
      RememberAllOk(ResolveAll(c, closest).value.addrs, closest);
  }

  /** In every run the cache holds at most 160 addresses, of different peers. */
  lemma {:induction false} CacheStaysSmall(events: seq<Event>)
    requires After(events).Success?
    ensures CacheOk(After(events).value.addrs)
  {
    hide CacheOk, Handle;
    if events == [] {
      assert CacheOk(NewControl.addrs) by { NewCache(); }
    } else {
      CacheStaysSmall(events[..|events| - 1]);
      StepCache(After(events[..|events| - 1]).value, events[|events| - 1]);
    }
  }

  lemma NewCache()
    ensures CacheOk(NewControl.addrs)
  {
  }
}
