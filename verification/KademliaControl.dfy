/** Sending by identifier: messages wait until a query tells the address of their
    destination, and then go out, or are dropped when it cannot be found. */
module KademliaControl {
  import opened Wrappers
  import opened KademliaIds
  import opened KademliaBuckets
  import Q = KademliaQuery

  type Body(==, !new, 0)

  /** A message that goes to at most count receivers. */
  datatype Mail = Mail(count: nat, body: Body)

  datatype Unicasts = Unicasts(messages: seq<Body>, timer: nat)

  datatype Multicasts = Multicasts(count: nat, messages: seq<Mail>, timer: nat)

  /** Messages that wait for a query of their own, or for another one of the same target to end. */
  datatype Waiting = Waiting(unicasts: map<Id, Unicasts>, multicasts: map<Id, Multicasts>, pending: map<Id, seq<Mail>>)

  datatype Sent = Sent(body: Body, dests: seq<Endpoint>)

  datatype Outputs = Outputs(sent: seq<Sent>, dropped: seq<Body>, queries: seq<(Id, nat)>)

  /** The live query timers, each with its target. */
  datatype Clock = Clock(live: map<nat, Id>, last: nat)

  /** The addresses sent to lately, the latest last. */
  datatype Control = Control(waiting: Waiting, addrs: seq<PeerRecord>, clock: Clock, out: Outputs)

  const CACHE_SIZE: nat := 160

  const NewControl := Control(Waiting(map[], map[], map[]), [], Clock(map[], 0), Outputs([], [], []))

  // The address cache

  predicate Cached(addrs: seq<PeerRecord>, id: Id) {
    exists c <- addrs :: c.id == id
  }

  /** A pushed address is the latest; the oldest one goes when there are too many. */
  function Remember(addrs: seq<PeerRecord>, c: PeerRecord): (r: seq<PeerRecord>)
    ensures forall id :: Cached(r, id) ==> id == c.id || Cached(addrs, id)
  {
    var kept := Without(addrs, c.id);
    assert forall x <- kept :: x in addrs;
    var r := (if |kept| >= CACHE_SIZE then kept[1..] else kept) + [c];
    assert forall x <- r :: x == c || x in kept;
    r
  }

  function RememberAll(addrs: seq<PeerRecord>, cs: seq<PeerRecord>): seq<PeerRecord>
    decreases |cs|
  {
    if cs == [] then addrs else RememberAll(Remember(addrs, cs[0]), cs[1..])
  }

  // Timers and queries

  function SetTimer(c: Clock, target: Id): Clock {
    Clock(c.live[c.last + 1 := target], c.last + 1)
  }

  function Ask(c: Control, target: Id, count: nat): Control {
    c.(clock := SetTimer(c.clock, target), out := c.out.(queries := c.out.queries + [(target, count)]))
  }

  function UnsetTimer(c: Clock, timer: nat): Fallible<Clock> {
    if timer in c.live then Success(c.(live := c.live - {timer})) else Failure(TimerNotFound)
  }

  // Handlers

  function Send(c: Control, s: seq<Sent>): Control {
    c.(out := c.out.(sent := c.out.sent + s))
  }

  function PutUnicasts(c: Control, id: Id, u: Unicasts): Control {
    c.(waiting := c.waiting.(unicasts := c.waiting.unicasts[id := u]))
  }

  function PutMulticasts(c: Control, id: Id, m: Multicasts): Control {
    c.(waiting := c.waiting.(multicasts := c.waiting.multicasts[id := m]))
  }

  function Pend(c: Control, target: Id, m: Mail): Control {
    var before := if target in c.waiting.pending then c.waiting.pending[target] else [];
    c.(waiting := c.waiting.(pending := c.waiting.pending[target := before + [m]]))
  }

  /** A message to one peer: sent at once if the address is known, else it joins a query. */
  function OnUnicast(c: Control, id: Id, body: Body): Control {
    var i, w := Position(c.addrs, id), c.waiting;
    if i < |c.addrs| then
      var contact := c.addrs[i];
      Send(c.(addrs := Without(c.addrs, id) + [contact]), [Sent(body, [contact.endpoint])])
    else if id in w.multicasts then
      PutMulticasts(c, id, w.multicasts[id].(messages := w.multicasts[id].messages + [Mail(1, body)]))
    else if id in w.unicasts then
      PutUnicasts(c, id, w.unicasts[id].(messages := w.unicasts[id].messages + [body]))
    else
      PutUnicasts(Ask(c, id, 1), id, Unicasts([body], c.clock.last + 1))
  }

  /** A message to the peers nearest a target: it joins a query that asks for enough. */
  function OnMulticast(c: Control, target: Id, m: Mail): Control {
    var w := c.waiting;
    if target in w.multicasts then
      var q := w.multicasts[target];
      if m.count <= q.count then PutMulticasts(c, target, q.(messages := q.messages + [m])) else Pend(c, target, m)
    else if target in w.unicasts then
      Pend(c, target, m)
    else
      PutMulticasts(Ask(c, target, m.count), target, Multicasts(m.count, [m], c.clock.last + 1))
  }

  function UnicastSends(messages: seq<Body>, addr: Endpoint): seq<Sent> {
    seq(|messages|, i requires 0 <= i < |messages| => Sent(messages[i], [addr]))
  }

  /** A found peer resolves the unicasts waiting for it. */
  function Resolve(c: Control, found: PeerRecord): Fallible<Control> {
    var w := c.waiting;
    if found.id !in w.unicasts then Success(c)
    else
      var u := w.unicasts[found.id];
      match UnsetTimer(c.clock, u.timer)
      case Failure(e) => Failure(e)
      case Success(clock) =>
        var c' := c.(waiting := w.(unicasts := w.unicasts - {found.id}), addrs := Remember(c.addrs, found), clock := clock);
        Success(Send(c', UnicastSends(u.messages, found.endpoint)))
  }

  function ResolveAll(c: Control, closest: seq<PeerRecord>): Fallible<Control>
    decreases |closest|
  {
    if closest == [] then Success(c)
    else match Resolve(c, closest[0])
      case Failure(e) => Failure(e)
      case Success(next) => ResolveAll(next, closest[1..])
  }

  function Addresses(closest: seq<PeerRecord>, count: nat): seq<Endpoint> {
    var n := if count < |closest| then count else |closest|;
    seq(n, i requires 0 <= i < n => closest[i].endpoint)
  }

  function MulticastSends(messages: seq<Mail>, closest: seq<PeerRecord>): seq<Sent> {
    seq(|messages|, i requires 0 <= i < |messages| => Sent(messages[i].body, Addresses(closest, messages[i].count)))
  }

  /** The unicasts of a target that its query did not find. */
  function Drop(c: Control, target: Id): Fallible<Control>
    requires target in c.waiting.unicasts
  {
    var w := c.waiting;
    match UnsetTimer(c.clock, w.unicasts[target].timer)
    case Failure(e) => Failure(e)
    case Success(clock) =>
      if Cached(c.addrs, target) then Failure(Panicked)
      else Success(c.(waiting := w.(unicasts := w.unicasts - {target}), clock := clock,
                      out := c.out.(dropped := c.out.dropped + w.unicasts[target].messages)))
  }

  /** The multicasts of a target go to the peers its query found nearest. */
  function Deliver(c: Control, target: Id, closest: seq<PeerRecord>): Fallible<Control> {
    var w := c.waiting;
    if target !in w.multicasts then Success(c)
    else
      var q := w.multicasts[target];
      match UnsetTimer(c.clock, q.timer)
      case Failure(e) => Failure(e)
      case Success(clock) =>
        var c' := c.(waiting := w.(multicasts := w.multicasts - {target}), addrs := RememberAll(c.addrs, closest), clock := clock);
        Success(Send(c', MulticastSends(q.messages, closest)))
  }

  function MaxCount(messages: seq<Mail>): (n: nat)
    ensures forall m <- messages :: m.count <= n
  {
    if messages == [] then 0
    else
      var rest := MaxCount(messages[1..]);
      if messages[0].count > rest then messages[0].count else rest
  }

  /** Multicasts that waited for the target's query to end start one of their own. */
  function Restart(c: Control, target: Id): Fallible<Control> {
    var w := c.waiting;
    if target !in w.pending then Success(c)
    else if target in w.unicasts || target in w.multicasts || w.pending[target] == [] then Failure(Panicked)
    else
      var messages := w.pending[target];
      var count := MaxCount(messages);
      var c' := Ask(c.(waiting := w.(pending := w.pending - {target})), target, count);
      Success(PutMulticasts(c', target, Multicasts(count, messages, c.clock.last + 1)))
  }

  function OnResult(c: Control, status: Q.Status, target: Id, closest: seq<PeerRecord>): Fallible<Control> {
    match ResolveAll(c, closest)
    case Failure(e) => Failure(e)
    case Success(c1) =>
      if status == Q.Progress then Success(c1)
      else if target in c1.waiting.unicasts then Drop(c1, target)
      else
        match Deliver(c1, target, closest)
        case Failure(e) => Failure(e)
        case Success(c2) => Restart(c2, target)
  }

  // Where the messages are

  function Bodies(messages: seq<Mail>): seq<Body> {
    seq(|messages|, i requires 0 <= i < |messages| => messages[i].body)
  }

  function SentBodies(sent: seq<Sent>): seq<Body> {
    seq(|sent|, i requires 0 <= i < |sent| => sent[i].body)
  }

  /** All bags of a map together. */
  ghost function Sum(bags: map<Id, multiset<Body>>): multiset<Body>
    decreases |bags|
  {
    if bags == map[] then multiset{}
    else
      var id :| id in bags;
      bags[id] + Sum(bags - {id})
  }

  ghost function UnicastBags(unicasts: map<Id, Unicasts>): map<Id, multiset<Body>> {
    map id | id in unicasts :: multiset(unicasts[id].messages)
  }

  ghost function MulticastBags(multicasts: map<Id, Multicasts>): map<Id, multiset<Body>> {
    map id | id in multicasts :: multiset(Bodies(multicasts[id].messages))
  }

  ghost function PendingBags(pending: map<Id, seq<Mail>>): map<Id, multiset<Body>> {
    map id | id in pending :: multiset(Bodies(pending[id]))
  }

  /** Every message that is held for a unicast or a multicast, pending, sent or dropped. */
  ghost function Total(c: Control): multiset<Body> {
    Sum(UnicastBags(c.waiting.unicasts)) + Sum(MulticastBags(c.waiting.multicasts)) + Sum(PendingBags(c.waiting.pending))
      + multiset(SentBodies(c.out.sent)) + multiset(c.out.dropped)
  }

  lemma {:induction false} SumTake(bags: map<Id, multiset<Body>>, id: Id)
    requires id in bags
    ensures Sum(bags) == bags[id] + Sum(bags - {id})
    decreases |bags|
  {
    var first: Id :| first in bags && Sum(bags) == bags[first] + Sum(bags - {first});
    if first != id {
      SumTake(bags - {first}, id);
      SumTake(bags - {id}, first);
      assert bags - {first} - {id} == bags - {id} - {first};
    }
  }

  ghost function Bag(bags: map<Id, multiset<Body>>, id: Id): multiset<Body> {
    if id in bags then bags[id] else multiset{}
  }

  lemma SumPut(bags: map<Id, multiset<Body>>, id: Id, bag: multiset<Body>)
    ensures Sum(bags[id := bag]) + Bag(bags, id) == Sum(bags) + bag
  {
    SumTake(bags[id := bag], id);
    assert bags[id := bag] - {id} == bags - {id};
    if id in bags { SumTake(bags, id); } else { assert bags - {id} == bags; }
  }

  lemma SumDrop(bags: map<Id, multiset<Body>>, id: Id)
    ensures Sum(bags - {id}) + Bag(bags, id) == Sum(bags)
  {
    if id in bags { SumTake(bags, id); } else { assert bags - {id} == bags; }
  }

  lemma UnicastBagsChange(unicasts: map<Id, Unicasts>, id: Id, u: Unicasts)
    ensures UnicastBags(unicasts[id := u]) == UnicastBags(unicasts)[id := multiset(u.messages)]
    ensures UnicastBags(unicasts - {id}) == UnicastBags(unicasts) - {id}
    ensures Bag(UnicastBags(unicasts), id) == if id in unicasts then multiset(unicasts[id].messages) else multiset{}
  {
  }

  lemma MulticastBagsChange(multicasts: map<Id, Multicasts>, id: Id, m: Multicasts)
    ensures MulticastBags(multicasts[id := m]) == MulticastBags(multicasts)[id := multiset(Bodies(m.messages))]
    ensures MulticastBags(multicasts - {id}) == MulticastBags(multicasts) - {id}
    ensures Bag(MulticastBags(multicasts), id) == if id in multicasts then multiset(Bodies(multicasts[id].messages)) else multiset{}
  {
    hide Bodies;
  }

  lemma PendingBagsChange(pending: map<Id, seq<Mail>>, id: Id, messages: seq<Mail>)
    ensures PendingBags(pending[id := messages]) == PendingBags(pending)[id := multiset(Bodies(messages))]
    ensures PendingBags(pending - {id}) == PendingBags(pending) - {id}
    ensures Bag(PendingBags(pending), id) == if id in pending then multiset(Bodies(pending[id])) else multiset{}
  {
    hide Bodies;
  }

  lemma BodiesAppend(a: seq<Mail>, b: seq<Mail>)
    ensures Bodies(a + b) == Bodies(a) + Bodies(b)
  {
  }

  lemma SentAppend(a: seq<Sent>, b: seq<Sent>)
    ensures SentBodies(a + b) == SentBodies(a) + SentBodies(b)
  {
  }

  lemma Shift(t: multiset<Body>, t': multiset<Body>, a: multiset<Body>, a': multiset<Body>,
              x: multiset<Body>, y: multiset<Body>, rest: multiset<Body>)
    requires t == a + rest && t' == a' + rest && a' + x == a + y
    ensures t' + x == t + y
  {
    assert t' + x == (a' + x) + rest;
    assert t + y == (a + y) + rest;
  }

  lemma Cancel(t: multiset<Body>, t': multiset<Body>, b: multiset<Body>, x: multiset<Body>)
    requires t' + b == t + (b + x)
    ensures t' == t + x
  {
    assert forall m: Body :: t'[m] + b[m] == (t' + b)[m] && (t + (b + x))[m] == t[m] + b[m] + x[m];
    assert forall m: Body :: t'[m] == (t + x)[m];
  }

  /** All but the unicasts, all but the multicasts, all but the pending multicasts. */
  ghost function Others(c: Control): (multiset<Body>, multiset<Body>, multiset<Body>) {
    var u, m, p := Sum(UnicastBags(c.waiting.unicasts)), Sum(MulticastBags(c.waiting.multicasts)), Sum(PendingBags(c.waiting.pending));
    var o := multiset(SentBodies(c.out.sent)) + multiset(c.out.dropped);
    (m + p + o, u + p + o, u + m + o)
  }

  /** The total as the bags of one map and everything else. */
  lemma TotalParts(c: Control)
    ensures
      && Total(c) == Sum(UnicastBags(c.waiting.unicasts)) + Others(c).0
      && Total(c) == Sum(MulticastBags(c.waiting.multicasts)) + Others(c).1
      && Total(c) == Sum(PendingBags(c.waiting.pending)) + Others(c).2
  {
  }

  /** A change of what waits for one target changes the total by as much. */
  lemma PutUnicastsTotal(c: Control, id: Id, u: Unicasts)
    ensures
      var before := if id in c.waiting.unicasts then multiset(c.waiting.unicasts[id].messages) else multiset{};
      Total(PutUnicasts(c, id, u)) + before == Total(c) + multiset(u.messages)
  {
    hide Sum, UnicastBags, MulticastBags, PendingBags, SentBodies, Bag;
    UnicastBagsChange(c.waiting.unicasts, id, u);
    SumPut(UnicastBags(c.waiting.unicasts), id, multiset(u.messages));
    var c' := PutUnicasts(c, id, u);
    TotalParts(c);
    TotalParts(c');
    var b, b' := UnicastBags(c.waiting.unicasts), UnicastBags(c'.waiting.unicasts);
    Shift(Total(c), Total(c'), Sum(b), Sum(b'), Bag(b, id), multiset(u.messages), Others(c).0);
  }

  lemma PutMulticastsTotal(c: Control, id: Id, m: Multicasts)
    ensures
      var before := if id in c.waiting.multicasts then multiset(Bodies(c.waiting.multicasts[id].messages)) else multiset{};
      Total(PutMulticasts(c, id, m)) + before == Total(c) + multiset(Bodies(m.messages))
  {
    hide Sum, UnicastBags, MulticastBags, PendingBags, SentBodies, Bag, Bodies;
    MulticastBagsChange(c.waiting.multicasts, id, m);
    SumPut(MulticastBags(c.waiting.multicasts), id, multiset(Bodies(m.messages)));
    var c' := PutMulticasts(c, id, m);
    TotalParts(c);
    TotalParts(c');
    var b, b' := MulticastBags(c.waiting.multicasts), MulticastBags(c'.waiting.multicasts);
    Shift(Total(c), Total(c'), Sum(b), Sum(b'), Bag(b, id), multiset(Bodies(m.messages)), Others(c).1);
  }

  lemma PendTotal(c: Control, target: Id, m: Mail)
    ensures Total(Pend(c, target, m)) == Total(c) + multiset{m.body}
  {
    hide Sum, UnicastBags, MulticastBags, PendingBags, SentBodies, Bag, Bodies;
    var before := if target in c.waiting.pending then c.waiting.pending[target] else [];
    PendingBagsChange(c.waiting.pending, target, before + [m]);
    SumPut(PendingBags(c.waiting.pending), target, multiset(Bodies(before + [m])));
    OneMore(before, m);
    var c' := Pend(c, target, m);
    TotalParts(c);
    TotalParts(c');
    var b, b' := PendingBags(c.waiting.pending), PendingBags(c'.waiting.pending);
    Shift(Total(c), Total(c'), Sum(b), Sum(b'), Bag(b, target), multiset(Bodies(before + [m])), Others(c).2);
    Cancel(Total(c), Total(c'), Bag(b, target), multiset{m.body});
  }

  lemma OneMore(before: seq<Mail>, m: Mail)
    ensures multiset(Bodies(before + [m])) == multiset(Bodies(before)) + multiset{m.body}
    ensures multiset(Bodies([])) == multiset{}
  {
    BodiesAppend(before, [m]);
    assert Bodies([m]) == [m.body];
  }

  lemma DropUnicastsTotal(c: Control, id: Id)
    requires id in c.waiting.unicasts
    ensures
      var w' := c.waiting.(unicasts := c.waiting.unicasts - {id});
      Total(c.(waiting := w')) + multiset(c.waiting.unicasts[id].messages) == Total(c)
  {
    hide Sum, UnicastBags, MulticastBags, PendingBags, SentBodies, Bag;
    UnicastBagsChange(c.waiting.unicasts, id, c.waiting.unicasts[id]);
    SumDrop(UnicastBags(c.waiting.unicasts), id);
  }

  lemma DropMulticastsTotal(c: Control, id: Id)
    requires id in c.waiting.multicasts
    ensures
      var w' := c.waiting.(multicasts := c.waiting.multicasts - {id});
      Total(c.(waiting := w')) + multiset(Bodies(c.waiting.multicasts[id].messages)) == Total(c)
  {
    hide Sum, UnicastBags, MulticastBags, PendingBags, SentBodies, Bag, Bodies;
    MulticastBagsChange(c.waiting.multicasts, id, c.waiting.multicasts[id]);
    SumDrop(MulticastBags(c.waiting.multicasts), id);
  }

  lemma DropPendingTotal(c: Control, id: Id)
    requires id in c.waiting.pending
    ensures
      var w' := c.waiting.(pending := c.waiting.pending - {id});
      Total(c.(waiting := w')) + multiset(Bodies(c.waiting.pending[id])) == Total(c)
  {
    hide Sum, UnicastBags, MulticastBags, PendingBags, SentBodies, Bag, Bodies;
    PendingBagsChange(c.waiting.pending, id, c.waiting.pending[id]);
    SumDrop(PendingBags(c.waiting.pending), id);
  }

  lemma SendTotal(c: Control, s: seq<Sent>)
    ensures Total(Send(c, s)) == Total(c) + multiset(SentBodies(s))
  {
    SentAppend(c.out.sent, s);
  }
}
