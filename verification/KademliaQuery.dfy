/** The iterative lookup of a peer: at most 30 peers are asked at a time for the records
    they know nearest a target, until the nearest known ones have all answered. */
module KademliaQuery {
  import opened Wrappers
  import opened KademliaIds
  import opened KademliaBuckets
  import opened KademliaLookup

  const CONCURRENCY: nat := 30

  /** A query asks for count records and answers with the contacted ones among them. */
  datatype Query = Query(target: Id, count: nat, records: seq<PeerRecord>, contacting: map<Id, nat>, contacted: set<Id>)

  /** The resend timers that are live, each with the target and the peer it was set for. */
  datatype Clock = Clock(live: map<nat, (Id, PeerRecord)>, last: nat)

  datatype Status = Progress | Converge | Halted

  datatype QueryResult = QueryResult(status: Status, target: Id, closest: seq<PeerRecord>)

  datatype FindPeer = FindPeer(dest: PeerRecord, target: Id, count: nat)

  /** The answer to a peer that asked. */
  datatype Answer = Answer(dest: PeerRecord, target: Id, closest: seq<PeerRecord>)

  datatype Peer = Peer(table: Table, queries: map<Id, Query>, clock: Clock,
                       sent: seq<FindPeer>, answers: seq<Answer>, upcalls: seq<QueryResult>)

  /** A query starts, a reply to one was verified, a peer asked for records, a timer expired. */
  datatype Event =
    | Start(target: Id, count: nat)
    | Reply(target: Id, closest: seq<PeerRecord>, record: PeerRecord)
    | Asked(record: PeerRecord, target: Id, count: nat)
    | Expire(timer: nat)

  function NewPeer(table: Table): Peer {
    Peer(table, map[], Clock(map[], 0), [], [], [])
  }

  // Timers

  function SetTimer(c: Clock, target: Id, r: PeerRecord): Clock {
    Clock(c.live[c.last + 1 := (target, r)], c.last + 1)
  }

  function UnsetTimer(c: Clock, timer: nat): Fallible<Clock> {
    if timer in c.live then Success(c.(live := c.live - {timer})) else Failure(TimerNotFound)
  }

  function UnsetAll(c: Clock, timers: set<nat>): Fallible<Clock> {
    if timers <= c.live.Keys then Success(c.(live := c.live - timers)) else Failure(TimerNotFound)
  }

  // Contacting peers

  /** Contact a peer: set a timer for it and note it. */
  function Contact(q: Query, c: Clock, r: PeerRecord): (Query, Clock) {
    var c' := SetTimer(c, q.target, r);
    (q.(contacting := q.contacting[r.id := c'.last]), c')
  }

  function ContactAll(q: Query, c: Clock, records: seq<PeerRecord>): (Query, Clock)
    decreases |records|
  {
    if records == [] then (q, c)
    else
      var (q', c') := Contact(q, c, records[0]);
      ContactAll(q', c', records[1..])
  }

  /** The first record whose peer is not among these. */
  function FirstOther(records: seq<PeerRecord>, busy: set<Id>): (i: nat)
    ensures i <= |records|
    ensures i < |records| ==> records[i].id !in busy
    ensures forall j | 0 <= j < i :: records[j].id in busy
  {
    if records == [] || records[0].id !in busy then 0 else 1 + FirstOther(records[1..], busy)
  }

  /** Contact nearest first until 30 peers are being contacted or no other is known. */
  function Fill(q: Query, c: Clock, picked: seq<PeerRecord>): (Query, Clock, seq<PeerRecord>)
    decreases CONCURRENCY - |q.contacting|
  {
    if |q.contacting| >= CONCURRENCY then (q, c, picked)
    else
      var i := FirstOther(q.records, q.contacted + q.contacting.Keys);
      if i == |q.records| then (q, c, picked)
      else
        var (q', c') := Contact(q, c, q.records[i]);
        assert q'.contacting == q.contacting[q.records[i].id := c'.last];
        Fill(q', c', picked + [q.records[i]])
  }

  // Merging what a peer knows

  /** Where a binary search by distance ends in records of increasing distance. */
  function SearchPosition(records: seq<PeerRecord>, distance: nat, target: Id): (i: nat)
    ensures i <= |records|
    ensures forall j | 0 <= j < i :: Distance(records[j].id, target) < distance
    ensures i < |records| ==> distance <= Distance(records[i].id, target)
  {
    if records == [] || distance <= Distance(records[0].id, target) then 0
    else 1 + SearchPosition(records[1..], distance, target)
  }

  function MergeOne(records: seq<PeerRecord>, r: PeerRecord, target: Id): Fallible<seq<PeerRecord>> {
    var i := SearchPosition(records, Distance(r.id, target), target);
    if i < |records| && Distance(records[i].id, target) == Distance(r.id, target) then
      if records[i] == r then Success(records) else Failure(NonDistinctDistance)
    else
      Success(records[..i] + [r] + records[i..])
  }

  function MergeAll(records: seq<PeerRecord>, more: seq<PeerRecord>, target: Id): Fallible<seq<PeerRecord>>
    decreases |more|
  {
    if more == [] then Success(records)
    else match MergeOne(records, more[0], target)
      case Failure(e) => Failure(e)
      case Success(merged) => MergeAll(merged, more[1..], target)
  }

  // Handlers

  function Only(records: seq<PeerRecord>, keep: set<Id>): seq<PeerRecord> {
    if records == [] then []
    else (if records[0].id in keep then [records[0]] else []) + Only(records[1..], keep)
  }

  function Except(records: seq<PeerRecord>, id: Id): seq<PeerRecord> {
    if records == [] then []
    else (if records[0].id != id then [records[0]] else []) + Except(records[1..], id)
  }

  function Asking(q: Query, peers: seq<PeerRecord>): seq<FindPeer> {
    seq(|peers|, i requires 0 <= i < |peers| => FindPeer(peers[i], q.target, q.count))
  }

  function OnStart(p: Peer, target: Id, count: nat): (r: Fallible<Peer>)
    requires |p.table.buckets| == BITS
    ensures r.Success? ==> r.value.table == p.table
  {
    var own := p.table.origin.id;
    var records := FindClosest(p.table, target, if count > CONCURRENCY then count else CONCURRENCY);
    var peers := Take(Except(records, own), CONCURRENCY);
    var (q, clock) := ContactAll(Query(target, count, records, map[], {own}), p.clock, peers);
    if target in p.queries then
      Failure(ConcurrentQuery)
    else
      Success(p.(queries := p.queries[target := q], clock := clock, sent := p.sent + Asking(q, peers)))
  }

  /** How a query goes on after a reply was merged: it converges when the nearest count
      records are contacted, halts when no peer is left to contact, and asks on otherwise. */
  function Resume(p: Peer, q: Query): (r: Fallible<Peer>)
    ensures r.Success? ==> r.value.table == p.table
    ensures r.Success? ==> |r.value.upcalls| == |p.upcalls| + 1 && r.value.upcalls[..|p.upcalls|] == p.upcalls
  {
    var closest := Take(Only(q.records, q.contacted), q.count);
    if FirstOther(q.records, q.contacted) >= q.count then
      match UnsetAll(p.clock, q.contacting.Values)
      case Failure(e) => Failure(e)
      case Success(clock) =>
        Success(p.(queries := p.queries - {q.target}, clock := clock,
                   upcalls := p.upcalls + [QueryResult(Converge, q.target, closest)]))
    else
      var (next, clock, peers) := Fill(q, p.clock, []);
      if next.contacting == map[] then
        Success(p.(queries := p.queries - {q.target}, clock := clock,
                   upcalls := p.upcalls + [QueryResult(Halted, q.target, closest)]))
      else
        Success(p.(queries := p.queries[q.target := next], clock := clock, sent := p.sent + Asking(q, peers),
                   upcalls := p.upcalls + [QueryResult(Progress, q.target, closest)]))
  }

  /** The reply is one a live query waits for. */
  predicate Effective(p: Peer, target: Id, record: PeerRecord) {
    target in p.queries && record.id in p.queries[target].contacting
  }

  function Contacted(q: Query, id: Id): Query {
    q.(contacting := q.contacting - {id}, contacted := q.contacted + {id})
  }

  function OnReply(p: Peer, target: Id, closest: seq<PeerRecord>, record: PeerRecord): Fallible<Peer>
    requires |p.table.buckets| == BITS
  {
    match Insert(p.table, record)
    case Failure(e) => Failure(e)
    case Success(table) =>
      if !Effective(p, target, record) then
        Success(p.(table := table))
      else
        var q := p.queries[target];
        match UnsetTimer(p.clock, q.contacting[record.id])
        case Failure(e) => Failure(e)
        case Success(clock) =>
          match MergeAll(q.records, closest, target)
          case Failure(e) => Failure(e)
          case Success(records) =>
            Resume(p.(table := table, clock := clock), Contacted(q, record.id).(records := records))
  }

  function OnAsked(p: Peer, record: PeerRecord, target: Id, count: nat): Fallible<Peer>
    requires |p.table.buckets| == BITS
  {
    match Insert(p.table, record)
    case Failure(e) => Failure(e)
    case Success(table) =>
      Success(p.(table := table, answers := p.answers + [Answer(record, target, FindClosest(table, target, count))]))
  }

  /** A peer that does not answer in time fails the whole event loop. */
  function OnExpire(p: Peer, timer: nat): Fallible<Peer>
    requires timer in p.clock.live
  {
    var (target, record) := p.clock.live[timer];
    if target in p.queries then Failure(Timeout) else Failure(Panicked)
  }

  predicate Possible(p: Peer, e: Event) {
    && (e.Start? || e.Asked? ==> e.count > 0)
    && (e.Expire? ==> e.timer in p.clock.live)
  }

  function Handle(p: Peer, e: Event): (r: Fallible<Peer>)
    requires |p.table.buckets| == BITS && Possible(p, e)
    ensures r.Success? ==> |r.value.table.buckets| == BITS
  {
    match e
    case Start(target, count) => OnStart(p, target, count)
    case Reply(target, closest, record) => OnReply(p, target, closest, record)
    case Asked(record, target, count) => OnAsked(p, record, target, count)
    case Expire(timer) => OnExpire(p, timer)
  }
}
