/** Queries cannot go on forever: every reply a query waits for adds its sender to the peers
    contacted, so there are fewer such replies than peers anybody has named. */
module KademliaMeasure {
  import opened Wrappers
  import opened KademliaIds
  import opened KademliaBuckets
  import opened KademliaLookup
  import opened KademliaQuery
  import opened KademliaOutcome
  import opened KademliaRuns

  /** How many replies the last query for this target got that it was waiting for; the count
      begins anew when the next one starts. */
  function Replies(t: Table, events: seq<Event>, target: Id): nat
    requires |t.buckets| == BITS
  {
    if events == [] then 0
    else
      var before, e := events[..|events| - 1], events[|events| - 1];
      match AfterEvents(t, before)
      case None => 0
      case Some(p) =>
        if e.Start? && e.target == target then 0
        else Replies(t, before, target) + if e.Reply? && e.target == target && Effective(p, target, e.record) then 1 else 0
  }

  /** The peers an event names. */
  function Named(e: Event): set<Id> {
    match e
    case Start(_, _) => {}
    case Reply(_, closest, record) => Ids(closest) + {record.id}
    case Asked(record, _, _) => {record.id}
    case Expire(_) => {}
  }

  ghost predicate TableIn(t: Table, universe: set<Id>) {
    && t.origin.id in universe
    && forall i: nat | i < |t.buckets| :: Ids(t.buckets[i].records + t.buckets[i].cached) <= universe
  }

  /** The count is one less than the peers contacted, the peer itself being one of them. */
  ghost predicate Measured(p: Peer, target: Id, replies: nat, universe: set<Id>) {
    if target in p.queries then
      var q := p.queries[target];
      && q.contacted + Ids(q.records) <= universe
      && |q.contacted| == replies + 1
    else
      replies < |universe|
  }

  // The steps

  lemma InsertIn(t: Table, record: PeerRecord, universe: set<Id>)
    requires TableOk(t) && TableIn(t, universe) && record.id in universe && Insert(t, record).Success?
    ensures TableIn(Insert(t, record).value, universe)
  {
    hide InsertInto, BucketOk, Index;
    var t' := Insert(t, record).value;
    var k := Index(t.origin.id, record.id);
    assert BucketOk(t.buckets[k]);
    InsertedRecords(t.buckets[k], record);
    forall i: nat | i < |t'.buckets| ensures Ids(t'.buckets[i].records + t'.buckets[i].cached) <= universe {
      if i == k {
        forall id <- Ids(t'.buckets[k].records + t'.buckets[k].cached) ensures id in universe {
          var r :| r in t'.buckets[k].records + t'.buckets[k].cached && r.id == id;
          assert r != record ==> r.id in Ids(t.buckets[k].records + t.buckets[k].cached);
        }
      }
    }
  }

  lemma TableRecordsIn(t: Table, universe: set<Id>)
    requires |t.buckets| == BITS && TableIn(t, universe)
    ensures forall r <- AllRecords(t) :: r.id in universe
  {
    forall r <- AllRecords(t) ensures r.id in universe {
      var i: nat :| i < BITS && r in Content(t, i);
      if r != t.origin {
        assert r in t.buckets[i].records + t.buckets[i].cached;
        assert r.id in Ids(t.buckets[i].records + t.buckets[i].cached);
      }
    }
  }

  lemma {:induction false} ContactKeepsRest(q: Query, c: Clock, records: seq<PeerRecord>)
    ensures var q' := ContactAll(q, c, records).0; q' == q.(contacting := q'.contacting)
    decreases |records|
  {
    if records != [] {
      var (q', c') := Contact(q, c, records[0]);
      ContactKeepsRest(q', c', records[1..]);
    }
  }

  lemma StartMeasured(p: Peer, target: Id, count: nat, universe: set<Id>)
    requires TableOk(p.table) && TableIn(p.table, universe) && |p.table.buckets| == BITS
    requires OnStart(p, target, count).Success?
    ensures Measured(OnStart(p, target, count).value, target, 0, universe)
  {
    hide TableOk, FindClosest, Take, Except, ContactAll, AllRecords, Ascending, Distance;
    var own := p.table.origin.id;
    var limit := if count > CONCURRENCY then count else CONCURRENCY;
    var records := FindClosest(p.table, target, limit);
    LookupExact(p.table, target, limit);
    TableRecordsIn(p.table, universe);
    ContactKeepsRest(Query(target, count, records, map[], {own}), p.clock, Take(Except(records, own), CONCURRENCY));
    forall id <- Ids(records) ensures id in universe {
      var r :| r in records && r.id == id;
    }
  }

  lemma {:induction false} FillKeepsRest(q: Query, c: Clock, picked: seq<PeerRecord>)
    ensures var q' := Fill(q, c, picked).0; q' == q.(contacting := q'.contacting)
    decreases CONCURRENCY - |q.contacting|
  {
    var i := FirstOther(q.records, q.contacted + q.contacting.Keys);
    if |q.contacting| < CONCURRENCY && i < |q.records| {
      var (q', c') := Contact(q, c, q.records[i]);
      assert q'.contacting == q.contacting[q.records[i].id := c'.last];
      FillKeepsRest(q', c', picked + [q.records[i]]);
    }
  }

  lemma ResumeKeepsRest(p: Peer, q: Query, other: Id)
    requires Resume(p, q).Success?
    ensures
      var p' := Resume(p, q).value;
      && (q.target in p'.queries ==> p'.queries[q.target] == q.(contacting := p'.queries[q.target].contacting))
      && (other != q.target ==> (other in p'.queries <==> other in p.queries))
      && (other != q.target && other in p.queries ==> p'.queries[other] == p.queries[other])
  {
    hide Fill, Only, Take, FirstOther, UnsetAll;
    FillKeepsRest(q, p.clock, []);
  }

  lemma ReplyMeasured(p: Peer, target: Id, e: Event, replies: nat, universe: set<Id>)
    requires PeerOk(p) && |p.table.buckets| == BITS && Measured(p, target, replies, universe)
    requires e.Reply? && Named(e) <= universe && OnReply(p, e.target, e.closest, e.record).Success?
    ensures
      var more := if e.target == target && Effective(p, target, e.record) then 1 else 0;
      Measured(OnReply(p, e.target, e.closest, e.record).value, target, replies + more, universe)
  {
    hide TableOk, QueriesOk, ClockOk, Resume, Insert, MergeAll, UnsetTimer;
    if Effective(p, e.target, e.record) {
      var q := p.queries[e.target];
      QueryAt(p, e.target);
      MergeAllOk(q.records, e.closest, e.target);
      var p1 := p.(table := Insert(p.table, e.record).value, clock := UnsetTimer(p.clock, q.contacting[e.record.id]).value);
      var merged := Merged(p, e.target, e.closest, e.record);
      ResumeKeepsRest(p1, merged, target);
      if e.target == target {
        MergedIn(p.table.origin.id, q, merged, e.record.id, e.closest, universe);
        if target !in OnReply(p, e.target, e.closest, e.record).value.queries {
          Smaller(merged.contacted, universe);
        }
      }
    }
  }

  lemma QueryAt(p: Peer, target: Id)
    requires PeerOk(p) && target in p.queries
    ensures QueryOk(target, p.table.origin.id, p.queries[target]) && p.queries[target].target == target
    ensures Ascending(p.queries[target].records, target)
  {
  }

  lemma MergedIn(own: Id, q: Query, merged: Query, id: Id, closest: seq<PeerRecord>, universe: set<Id>)
    requires QueryOk(q.target, own, q) && id in q.contacting
    requires q.contacted + Ids(q.records) <= universe && Ids(closest) <= universe
    requires merged == Contacted(q, id).(records := merged.records)
    requires forall r :: r in merged.records <==> r in q.records || r in closest
    ensures merged.contacted + Ids(merged.records) <= universe && |merged.contacted| == |q.contacted| + 1
  {
    hide Ascending;
    assert id in q.contacting.Keys && id in Ids(q.records);
    forall other <- Ids(merged.records) ensures other in universe {
      var r :| r in merged.records && r.id == other;
      assert r.id in Ids(q.records) + Ids(closest);
    }
  }

  lemma Smaller(a: set<Id>, b: set<Id>)
    requires a <= b
    ensures |a| <= |b|
  {
    assert b == a + (b - a);
  }

  lemma MeasuredStep(p: Peer, target: Id, e: Event, replies: nat, universe: set<Id>)
    requires PeerOk(p) && |p.table.buckets| == BITS && Possible(p, e) && Handle(p, e).Success?
    requires TableIn(p.table, universe) && Measured(p, target, replies, universe) && Named(e) <= universe
    ensures TableIn(Handle(p, e).value.table, universe)
    ensures
      var now := if e.Start? && e.target == target then 0
                 else replies + if e.Reply? && e.target == target && Effective(p, target, e.record) then 1 else 0;
      Measured(Handle(p, e).value, target, now, universe)
  {
    hide TableOk, TableIn, QueriesOk, ClockOk, FindClosest, Take, Except, ContactAll, Insert, Resume, MergeAll, Ids;
    match e
    case Start(other, count) =>
      if other == target { StartMeasured(p, target, count, universe); }
    case Reply(other, closest, record) =>
      ReplyMeasured(p, target, e, replies, universe);
      InsertIn(p.table, record, universe);
    case Asked(record, _, _) => InsertIn(p.table, record, universe);
    case Expire(timer) => ExpireOk(p, timer);
  }

  lemma {:induction false} MeasuredRun(t: Table, events: seq<Event>, target: Id, universe: set<Id>)
    requires TableOk(t) && |t.buckets| == BITS && AfterEvents(t, events).Some?
    requires TableIn(t, universe) && forall e <- events :: Named(e) <= universe
    ensures
      var p := AfterEvents(t, events).value;
      TableIn(p.table, universe) && Measured(p, target, Replies(t, events, target), universe)
  {
    hide TableOk, TableIn, Handle, Possible, Named;
    if events == [] {
      assert TableIn(NewPeer(t).table, universe);
      OriginNamed(t, universe);
    } else {
      var before, e := events[..|events| - 1], events[|events| - 1];
      assert e in events;
      MeasuredRun(t, before, target, universe);
      RunOk(t, before);
      MeasuredStep(AfterEvents(t, before).value, target, e, Replies(t, before, target), universe);
    }
  }

  lemma OriginNamed(t: Table, universe: set<Id>)
    requires TableIn(t, universe)
    ensures |universe| > 0
  {
    Smaller({t.origin.id}, universe);
  }

  /** In every run, a query gets fewer replies it waits for than there are peers named in the
      routing table it began with or by any event; when a query is live, they are one less
      than the peers it has contacted. */
  lemma RepliesBounded(t: Table, events: seq<Event>, target: Id, universe: set<Id>)
    requires TableOk(t) && |t.buckets| == BITS && AfterEvents(t, events).Some?
    requires TableIn(t, universe) && forall e <- events :: Named(e) <= universe
    ensures Replies(t, events, target) <= |universe| - 1
    ensures
      var p := AfterEvents(t, events).value;
      target in p.queries ==> |p.queries[target].contacted| == Replies(t, events, target) + 1
  {
    hide TableOk, TableIn, AfterEvents, Replies, Ids;
    MeasuredRun(t, events, target, universe);
    var p := AfterEvents(t, events).value;
    if target in p.queries {
      Smaller(p.queries[target].contacted, universe);
    }
  }
}
