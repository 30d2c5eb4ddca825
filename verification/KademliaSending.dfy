/** Whom a peer asks: everybody it is contacting, once each, nearest first, and nobody else.
    And whom it remembers: everybody it hears from. */
module KademliaSending {
  import opened Wrappers
  import opened KademliaIds
  import opened KademliaBuckets
  import opened KademliaLookup
  import opened KademliaQuery
  import opened KademliaOutcome
  import opened KademliaRuns
  import opened KademliaMeasure

  function Dests(messages: seq<FindPeer>): set<Id> {
    set m <- messages :: m.dest.id
  }

  /** One message to each of these peers, with the target and the count of the query. */
  ghost predicate AsksEach(messages: seq<FindPeer>, peers: set<Id>, q: Query) {
    && |messages| == |peers| && Dests(messages) == peers
    && forall m <- messages :: m.target == q.target && m.count == q.count && m.dest in q.records
  }

  /** These messages, and no others, were sent. */
  predicate SentMore(p: Peer, messages: seq<FindPeer>, p': Peer) {
    p'.sent == p.sent + messages
  }

  // The peers picked

  /** Known peers that are passed over are farther than all that were picked. */
  ghost predicate PickedNearest(q: Query, picked: seq<PeerRecord>, q': Query) {
    forall r <- q.records, x <- picked :: r.id !in q.contacted + q'.contacting.Keys ==>
      Distance(x.id, q.target) < Distance(r.id, q.target)
  }

  ghost predicate Picks(q: Query, more: seq<PeerRecord>, q': Query) {
    && q' == q.(contacting := q'.contacting)
    && q'.contacting.Keys == q.contacting.Keys + Ids(more) && q.contacting.Keys !! Ids(more)
    && |Ids(more)| == |more|
    && (forall r <- more :: r in q.records && r.id !in q.contacted)
    && PickedNearest(q, more, q')
  }

  lemma IdsOfOne(x: PeerRecord)
    ensures Ids([x]) == {x.id}
  {
    assert [x][0] == x;
  }

  lemma IdsThen(x: PeerRecord, more: seq<PeerRecord>)
    ensures Ids([x] + more) == {x.id} + Ids(more)
    ensures forall r :: r in [x] + more <==> r == x || r in more
  {
    var all := [x] + more;
    assert all[0] == x && forall i: nat | i < |more| :: all[i + 1] == more[i];
    forall id ensures id in Ids(all) <==> id == x.id || id in Ids(more) {
      if id in Ids(more) {
        var r :| r in more && r.id == id;
        assert r in all;
      }
    }
  }

  /** Records in the order of their distance: those before the first other one are busy. */
  lemma FirstIsNearest(q: Query, busy: set<Id>, r: PeerRecord)
    requires Ascending(q.records, q.target) && r in q.records && r.id !in busy
    ensures
      var i := FirstOther(q.records, busy);
      i < |q.records| && (q.records[i].id != r.id ==> Distance(q.records[i].id, q.target) < Distance(r.id, q.target))
  {
    hide Distance;
    var j :| 0 <= j < |q.records| && q.records[j] == r;
  }

  lemma PickOne(q: Query, c: Clock)
    requires Ascending(q.records, q.target)
    ensures
      var i := FirstOther(q.records, q.contacted + q.contacting.Keys);
      i < |q.records| ==> Picks(q, [q.records[i]], Contact(q, c, q.records[i]).0)
  {
    hide Distance, Ascending;
    var busy := q.contacted + q.contacting.Keys;
    var i := FirstOther(q.records, busy);
    if i < |q.records| {
      var x := q.records[i];
      var q' := Contact(q, c, x).0;
      IdsOfOne(x);
      assert q'.contacting.Keys == q.contacting.Keys + {x.id};
      forall r <- q.records | r.id !in q.contacted + q'.contacting.Keys
        ensures Distance(x.id, q.target) < Distance(r.id, q.target)
      {
        FirstIsNearest(q, busy, r);
      }
    }
  }

  lemma PicksThen(q: Query, x: PeerRecord, q1: Query, more: seq<PeerRecord>, q2: Query)
    requires Picks(q, [x], q1) && Picks(q1, more, q2)
    ensures Picks(q, [x] + more, q2)
  {
    hide PickedNearest, Ids;
    IdsOfOne(x);
    IdsThen(x, more);
    NearestThen(q, x, q1, more, q2);
  }

  lemma NearestThen(q: Query, x: PeerRecord, q1: Query, more: seq<PeerRecord>, q2: Query)
    requires PickedNearest(q, [x], q1) && PickedNearest(q1, more, q2)
    requires q1 == q.(contacting := q1.contacting) && q1.contacting.Keys <= q2.contacting.Keys
    ensures PickedNearest(q, [x] + more, q2)
  {
    hide Distance;
    assert [x][0] == x;
    IdsThen(x, more);
  }

  lemma NothingPicked(q: Query)
    ensures Picks(q, [], q)
  {
    assert Ids([]) == {};
  }

  lemma {:induction false} FillPicks(q: Query, c: Clock, picked: seq<PeerRecord>) returns (more: seq<PeerRecord>)
    requires Ascending(q.records, q.target)
    ensures var (q', c', all) := Fill(q, c, picked); all == picked + more && Picks(q, more, q')
    decreases CONCURRENCY - |q.contacting|
  {
    hide Picks, Ascending, Contact, Ids;
    var i := FirstOther(q.records, q.contacted + q.contacting.Keys);
    if |q.contacting| < CONCURRENCY && i < |q.records| {
      var (q1, c1) := Contact(q, c, q.records[i]);
      PickOne(q, c);
      ContactedOne(q, c, q.records[i]);
      var rest := FillPicks(q1, c1, picked + [q.records[i]]);
      more := [q.records[i]] + rest;
      PicksThen(q, q.records[i], q1, rest, Fill(q1, c1, picked + [q.records[i]]).0);
      assert picked + [q.records[i]] + rest == picked + more;
    } else {
      more := [];
      NothingPicked(q);
      assert picked + [] == picked;
    }
  }

  lemma AskingEach(q: Query, peers: seq<PeerRecord>, ids: set<Id>)
    requires Ids(peers) == ids && |ids| == |peers| && forall r <- peers :: r in q.records
    ensures AsksEach(Asking(q, peers), ids, q)
  {
    var messages := Asking(q, peers);
    forall id ensures id in Dests(messages) <==> id in Ids(peers) {
      if id in Ids(peers) {
        var r :| r in peers && r.id == id;
        var i: nat :| i < |peers| && peers[i] == r;
        assert messages[i] in messages && messages[i].dest.id == id;
      }
      if id in Dests(messages) {
        var m :| m in messages && m.dest.id == id;
        assert m.dest in peers;
      }
    }
  }

  // The events

  /** A started query asks each peer it contacts, up to 30: none that is passed over is nearer,
      and nobody is passed over while fewer than 29 are contacted. */
  lemma StartAsks(p: Peer, target: Id, count: nat)
    requires PeerOk(p) && count > 0 && target !in p.queries
    ensures |p.table.buckets| == BITS && OnStart(p, target, count).Success?
    ensures
      var p' := OnStart(p, target, count).value;
      var q := p'.queries[target];
      && q.target == target && q.count == count
      && (exists messages :: SentMore(p, messages, p') && AsksEach(messages, q.contacting.Keys, q))
      && |q.contacting| <= 30
      && (forall r <- AllRecords(p.table) | r.id != p.table.origin.id && r.id !in q.contacting ::
            && |q.contacting| >= 29
            && forall x <- AllRecords(p.table) | x.id in q.contacting :: Distance(x.id, target) < Distance(r.id, target))
  {
    hide PeerOk, FindClosest, AllRecords, Distance, Take, Except, AsksEach, Ids, ContactAll;
    PeerTable(p);
    var own := p.table.origin.id;
    var limit := if count > CONCURRENCY then count else CONCURRENCY;
    var records := FindClosest(p.table, target, limit);
    var peers := Take(Except(records, own), CONCURRENCY);
    StartPeers(p, target, limit, records, peers);
    var q := Query(target, count, records, map[], {own});
    StartContacts(p, q, peers);
    var q' := ContactAll(q, p.clock, peers).0;
    AskingEach(q, peers, Ids(peers));
    AsksSame(Asking(q, peers), Ids(peers), q, q');
    assert SentMore(p, Asking(q, peers), OnStart(p, target, count).value);
  }

  lemma PeerTable(p: Peer)
    requires PeerOk(p)
    ensures TableOk(p.table) && |p.table.buckets| == BITS
  {
    SizeOk(p.table);
  }

  lemma AsksSame(messages: seq<FindPeer>, ids: set<Id>, q: Query, q': Query)
    requires AsksEach(messages, ids, q) && q' == q.(contacting := q'.contacting)
    ensures AsksEach(messages, ids, q')
  {
  }

  lemma StartPeers(p: Peer, target: Id, limit: nat, records: seq<PeerRecord>, peers: seq<PeerRecord>)
    requires TableOk(p.table) && |p.table.buckets| == BITS && limit >= 30 && records == FindClosest(p.table, target, limit)
    requires peers == Take(Except(records, p.table.origin.id), CONCURRENCY)
    ensures Distinct(peers) && |peers| <= 30 && |Ids(peers)| == |peers| && forall r <- peers :: r in records
    ensures forall r <- AllRecords(p.table) | r.id != p.table.origin.id && r.id !in Ids(peers) ::
              |peers| >= 29 && forall x <- AllRecords(p.table) | x.id in Ids(peers) :: Distance(x.id, target) < Distance(r.id, target)
  {
    hide TableOk, Nearest, FindClosest, AllRecords, Distance, Take, Except, Distinct, Ids, Ascending;
    LookupExact(p.table, target, limit);
    PeersOk(p.table, target, limit, records, peers);
    PeersFromRecords(records, p.table.origin.id, target, peers);
    DistinctIds(peers);
    StartNearest(p.table, target, limit, records, peers);
  }

  lemma StartContacts(p: Peer, q: Query, peers: seq<PeerRecord>)
    requires PeerOk(p) && q.target !in p.queries && q.contacting == map[] && Distinct(peers)
    ensures
      var q' := ContactAll(q, p.clock, peers).0;
      q' == q.(contacting := q'.contacting) && q'.contacting.Keys == Ids(peers) && |q'.contacting| == |peers|
  {
    hide TableOk, QueriesOk, ClockOk, ContactAll, Distinct, Ids;
    NewQueryClock(p.queries, q, p.clock);
    ContactAllOk(p.queries, q, p.clock, peers);
  }

  lemma PeersFromRecords(records: seq<PeerRecord>, own: Id, target: Id, peers: seq<PeerRecord>)
    requires Ascending(records, target) && peers == Take(Except(records, own), CONCURRENCY)
    ensures forall r <- peers :: r in records && r.id != own
  {
    hide Distance;
    ExceptOk(records, own, target);
  }

  lemma {:induction false} DistinctIds(records: seq<PeerRecord>)
    requires Distinct(records)
    ensures |Ids(records)| == |records|
  {
    if records == [] {
      assert Ids(records) == {};
    } else {
      HeadIds(records);
      DistinctIds(records[1..]);
    }
  }

  lemma {:induction false} ExceptLength(records: seq<PeerRecord>, id: Id)
    requires Distinct(records)
    ensures |Except(records, id)| >= |records| - 1
    ensures id !in Ids(records) ==> Except(records, id) == records
  {
    if records != [] {
      HeadIds(records);
      ExceptLength(records[1..], id);
      assert records == [records[0]] + records[1..];
      assert records[0].id in Ids(records);
    }
  }

  lemma StartNearest(t: Table, target: Id, limit: nat, records: seq<PeerRecord>, peers: seq<PeerRecord>)
    requires |t.buckets| == BITS && limit >= 30 && Nearest(AllRecords(t), target, limit, records)
    requires peers == Take(Except(records, t.origin.id), CONCURRENCY)
    ensures forall r <- AllRecords(t) | r.id != t.origin.id && r.id !in Ids(peers) ::
              |peers| >= 29 && forall x <- AllRecords(t) | x.id in Ids(peers) :: Distance(x.id, target) < Distance(r.id, target)
  {
    hide Distance, AllRecords;
    var own, others := t.origin.id, Except(records, t.origin.id);
    ExceptOk(records, own, target);
    AscendingDistinct(records, target);
    ExceptLength(records, own);
    forall r <- AllRecords(t) | r.id != own && r.id !in Ids(peers)
      ensures |peers| >= 29 && forall x <- AllRecords(t) | x.id in Ids(peers) :: Distance(x.id, target) < Distance(r.id, target)
    {
      if r !in records {
        AllFound(AllRecords(t), target, limit, records);
      }
      forall x <- AllRecords(t) | x.id in Ids(peers) ensures Distance(x.id, target) < Distance(r.id, target) {
        var y :| y in peers && y.id == x.id;
        PassedOver(others, target, peers, r, y);
      }
      PassedOverMany(others, peers, r);
    }
  }

  lemma AllFound(all: set<PeerRecord>, target: Id, limit: nat, records: seq<PeerRecord>)
    requires Nearest(all, target, limit, records)
    ensures |records| < limit ==> forall r <- all :: r in records
  {
    hide Distance;
    if |records| < limit {
      var found := set r <- records;
      CountAscending(records, target, found);
      assert found <= all && |found| == |all|;
      assert |all - found| == |all| - |found|;
    }
  }

  lemma PassedOver(others: seq<PeerRecord>, target: Id, peers: seq<PeerRecord>, r: PeerRecord, y: PeerRecord)
    requires Ascending(others, target) && peers == Take(others, CONCURRENCY) && y in peers && r.id !in Ids(peers)
    requires r in others || forall o <- others :: Distance(o.id, target) < Distance(r.id, target)
    ensures Distance(y.id, target) < Distance(r.id, target)
  {
    hide Distance;
    assert forall p: nat | p < |peers| :: peers[p] == others[p] && peers[p].id in Ids(peers);
    if r in others {
      var i: nat :| i < |others| && others[i] == r;
      var j: nat :| j < |peers| && peers[j] == y;
      assert others[j] == y && i >= |peers|;
    } else {
      assert y in others;
    }
  }

  lemma PassedOverMany(others: seq<PeerRecord>, peers: seq<PeerRecord>, r: PeerRecord)
    requires peers == Take(others, CONCURRENCY) && r.id !in Ids(peers)
    requires r in others || |others| >= 29
    ensures |peers| >= 29
  {
    assert |others| <= CONCURRENCY ==> peers == others;
    assert r in peers ==> r.id in Ids(peers);
  }

  // A reply

  /** An awaited reply lets the query ask each peer it contacts from now on, up to 30 at a time:
      none that is passed over is nearer, and nobody is passed over while there are fewer.  A
      query that ends, and a reply nobody waits for, ask nobody. */
  lemma ReplyAsks(p: Peer, target: Id, closest: seq<PeerRecord>, record: PeerRecord)
    requires PeerOk(p) && |p.table.buckets| == BITS && OnReply(p, target, closest, record).Success?
    ensures
      var p' := OnReply(p, target, closest, record).value;
      if Effective(p, target, record) && target in p'.queries then
        var q, q' := p.queries[target], p'.queries[target];
        var more := q'.contacting.Keys - (q.contacting.Keys - {record.id});
        && (q.contacting.Keys - {record.id}) <= q'.contacting.Keys
        && (exists messages :: SentMore(p, messages, p') && AsksEach(messages, more, q'))
        && |q'.contacting| <= 30
        && (forall r <- q'.records | r.id !in q'.contacted + q'.contacting.Keys ::
              && |q'.contacting| == 30
              && forall x <- q'.records | x.id in more :: Distance(x.id, target) < Distance(r.id, target))
      else
        p'.sent == p.sent
  {
    hide QueriesOk, TableOk, ClockOk, Insert, MergeAll, UnsetTimer, Resume, Distance;
    if Effective(p, target, record) {
      var q := p.queries[target];
      QueryAt(p, target);
      MergeAllOk(q.records, closest, target);
      var p1 := p.(table := Insert(p.table, record).value, clock := UnsetTimer(p.clock, q.contacting[record.id]).value);
      var merged := Merged(p, target, closest, record);
      MergedQuery(p.table.origin.id, q, record.id, closest, merged.records);
      assert merged.contacting.Keys == q.contacting.Keys - {record.id};
      ResumeAsks(p1, p.table.origin.id, merged);
    }
  }

  lemma ResumeAsks(p: Peer, own: Id, q: Query)
    requires QueryOk(q.target, own, q) && Resume(p, q).Success?
    ensures
      var p' := Resume(p, q).value;
      if q.target in p'.queries then
        var q' := p'.queries[q.target];
        var more := q'.contacting.Keys - q.contacting.Keys;
        && q' == q.(contacting := q'.contacting) && q.contacting.Keys <= q'.contacting.Keys
        && (exists messages :: SentMore(p, messages, p') && AsksEach(messages, more, q'))
        && |q'.contacting| <= 30
        && (forall r <- q'.records | r.id !in q'.contacted + q'.contacting.Keys ::
              && |q'.contacting| == 30
              && forall x <- q'.records | x.id in more :: Distance(x.id, q.target) < Distance(r.id, q.target))
      else
        p'.sent == p.sent
  {
    hide Fill, Only, Take, UnsetAll, Distance, Ascending, Picks;
    var (q', c', peers) := Fill(q, p.clock, []);
    if FirstOther(q.records, q.contacted) < q.count && q'.contacting != map[] {
      var more := FillPicks(q, p.clock, []);
      assert [] + more == more;
      SelfFilled(own, q);
      FillOk(q, p.clock, []);
      ResumedNearest(q, more, q');
      AskingEach(q, more, q'.contacting.Keys - q.contacting.Keys);
      assert AsksEach(Asking(q, more), q'.contacting.Keys - q.contacting.Keys, q');
      assert SentMore(p, Asking(q, more), Resume(p, q).value);
    }
  }

  lemma ResumedNearest(q: Query, more: seq<PeerRecord>, q': Query)
    requires Picks(q, more, q') && Filled(q, q')
    requires |q'.contacting| < CONCURRENCY ==> forall r <- q.records :: r.id in q.contacted + q'.contacting.Keys
    ensures q' == q.(contacting := q'.contacting) && q.contacting.Keys <= q'.contacting.Keys
    ensures Ids(more) == q'.contacting.Keys - q.contacting.Keys && |Ids(more)| == |more| && forall r <- more :: r in q.records
    ensures |q'.contacting| <= 30
    ensures forall r <- q'.records | r.id !in q'.contacted + q'.contacting.Keys ::
              && |q'.contacting| == 30
              && forall x <- q'.records | x.id in Ids(more) :: Distance(x.id, q.target) < Distance(r.id, q.target)
  {
    hide Distance;
    forall r <- q'.records, x <- q'.records | r.id !in q'.contacted + q'.contacting.Keys && x.id in Ids(more)
      ensures Distance(x.id, q.target) < Distance(r.id, q.target)
    {
      var y :| y in more && y.id == x.id;
    }
  }

  // The table

  /** The record is among the records or the spares of the table. */
  ghost predicate Stored(t: Table, record: PeerRecord) {
    exists i: nat :: i < |t.buckets| && record in t.buckets[i].records + t.buckets[i].cached
  }

  lemma InsertStores(t: Table, record: PeerRecord)
    requires TableOk(t) && Insert(t, record).Success?
    ensures Stored(Insert(t, record).value, record)
  {
    hide Index, BucketOk, Without;
    var i, t' := Index(t.origin.id, record.id), Insert(t, record).value;
    assert BucketOk(t.buckets[i]);
    InsertedIsIn(t.buckets[i], record);
    assert record in t'.buckets[i].records + t'.buckets[i].cached;
  }

  lemma InsertedIsIn(b: Bucket, record: PeerRecord)
    ensures record in InsertInto(b, record).records + InsertInto(b, record).cached
  {
    var b' := InsertInto(b, record);
    var all := b'.records + b'.cached;
    if |Without(b.records, record.id)| < BUCKET_SIZE {
      assert all[|b'.records| - 1] == record;
    } else {
      assert all[|all| - 1] == record;
    }
  }

  /** Whoever sends a reply or a question that is handled is in the table then. */
  lemma SenderIsStored(p: Peer, e: Event)
    requires PeerOk(p) && |p.table.buckets| == BITS && Possible(p, e) && Handle(p, e).Success?
    ensures e.Reply? || e.Asked? ==> Stored(Handle(p, e).value.table, e.record)
    ensures e.Start? ==> Handle(p, e).value.table == p.table
  {
    hide TableOk, QueriesOk, ClockOk, Resume, FindClosest, Insert, Stored, MergeAll;
    match e
    case Start(_, _) =>
    case Reply(_, _, record) => InsertStores(p.table, record);
    case Asked(record, _, _) => InsertStores(p.table, record);
    case Expire(timer) => ExpireOk(p, timer);
  }

  // Runs

  /** Whoever is being contacted was asked, with the target and the count of its query. */
  ghost predicate ContactsAsked(p: Peer) {
    forall target <- p.queries, id <- p.queries[target].contacting :: AskedFor(p.sent, id, p.queries[target])
  }

  ghost predicate AskedFor(sent: seq<FindPeer>, id: Id, q: Query) {
    exists m <- sent :: m.dest.id == id && m.target == q.target && m.count == q.count
  }

  lemma MoreAsked(sent: seq<FindPeer>, messages: seq<FindPeer>, ids: set<Id>, q: Query)
    requires AsksEach(messages, ids, q)
    ensures forall id <- ids :: AskedFor(sent + messages, id, q)
  {
    forall id <- ids ensures AskedFor(sent + messages, id, q) {
      var m :| m in messages && m.dest.id == id;
      assert m in sent + messages;
    }
  }

  lemma StillAsked(sent: seq<FindPeer>, messages: seq<FindPeer>, id: Id, q: Query, q': Query)
    requires AskedFor(sent, id, q) && q'.target == q.target && q'.count == q.count
    ensures AskedFor(sent + messages, id, q')
  {
    var m :| m in sent && m.dest.id == id && m.target == q.target && m.count == q.count;
    assert m in sent + messages;
  }

  /** In every run, whoever a live query is contacting was sent a message with its target and
      its count. */
  lemma {:induction false} EveryContactWasAsked(t: Table, events: seq<Event>)
    requires TableOk(t) && |t.buckets| == BITS && AfterEvents(t, events).Some?
    ensures ContactsAsked(AfterEvents(t, events).value)
  {
    hide Handle, Possible, TableOk, ContactsAsked, AfterEvents;
    if events == [] {
      NothingAsked(t);
    } else {
      var before := events[..|events| - 1];
      StepOf(t, events);
      EveryContactWasAsked(t, before);
      RunOk(t, before);
      StepAsks(AfterEvents(t, before).value, events[|events| - 1]);
    }
  }

  lemma StartKeepsAsked(p: Peer, target: Id, count: nat)
    requires PeerOk(p) && |p.table.buckets| == BITS && count > 0 && OnStart(p, target, count).Success? && ContactsAsked(p)
    ensures ContactsAsked(OnStart(p, target, count).value)
  {
    hide PeerOk, AskedFor, AsksEach, FindClosest, Take, Except, ContactAll, AllRecords, Distance;
    StartAsks(p, target, count);
    var p' := OnStart(p, target, count).value;
    var q := p'.queries[target];
    var messages :| SentMore(p, messages, p') && AsksEach(messages, q.contacting.Keys, q);
    MoreAsked(p.sent, messages, q.contacting.Keys, q);
    forall other <- p'.queries, id <- p'.queries[other].contacting ensures AskedFor(p'.sent, id, p'.queries[other]) {
      if other == target {
        assert id in q.contacting.Keys;
      } else {
        StillAsked(p.sent, messages, id, p.queries[other], p.queries[other]);
      }
    }
  }

  lemma ReplyKeepsAsked(p: Peer, target: Id, closest: seq<PeerRecord>, record: PeerRecord)
    requires PeerOk(p) && |p.table.buckets| == BITS && OnReply(p, target, closest, record).Success? && ContactsAsked(p)
    ensures ContactsAsked(OnReply(p, target, closest, record).value)
  {
    hide PeerOk, AskedFor, AsksEach, Distance, Resume, Insert, MergeAll, UnsetTimer;
    var p' := OnReply(p, target, closest, record).value;
    if Effective(p, target, record) {
      ReplyAsks(p, target, closest, record);
      QueryAt(p, target);
      var p1 := p.(table := Insert(p.table, record).value, clock := UnsetTimer(p.clock, p.queries[target].contacting[record.id]).value);
      var merged := Merged(p, target, closest, record);
      var messages: seq<FindPeer> := [];
      if target in p'.queries {
        var q, q' := p.queries[target], p'.queries[target];
        var more := q'.contacting.Keys - (q.contacting.Keys - {record.id});
        messages :| SentMore(p, messages, p') && AsksEach(messages, more, q');
        MoreAsked(p.sent, messages, more, q');
      }
      assert p.sent + [] == p.sent;
      ResumeKeepsRest(p1, merged, target);
      forall other <- p'.queries, id <- p'.queries[other].contacting ensures AskedFor(p'.sent, id, p'.queries[other]) {
        ResumeKeepsRest(p1, merged, other);
        if other != target || id in p.queries[target].contacting.Keys - {record.id} {
          StillAsked(p.sent, messages, id, p.queries[other], p'.queries[other]);
        } else {
          assert id in p'.queries[target].contacting.Keys;
        }
      }
    }
  }

  lemma StepAsks(p: Peer, e: Event)
    requires PeerOk(p) && |p.table.buckets| == BITS && Possible(p, e) && Handle(p, e).Success? && ContactsAsked(p)
    ensures ContactsAsked(Handle(p, e).value)
  {
    hide PeerOk, ContactsAsked, OnStart, OnReply;
    match e
    case Start(target, count) => StartKeepsAsked(p, target, count);
    case Reply(target, closest, record) => ReplyKeepsAsked(p, target, closest, record);
    case Asked(record, target, count) => AskedKeepsAsked(p, record, target, count);
    case Expire(timer) => ExpireOk(p, timer);
  }

  /** Answering a question asks nobody. */
  lemma AskedKeepsAsked(p: Peer, record: PeerRecord, target: Id, count: nat)
    requires |p.table.buckets| == BITS && OnAsked(p, record, target, count).Success?
    ensures OnAsked(p, record, target, count).value.sent == p.sent
    ensures ContactsAsked(p) ==> ContactsAsked(OnAsked(p, record, target, count).value)
  {
    hide AskedFor;
  }

  lemma StepOf(t: Table, events: seq<Event>)
    requires |t.buckets| == BITS && events != [] && AfterEvents(t, events).Some?
    ensures
      var before, e := AfterEvents(t, events[..|events| - 1]), events[|events| - 1];
      && before.Some? && Possible(before.value, e) && Handle(before.value, e) == Success(AfterEvents(t, events).value)
  {
  }

  lemma NothingAsked(t: Table)
    requires |t.buckets| == BITS
    ensures AfterEvents(t, []).Some? && ContactsAsked(AfterEvents(t, []).value)
  {
  }
}
