/** What every run of a peer keeps: the live timers are the peers being contacted by live
    queries, one each, and no handler fails but for the reasons it names. */
module KademliaRuns {
  import opened Wrappers
  import opened KademliaIds
  import opened KademliaBuckets
  import opened KademliaLookup
  import opened KademliaQuery
  import opened KademliaOutcome

  /** This timer was set for a peer that a live query is contacting. */
  predicate Backed(queries: map<Id, Query>, c: Clock, timer: nat)
    requires timer in c.live
  {
    var (target, r) := c.live[timer];
    target in queries && r.id in queries[target].contacting && queries[target].contacting[r.id] == timer
  }

  /** This contact of a live query has its timer. */
  predicate Timed(c: Clock, target: Id, id: Id, timer: nat) {
    timer in c.live && c.live[timer].0 == target && c.live[timer].1.id == id
  }

  ghost predicate ClockOk(queries: map<Id, Query>, c: Clock) {
    && (forall timer <- c.live :: timer <= c.last && Backed(queries, c, timer))
    && (forall target <- queries, id <- queries[target].contacting :: Timed(c, target, id, queries[target].contacting[id]))
  }

  /** A query that is contacting nobody knew of nobody. */
  ghost predicate Alive(own: Id, q: Query) {
    q.contacting == map[] ==> forall r <- q.records :: r.id == own
  }

  ghost predicate QueriesOk(own: Id, queries: map<Id, Query>) {
    forall target <- queries :: QueryOk(target, own, queries[target]) && Alive(own, queries[target])
  }

  ghost predicate PeerOk(p: Peer) {
    TableOk(p.table) && QueriesOk(p.table.origin.id, p.queries) && ClockOk(p.queries, p.clock)
  }

  // The clock

  lemma ContactClock(queries: map<Id, Query>, q: Query, c: Clock, r: PeerRecord)
    requires ClockOk(queries[q.target := q], c) && r.id !in q.contacting
    ensures var (q', c') := Contact(q, c, r); ClockOk(queries[q.target := q'], c')
  {
    var (q', c') := Contact(q, c, r);
    var before, after := queries[q.target := q], queries[q.target := q'];
    forall timer <- c'.live ensures timer <= c'.last && Backed(after, c', timer) {
      if timer != c'.last {
        assert Backed(before, c, timer);
      }
    }
    forall target <- after, id <- after[target].contacting ensures Timed(c', target, id, after[target].contacting[id]) {
      if !(target == q.target && id == r.id) {
        assert target in before && id in before[target].contacting;
        assert Timed(c, target, id, before[target].contacting[id]);
      }
    }
  }

  lemma {:induction false} FillClock(queries: map<Id, Query>, q: Query, c: Clock, picked: seq<PeerRecord>)
    requires ClockOk(queries[q.target := q], c)
    ensures var (q', c', peers) := Fill(q, c, picked); ClockOk(queries[q.target := q'], c')
    decreases CONCURRENCY - |q.contacting|
  {
    hide ClockOk, Contact;
    if |q.contacting| < CONCURRENCY {
      var i := FirstOther(q.records, q.contacted + q.contacting.Keys);
      if i < |q.records| {
        var (q1, c1) := Contact(q, c, q.records[i]);
        ContactClock(queries, q, c, q.records[i]);
        ContactedOne(q, c, q.records[i]);
        FillClock(queries, q1, c1, picked + [q.records[i]]);
      }
    }
  }

  lemma ContactedOne(q: Query, c: Clock, r: PeerRecord)
    requires r.id !in q.contacting
    ensures
      var q' := Contact(q, c, r).0;
      && q' == q.(contacting := q'.contacting) && q'.contacting.Keys == q.contacting.Keys + {r.id}
      && |q'.contacting| == |q.contacting| + 1
  {
    var (q', c') := Contact(q, c, r);
    assert q'.contacting == q.contacting[r.id := c'.last];
  }

  lemma {:induction false} ContactAllOk(queries: map<Id, Query>, q: Query, c: Clock, records: seq<PeerRecord>)
    requires ClockOk(queries[q.target := q], c) && Distinct(records) && q.contacting.Keys !! Ids(records)
    ensures
      var (q', c') := ContactAll(q, c, records);
      && q' == q.(contacting := q'.contacting) && q'.contacting.Keys == q.contacting.Keys + Ids(records)
      && |q'.contacting| == |q.contacting| + |records|
      && ClockOk(queries[q.target := q'], c')
    decreases |records|
  {
    hide ClockOk, Contact, Distinct, Ids;
    if records == [] {
      NoIds(records);
    } else {
      var r, rest := records[0], records[1..];
      HeadIds(records);
      ContactClock(queries, q, c, r);
      ContactedOne(q, c, r);
      var (q1, c1) := Contact(q, c, r);
      ContactAllOk(queries, q1, c1, rest);
    }
  }

  lemma HeadIds(records: seq<PeerRecord>)
    requires Distinct(records) && records != []
    ensures Distinct(records[1..]) && records[0].id !in Ids(records[1..]) && Ids(records) == {records[0].id} + Ids(records[1..])
  {
    assert records == [records[0]] + records[1..];
    DistinctParts([records[0]], records[1..]);
    assert [records[0]][0] == records[0];
    assert records[0].id in Ids([records[0]]);
  }

  /** Unsetting the timer of a contact that answered. */
  lemma UnsetClock(queries: map<Id, Query>, q: Query, c: Clock, id: Id, records: seq<PeerRecord>)
    requires ClockOk(queries, c) && q.target in queries && queries[q.target] == q && id in q.contacting
    ensures UnsetTimer(c, q.contacting[id]).Success?
    ensures ClockOk(queries[q.target := Contacted(q, id).(records := records)], UnsetTimer(c, q.contacting[id]).value)
  {
    var gone := q.contacting[id];
    assert Timed(c, q.target, id, gone);
    var c' := UnsetTimer(c, gone).value;
    var after := queries[q.target := Contacted(q, id).(records := records)];
    forall timer <- c'.live ensures timer <= c'.last && Backed(after, c', timer) {
      assert Backed(queries, c, timer);
    }
    forall target <- after, other <- after[target].contacting ensures Timed(c', target, other, after[target].contacting[other]) {
      assert Timed(c, target, other, queries[target].contacting[other]);
    }
  }

  /** Ending a query unsets the timers of all its contacts. */
  lemma EndClock(queries: map<Id, Query>, q: Query, c: Clock)
    requires ClockOk(queries[q.target := q], c)
    ensures q.contacting.Values <= c.live.Keys
    ensures ClockOk(queries - {q.target}, c.(live := c.live - q.contacting.Values))
  {
    var before, after := queries[q.target := q], queries - {q.target};
    forall timer <- q.contacting.Values ensures timer in c.live && c.live[timer].0 == q.target {
      var id :| id in q.contacting && q.contacting[id] == timer;
      assert q.target in before && id in before[q.target].contacting;
      assert Timed(c, q.target, id, timer);
    }
    var c' := c.(live := c.live - q.contacting.Values);
    forall timer <- c'.live ensures timer <= c'.last && Backed(after, c', timer) {
      assert Backed(before, c, timer);
    }
    forall target <- after, id <- after[target].contacting ensures Timed(c', target, id, after[target].contacting[id]) {
      assert target in before && id in before[target].contacting;
      assert Timed(c, target, id, before[target].contacting[id]);
    }
  }

  // The events

  lemma {:induction false} ExceptOk(records: seq<PeerRecord>, id: Id, target: Id)
    requires Ascending(records, target)
    ensures Ascending(Except(records, id), target)
    ensures forall q :: q in Except(records, id) <==> q in records && q.id != id
  {
    hide Distance;
    if records != [] {
      ExceptOk(records[1..], id, target);
      assert records == [records[0]] + records[1..];
      forall q <- Except(records[1..], id) ensures Distance(records[0].id, target) < Distance(q.id, target) {
        assert q in records[1..];
      }
    }
  }

  lemma AscendingDistinct(records: seq<PeerRecord>, target: Id)
    requires Ascending(records, target)
    ensures Distinct(records)
  {
  }

  /** The peers a query contacts first, and the query that contacts them. */
  lemma StartOk(p: Peer, target: Id, count: nat)
    requires PeerOk(p) && count > 0
    ensures |p.table.buckets| == BITS
    ensures OnStart(p, target, count).Success? <==> target !in p.queries
    ensures OnStart(p, target, count).Failure? ==> OnStart(p, target, count).error == ConcurrentQuery
    ensures OnStart(p, target, count).Success? ==> PeerOk(OnStart(p, target, count).value)
    ensures OnStart(p, target, count).Success? ==>
              var q := OnStart(p, target, count).value.queries[target];
              q.contacting == map[] <==> AllRecords(p.table) == {p.table.origin}
  {
    SizeOk(p.table);
    if target !in p.queries {
      FreshQuery(p, target, count);
    }
  }

  lemma FreshQuery(p: Peer, target: Id, count: nat)
    requires PeerOk(p) && count > 0 && target !in p.queries && |p.table.buckets| == BITS
    ensures
      var p' := OnStart(p, target, count).value;
      PeerOk(p') && (p'.queries[target].contacting == map[] <==> AllRecords(p.table) == {p.table.origin})
  {
    hide TableOk, Ascending, Nearest, Take, Except, ContactAll, FindClosest, AllRecords, QueryOk;
    var own := p.table.origin.id;
    var limit := if count > CONCURRENCY then count else CONCURRENCY;
    var records := FindClosest(p.table, target, limit);
    var peers := Take(Except(records, own), CONCURRENCY);
    LookupExact(p.table, target, limit);
    PeersOk(p.table, target, limit, records, peers);
    var q := Query(target, count, records, map[], {own});
    assert ClockOk(p.queries[target := q], p.clock) by { NewQueryClock(p.queries, q, p.clock); }
    ContactAllOk(p.queries, q, p.clock, peers);
    var q' := ContactAll(q, p.clock, peers).0;
    StartedQuery(own, q, q', peers);
    if q'.contacting == map[] {
      assert q'.contacting.Keys == {};
    }
  }

  lemma NewQueryClock(queries: map<Id, Query>, q: Query, c: Clock)
    requires ClockOk(queries, c) && q.target !in queries && q.contacting == map[]
    ensures ClockOk(queries[q.target := q], c)
  {
    var after := queries[q.target := q];
    forall timer <- c.live ensures timer <= c.last && Backed(after, c, timer) {
      assert Backed(queries, c, timer);
    }
  }

  lemma PeersOk(t: Table, target: Id, limit: nat, records: seq<PeerRecord>, peers: seq<PeerRecord>)
    requires |t.buckets| == BITS && TableOk(t) && limit >= CONCURRENCY && Nearest(AllRecords(t), target, limit, records)
    requires peers == Take(Except(records, t.origin.id), CONCURRENCY)
    ensures Ascending(records, target) && Distinct(peers) && |peers| <= CONCURRENCY
    ensures t.origin.id !in Ids(peers) && Ids(peers) <= Ids(records)
    ensures peers == [] ==> forall r <- records :: r.id == t.origin.id
    ensures peers == [] <==> AllRecords(t) == {t.origin}
  {
    hide Distance, TableOk, AllRecords;
    var others := Except(records, t.origin.id);
    ExceptOk(records, t.origin.id, target);
    TakeNearest(others, target, CONCURRENCY);
    AscendingDistinct(peers, target);
    assert forall r <- peers :: r in others;
    forall id <- Ids(peers) ensures id in Ids(records) && id != t.origin.id {
      var r :| r in peers && r.id == id;
      assert r in records;
    }
    OriginIn(t);
    if others == [] {
      OnlyOrigin(t, records, target, limit);
    } else {
      assert others[0] in others;
      assert others[0] in AllRecords(t) && others[0].id != t.origin.id;
    }
  }

  lemma OriginIn(t: Table)
    requires |t.buckets| == BITS
    ensures t.origin in AllRecords(t)
  {
    assert t.origin in Content(t, 0);
  }

  /** If nobody else is found among the first 30 or more, there is nobody else. */
  lemma OnlyOrigin(t: Table, records: seq<PeerRecord>, target: Id, limit: nat)
    requires |t.buckets| == BITS && t.origin in AllRecords(t) && limit >= CONCURRENCY && Nearest(AllRecords(t), target, limit, records)
    requires forall r <- records :: r.id == t.origin.id
    ensures AllRecords(t) == {t.origin}
  {
    hide Distance, AllRecords;
    var all := AllRecords(t);
    AscendingDistinct(records, target);
    OneId(records, t.origin.id);
    assert |all| == |records|;
    assert |all - {t.origin}| == |all| - 1;
  }

  lemma OneId(records: seq<PeerRecord>, id: Id)
    requires Distinct(records) && forall r <- records :: r.id == id
    ensures |records| <= 1
  {
    assert |records| > 1 ==> records[0].id != records[1].id;
    forall i: nat | i < |records| ensures records[i].id == id {
      assert records[i] in records;
    }
  }

  lemma StartedQuery(own: Id, q: Query, q': Query, peers: seq<PeerRecord>)
    requires q.count >= 1 && Ascending(q.records, q.target) && q.contacted == {own} && q.contacting == map[]
    requires own !in Ids(peers) && Ids(peers) <= Ids(q.records) && |peers| <= CONCURRENCY
    requires q' == q.(contacting := q'.contacting) && q'.contacting.Keys == Ids(peers) && |q'.contacting| == |peers|
    requires peers == [] ==> forall r <- q.records :: r.id == own
    ensures QueryOk(q.target, own, q') && Alive(own, q')
    ensures q'.contacting == map[] <==> peers == []
  {
  }

  /** The query right after a reply was merged into it. */
  lemma MergedQuery(own: Id, q: Query, id: Id, closest: seq<PeerRecord>, records: seq<PeerRecord>)
    requires QueryOk(q.target, own, q) && id in q.contacting
    requires Ascending(records, q.target) && forall r :: r in records <==> r in q.records || r in closest
    ensures QueryOk(q.target, own, Contacted(q, id).(records := records))
    ensures id !in q.contacted
  {
    hide Ascending;
    forall other <- Ids(q.records) ensures other in Ids(records) {
      var r :| r in q.records && r.id == other;
      assert r in records;
    }
    var left := q.contacting - {id};
    assert left.Keys == q.contacting.Keys - {id};
    assert |left| == |left.Keys| && |q.contacting| == |q.contacting.Keys|;
  }

  lemma FilledQuery(own: Id, q: Query, q': Query)
    requires QueryOk(q.target, own, q) && Filled(q, q')
    ensures QueryOk(q.target, own, q')
  {
  }

  lemma SelfFilled(own: Id, q: Query)
    requires QueryOk(q.target, own, q)
    ensures Filled(q, q)
  {
  }

  lemma HaltClock(queries: map<Id, Query>, q: Query, c: Clock)
    requires ClockOk(queries[q.target := q], c) && q.contacting == map[]
    ensures ClockOk(queries - {q.target}, c)
  {
    EndClock(queries, q, c);
    assert c.live - q.contacting.Values == c.live;
  }

  lemma OthersOk(own: Id, queries: map<Id, Query>, q: Query)
    requires QueriesOk(own, queries - {q.target}) && QueryOk(q.target, own, q) && q.contacting != map[]
    ensures QueriesOk(own, queries[q.target := q])
  {
    forall target <- queries | target != q.target ensures target in queries - {q.target} {
    }
  }

  lemma ResumeOk(p: Peer, q: Query)
    requires TableOk(p.table) && QueriesOk(p.table.origin.id, p.queries - {q.target})
    requires QueryOk(q.target, p.table.origin.id, q) && ClockOk(p.queries[q.target := q], p.clock)
    ensures Resume(p, q).Success? && PeerOk(Resume(p, q).value)
    ensures q.target in Resume(p, q).value.queries ==> Resume(p, q).value.queries[q.target].contacted == q.contacted
  {
    hide ClockOk, QueryOk, QueriesOk, Fill, Only, Take, TableOk, Filled;
    if FirstOther(q.records, q.contacted) >= q.count {
      EndClock(p.queries, q, p.clock);
    } else {
      FillClock(p.queries, q, p.clock, []);
      SelfFilled(p.table.origin.id, q);
      FillOk(q, p.clock, []);
      var (q', c', peers) := Fill(q, p.clock, []);
      FilledQuery(p.table.origin.id, q, q');
      assert q'.target == q.target && q'.contacted == q.contacted by { FilledSame(q, q'); }
      if q'.contacting == map[] {
        HaltClock(p.queries, q', c');
      } else {
        OthersOk(p.table.origin.id, p.queries, q');
      }
    }
  }

  lemma FilledSame(q: Query, q': Query)
    requires Filled(q, q')
    ensures q'.target == q.target && q'.contacted == q.contacted
  {
  }

  /** A reply adds exactly the peer that sent it to those contacted, once. */
  lemma ReplyOk(p: Peer, target: Id, closest: seq<PeerRecord>, record: PeerRecord)
    requires PeerOk(p)
    ensures |p.table.buckets| == BITS
    ensures
      OnReply(p, target, closest, record).Failure? <==>
        || record.id == p.table.origin.id
        || (Effective(p, target, record) && !AllCompatible(p.queries[target].records, closest))
    ensures
      OnReply(p, target, closest, record).Failure? ==>
        OnReply(p, target, closest, record).error == if record.id == p.table.origin.id then OriginInserted else NonDistinctDistance
    ensures OnReply(p, target, closest, record).Success? ==> PeerOk(OnReply(p, target, closest, record).value)
    ensures
      OnReply(p, target, closest, record).Success? && Effective(p, target, record) ==>
        var p' := OnReply(p, target, closest, record).value;
        && record.id !in p.queries[target].contacted
        && (target in p'.queries ==> p'.queries[target].contacted == p.queries[target].contacted + {record.id})
  {
    hide QueryOk, ClockOk, Resume, TableOk, AllCompatible, Alive;
    SizeOk(p.table);
    InsertKeepsTable(p.table, record);
    if Insert(p.table, record).Success? && Effective(p, target, record) {
      var q := p.queries[target];
      assert QueryOk(target, p.table.origin.id, q);
      QueryFacts(target, p.table.origin.id, q);
      MergeAllOk(q.records, closest, target);
      UnsetClock(p.queries, q, p.clock, record.id, q.records);
      if MergeAll(q.records, closest, target).Success? {
        var records := MergeAll(q.records, closest, target).value;
        UnsetClock(p.queries, q, p.clock, record.id, records);
        MergedQuery(p.table.origin.id, q, record.id, closest, records);
        var p1 := p.(table := Insert(p.table, record).value, clock := UnsetTimer(p.clock, q.contacting[record.id]).value);
        ResumeOk(p1, Contacted(q, record.id).(records := records));
      }
    }
  }

  /** The query a reply leads to, before it goes on or ends. */
  function Merged(p: Peer, target: Id, closest: seq<PeerRecord>, record: PeerRecord): Query
    requires Effective(p, target, record) && MergeAll(p.queries[target].records, closest, target).Success?
  {
    var q := p.queries[target];
    Contacted(q, record.id).(records := MergeAll(q.records, closest, target).value)
  }

  /** The result of every reply a query waited for: what it says of the records known now,
      and that the query lives on exactly when it says so. */
  lemma ReplyOutcome(p: Peer, target: Id, closest: seq<PeerRecord>, record: PeerRecord)
    requires PeerOk(p) && Effective(p, target, record)
    requires |p.table.buckets| == BITS && OnReply(p, target, closest, record).Success?
    ensures MergeAll(p.queries[target].records, closest, target).Success?
    ensures
      var p', q := OnReply(p, target, closest, record).value, Merged(p, target, closest, record);
      && |p'.upcalls| == |p.upcalls| + 1
      && var r := p'.upcalls[|p.upcalls|];
      && r.target == target
      && Known(q) == Known(p.queries[target]) + (set c <- closest)
      && (r.status == Converge <==> NearestContacted(q))
      && (r.status == Halted <==> AllContacted(q) && |q.records| < q.count)
      && (r.status != Progress ==> Nearest(Known(q), target, q.count, r.closest))
      && (r.status == Progress <==> target in p'.queries)
      && (r.status == Progress ==> p'.queries[target].contacting != map[])
  {
    hide QueryOk, Resume, TableOk, Alive, Nearest, AllContacted, NearestContacted;
    InsertKeepsTable(p.table, record);
    var q := p.queries[target];
    assert QueryOk(target, p.table.origin.id, q);
    QueryFacts(target, p.table.origin.id, q);
    MergeAllOk(q.records, closest, target);
    var merged := Merged(p, target, closest, record);
    MergedQuery(p.table.origin.id, q, record.id, closest, merged.records);
    UnsetClock(p.queries, q, p.clock, record.id, merged.records);
    var p1 := p.(table := Insert(p.table, record).value, clock := UnsetTimer(p.clock, q.contacting[record.id]).value);
    EndClock(p.queries, merged, p1.clock);
    ExactOutcome(p1, p.table.origin.id, merged);
    EndedOrNot(p1, p.table.origin.id, merged);
  }

  /** The records every awaited reply hands up, also on the way: the nearest of those known
      now whose peers have answered. */
  lemma ReplyHandsUp(p: Peer, target: Id, closest: seq<PeerRecord>, record: PeerRecord)
    requires PeerOk(p) && Effective(p, target, record)
    requires |p.table.buckets| == BITS && OnReply(p, target, closest, record).Success?
    ensures MergeAll(p.queries[target].records, closest, target).Success?
    ensures
      var p', q := OnReply(p, target, closest, record).value, Merged(p, target, closest, record);
      && q.contacted == p.queries[target].contacted + {record.id}
      && Known(q) == Known(p.queries[target]) + (set c <- closest)
      && |p'.upcalls| == |p.upcalls| + 1 && p'.upcalls[..|p.upcalls|] == p.upcalls
      && Nearest(ContactedRecords(q), target, q.count, p'.upcalls[|p.upcalls|].closest)
  {
    hide QueryOk, Resume, TableOk, Alive, Nearest, ClockOk;
    var q := p.queries[target];
    assert QueryOk(target, p.table.origin.id, q);
    QueryFacts(target, p.table.origin.id, q);
    MergeAllOk(q.records, closest, target);
    var p1 := p.(table := Insert(p.table, record).value, clock := UnsetTimer(p.clock, q.contacting[record.id]).value);
    HandsUpContacted(p1, Merged(p, target, closest, record));
  }

  lemma EndedOrNot(p: Peer, own: Id, q: Query)
    requires QueryOk(q.target, own, q) && q.contacting.Values <= p.clock.live.Keys
    ensures Resume(p, q).Success?
    ensures Resume(p, q).value.upcalls[|p.upcalls|].status == Progress <==> q.target in Resume(p, q).value.queries
  {
    hide Fill, Only, Take, QueryOk;
    SelfFilled(own, q);
    FillOk(q, p.clock, []);
    FilledSame(q, Fill(q, p.clock, []).0);
  }

  lemma QueryFacts(target: Id, own: Id, q: Query)
    requires QueryOk(target, own, q)
    ensures q.target == target && Ascending(q.records, target)
  {
  }

  /** A timer that expires finds its query: looking it up cannot fail. */
  lemma ExpireOk(p: Peer, timer: nat)
    requires PeerOk(p) && timer in p.clock.live
    ensures OnExpire(p, timer) == Failure(Timeout)
  {
    assert Backed(p.queries, p.clock, timer);
  }

  /** A peer that asks is answered with the records nearest its target, itself included. */
  lemma AskedOk(p: Peer, record: PeerRecord, target: Id, count: nat)
    requires PeerOk(p)
    ensures |p.table.buckets| == BITS
    ensures OnAsked(p, record, target, count).Failure? <==> record.id == p.table.origin.id
    ensures OnAsked(p, record, target, count).Failure? ==> OnAsked(p, record, target, count).error == OriginInserted
    ensures
      OnAsked(p, record, target, count).Success? ==>
        var p' := OnAsked(p, record, target, count).value;
        && PeerOk(p') && |p'.table.buckets| == BITS && |p'.answers| == |p.answers| + 1
        && var answer := p'.answers[|p.answers|];
        && answer.dest == record && answer.target == target
        && Nearest(AllRecords(p'.table), target, count, answer.closest)
  {
    hide QueriesOk, ClockOk, Nearest, FindClosest, AllRecords;
    SizeOk(p.table);
    InsertKeepsTable(p.table, record);
    if record.id != p.table.origin.id {
      LookupExact(Insert(p.table, record).value, target, count);
    }
  }

  lemma PeerSize(p: Peer)
    requires PeerOk(p)
    ensures |p.table.buckets| == BITS
  {
  }

  /** No handler keeps anything but this from holding, and none panics. */
  lemma HandleOk(p: Peer, e: Event)
    requires PeerOk(p) && Possible(p, e)
    ensures |p.table.buckets| == BITS
    ensures Handle(p, e).Success? ==> PeerOk(Handle(p, e).value)
    ensures Handle(p, e).Failure? ==> Handle(p, e).error in {ConcurrentQuery, OriginInserted, NonDistinctDistance, Timeout}
  {
    hide PeerOk, OnStart, OnReply, OnAsked, OnExpire;
    PeerSize(p);
    match e
    case Start(target, count) => StartOk(p, target, count);
    case Reply(target, closest, record) => ReplyOk(p, target, closest, record);
    case Asked(record, target, count) => AskedOk(p, record, target, count);
    case Expire(timer) => ExpireOk(p, timer);
  }

  /** The peer after these events, none if one of them is impossible or fails. */
  function AfterEvents(t: Table, events: seq<Event>): (p: Option<Peer>)
    requires |t.buckets| == BITS
    ensures p.Some? ==> |p.value.table.buckets| == BITS
  {
    if events == [] then Some(NewPeer(t))
    else
      match AfterEvents(t, events[..|events| - 1])
      case None => None
      case Some(p) =>
        var e := events[|events| - 1];
        if !Possible(p, e) then None
        else match Handle(p, e)
          case Failure(_) => None
          case Success(next) => Some(next)
  }

  lemma {:induction false} RunOk(t: Table, events: seq<Event>)
    requires TableOk(t) && |t.buckets| == BITS && AfterEvents(t, events).Some?
    ensures PeerOk(AfterEvents(t, events).value)
  {
    hide Possible, Handle;
    if events != [] {
      var before := events[..|events| - 1];
      RunOk(t, before);
      HandleOk(AfterEvents(t, before).value, events[|events| - 1]);
    }
  }

  /** In every run: records of a query strictly ascend, nobody is both contacted and being
      contacted, at most 30 are being contacted, the live timers are exactly the contacts of
      live queries, and a query that contacts nobody found nobody to contact when it began. */
  lemma QueryRuns(t: Table, events: seq<Event>, target: Id)
    requires TableOk(t) && |t.buckets| == BITS && AfterEvents(t, events).Some?
    requires target in AfterEvents(t, events).value.queries
    ensures
      var p := AfterEvents(t, events).value;
      var q := p.queries[target];
      && Ascending(q.records, target)
      && q.contacting.Keys !! q.contacted && |q.contacting| <= 30
      && (forall id <- q.contacting :: Timed(p.clock, target, id, q.contacting[id]))
      && (q.contacting == map[] ==> forall r <- q.records :: r.id == p.table.origin.id)
      && q.contacted <= Ids(q.records) + {p.table.origin.id}
    ensures
      var p := AfterEvents(t, events).value;
      forall timer <- p.clock.live :: Backed(p.queries, p.clock, timer)
  {
    hide AfterEvents;
    RunOk(t, events);
  }
}
