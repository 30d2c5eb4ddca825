/** What the outcomes of a query mean, and what every run of a peer keeps. */
module KademliaOutcome {
  import opened Wrappers
  import opened KademliaIds
  import opened KademliaBuckets
  import opened KademliaLookup
  import opened KademliaQuery

  // Merging

  /** The records differ in more than their ids only if their ids differ. */
  predicate Compatible(records: seq<PeerRecord>, r: PeerRecord) {
    forall q <- records :: q.id == r.id ==> q == r
  }

  lemma MergeOneOk(records: seq<PeerRecord>, r: PeerRecord, target: Id)
    requires Ascending(records, target)
    ensures MergeOne(records, r, target).Success? <==> Compatible(records, r)
    ensures MergeOne(records, r, target).Success? ==>
              var merged := MergeOne(records, r, target).value;
              && Ascending(merged, target) && r in merged && |records| <= |merged| <= |records| + 1
              && forall q :: q in merged <==> q in records || q == r
    ensures MergeOne(records, r, target).Failure? ==> MergeOne(records, r, target).error == NonDistinctDistance
  {
    hide Distance;
    var i := SearchPosition(records, Distance(r.id, target), target);
    if i < |records| && Distance(records[i].id, target) == Distance(r.id, target) {
      DistanceInjective(records[i].id, r.id, target);
      assert records[i] in records;
      forall q <- records | q.id == r.id ensures q == records[i] {
        var j: nat :| j < |records| && records[j] == q;
      }
    } else {
      forall q <- records ensures q.id != r.id {
        var j: nat :| j < |records| && records[j] == q;
      }
      MergedAscends(records, r, target, i);
    }
  }

  lemma MergedAscends(records: seq<PeerRecord>, r: PeerRecord, target: Id, i: nat)
    requires Ascending(records, target) && i <= |records|
    requires forall j | 0 <= j < i :: Distance(records[j].id, target) < Distance(r.id, target)
    requires i < |records| ==> Distance(r.id, target) < Distance(records[i].id, target)
    ensures
      var merged := records[..i] + [r] + records[i..];
      && Ascending(merged, target) && r in merged
      && forall q :: q in merged <==> q in records || q == r
  {
    hide Distance, Ascending;
    var a, b := records[..i], records[i..];
    assert records == a + b;
    SplitAscending(records, target, i);
    OneAscends(r, target);
    AscendingParts(a, [r], target);
    AscendingParts(a + [r], b, target);
  }

  lemma OneAscends(r: PeerRecord, target: Id)
    ensures Ascending([r], target)
  {
  }

  lemma SplitAscending(records: seq<PeerRecord>, target: Id, i: nat)
    requires Ascending(records, target) && i <= |records|
    ensures Ascending(records[..i], target) && Ascending(records[i..], target)
    ensures forall q <- records[i..] :: Distance(records[i].id, target) <= Distance(q.id, target)
  {
    hide Distance;
    var b := records[i..];
    forall q <- b ensures Distance(records[i].id, target) <= Distance(q.id, target) {
      var k: nat :| k < |b| && b[k] == q;
      assert q == records[i + k];
    }
  }

  /** All of them together never disagree on an id. */
  predicate AllCompatible(records: seq<PeerRecord>, more: seq<PeerRecord>) {
    && (forall r <- more :: Compatible(records, r))
    && (forall r <- more :: Compatible(more, r))
  }

  lemma {:induction false} MergeAllOk(records: seq<PeerRecord>, more: seq<PeerRecord>, target: Id)
    requires Ascending(records, target)
    ensures MergeAll(records, more, target).Success? <==> AllCompatible(records, more)
    ensures MergeAll(records, more, target).Success? ==>
              var merged := MergeAll(records, more, target).value;
              Ascending(merged, target) && forall q :: q in merged <==> q in records || q in more
    ensures MergeAll(records, more, target).Failure? ==> MergeAll(records, more, target).error == NonDistinctDistance
    decreases |more|
  {
    hide Ascending, MergeOne;
    if more != [] {
      MergeOneOk(records, more[0], target);
      assert more == [more[0]] + more[1..];
      if Compatible(records, more[0]) {
        var merged := MergeOne(records, more[0], target).value;
        MergeAllOk(merged, more[1..], target);
        CompatibleSplit(records, more, merged);
      }
    }
  }

  lemma CompatibleSplit(records: seq<PeerRecord>, more: seq<PeerRecord>, merged: seq<PeerRecord>)
    requires more != [] && Compatible(records, more[0])
    requires forall q :: q in merged <==> q in records || q == more[0]
    ensures AllCompatible(records, more) <==> AllCompatible(merged, more[1..])
  {
    var first, rest := more[0], more[1..];
    assert more == [first] + rest;
    assert forall r <- rest :: Compatible(merged, r) <==> Compatible(records, r) && (first.id == r.id ==> first == r);
    assert forall r <- rest :: Compatible(more, r) <==> Compatible(rest, r) && (first.id == r.id ==> first == r);
    assert Compatible(more, first) <==> forall r <- rest :: first.id == r.id ==> first == r;
    assert forall r :: r in more <==> r == first || r in rest;
  }

  // The parts of a reply

  lemma {:induction false} OnlyOk(records: seq<PeerRecord>, keep: set<Id>, target: Id)
    requires Ascending(records, target)
    ensures Ascending(Only(records, keep), target)
    ensures forall q :: q in Only(records, keep) <==> q in records && q.id in keep
  {
    hide Distance;
    if records != [] {
      OnlyOk(records[1..], keep, target);
      assert records == [records[0]] + records[1..];
      forall q <- Only(records[1..], keep) ensures Distance(records[0].id, target) < Distance(q.id, target) {
        assert q in records[1..];
      }
    }
  }

  lemma {:induction false} OnlyPrefix(records: seq<PeerRecord>, keep: set<Id>, n: nat)
    requires n <= |records| && forall j | 0 <= j < n :: records[j].id in keep
    ensures records[..n] <= Only(records, keep)
    ensures n == |records| ==> Only(records, keep) == records
  {
    if n > 0 {
      OnlyPrefix(records[1..], keep, n - 1);
      assert records[..n] == [records[0]] + records[1..][..n - 1];
      assert records == [records[0]] + records[1..];
    }
  }

  /** A query with some more peers being contacted, all of them known and not contacted. */
  ghost predicate Filled(q: Query, q': Query) {
    && q' == q.(contacting := q'.contacting)
    && q.contacting.Keys <= q'.contacting.Keys && |q'.contacting| <= CONCURRENCY
    && q'.contacting.Keys !! q.contacted && q'.contacting.Keys <= Ids(q.records)
  }

  lemma ContactFilled(q: Query, c: Clock, i: nat)
    requires Filled(q, q) && |q.contacting| < CONCURRENCY && i < |q.records|
    requires q.records[i].id !in q.contacted + q.contacting.Keys
    ensures Filled(q, Contact(q, c, q.records[i]).0)
    ensures |Contact(q, c, q.records[i]).0.contacting| == |q.contacting| + 1
  {
    var r := q.records[i];
    assert r in q.records;
    var (q', c') := Contact(q, c, r);
    assert q'.contacting.Keys == q.contacting.Keys + {r.id};
    assert q'.contacting == q.contacting[r.id := c'.last];
  }

  lemma FilledThrough(q: Query, q1: Query, q': Query)
    requires Filled(q, q1) && Filled(q1, q')
    ensures Filled(q, q') && Filled(q1, q1)
  {
  }

  /** In the end every known peer is contacted or being contacted, or 30 peers are. */
  lemma {:induction false} FillOk(q: Query, c: Clock, picked: seq<PeerRecord>)
    requires Filled(q, q)
    ensures
      var q' := Fill(q, c, picked).0;
      && Filled(q, q')
      && (|q'.contacting| < CONCURRENCY ==> forall r <- q.records :: r.id in q.contacted + q'.contacting.Keys)
    decreases CONCURRENCY - |q.contacting|
  {
    hide Ids, Contact;
    if |q.contacting| < CONCURRENCY {
      var i := FirstOther(q.records, q.contacted + q.contacting.Keys);
      if i < |q.records| {
        var (q1, c1) := Contact(q, c, q.records[i]);
        ContactFilled(q, c, i);
        FilledThrough(q, q1, q1);
        FillOk(q1, c1, picked + [q.records[i]]);
        FilledThrough(q, q1, Fill(q1, c1, picked + [q.records[i]]).0);
      }
    }
  }

  // Exact outcomes

  function Known(q: Query): set<PeerRecord> {
    set r <- q.records
  }

  ghost predicate QueryOk(target: Id, own: Id, q: Query) {
    && q.target == target && q.count >= 1
    && Ascending(q.records, target)
    && q.contacting.Keys !! q.contacted && |q.contacting| <= CONCURRENCY
    && q.contacting.Keys <= Ids(q.records) && own in q.contacted
    && q.contacted <= Ids(q.records) + {own}
  }

  /** The result Resume hands up for a query. */
  function Verdict(p: Peer, q: Query): Fallible<QueryResult> {
    match Resume(p, q)
    case Failure(e) => Failure(e)
    case Success(p') => if p'.upcalls == [] then Failure(Panicked) else Success(p'.upcalls[|p'.upcalls| - 1])
  }

  /** The nearest count known records are all contacted. */
  predicate NearestContacted(q: Query) {
    |q.records| >= q.count && forall i: nat | i < q.count :: q.records[i].id in q.contacted
  }

  predicate AllContacted(q: Query) {
    forall r <- q.records :: r.id in q.contacted
  }

  lemma TakeIsNearest(q: Query)
    requires Ascending(q.records, q.target)
    ensures Nearest(Known(q), q.target, q.count, Take(q.records, q.count))
  {
    hide Distance;
    CountAscending(q.records, q.target, Known(q));
    TakeNearest(q.records, q.target, q.count);
  }

  /** Converge means that the nearest count known records are contacted and handed up;
      Halted that every known record is contacted and there are fewer than count.  There
      is no third way to end, and a query that goes on is contacting someone. */
  lemma ExactOutcome(p: Peer, own: Id, q: Query)
    requires QueryOk(q.target, own, q) && q.contacting.Values <= p.clock.live.Keys
    ensures
      && Resume(p, q).Success? && Verdict(p, q).Success?
      && var r := Verdict(p, q).value;
      && r.target == q.target
      && (r.status == Converge <==> NearestContacted(q))
      && (r.status == Halted <==> AllContacted(q) && |q.records| < q.count)
      && (r.status != Progress ==> Nearest(Known(q), q.target, q.count, r.closest))
      && (r.status == Progress ==> q.target in Resume(p, q).value.queries
                                   && Resume(p, q).value.queries[q.target].contacting != map[])
  {
    hide Ascending, Nearest, Fill, Only, Known;
    var n := FirstOther(q.records, q.contacted);
    assert n >= q.count <==> NearestContacted(q);
    OnlyPrefix(q.records, q.contacted, n);
    TakeIsNearest(q);
    if n >= q.count {
      PrefixTake(q.records, Only(q.records, q.contacted), n, q.count);
    } else {
      FillOk(q, p.clock, []);
      Exhausted(q, Fill(q, p.clock, []).0, n);
    }
  }

  lemma PrefixTake(records: seq<PeerRecord>, only: seq<PeerRecord>, n: nat, count: nat)
    requires count <= n <= |records| && records[..n] <= only
    ensures Take(only, count) == Take(records, count)
  {
    assert only[..n] == records[..n];
    assert only[..count] == only[..n][..count];
    assert records[..count] == records[..n][..count];
  }

  lemma NoOther(records: seq<PeerRecord>, busy: set<Id>)
    ensures (forall r <- records :: r.id in busy) <==> FirstOther(records, busy) == |records|
  {
    var i := FirstOther(records, busy);
    if i < |records| {
      assert records[i] in records;
    }
  }

  /** Nobody is left to contact exactly when all known records are contacted. */
  lemma Exhausted(q: Query, q': Query, n: nat)
    requires Filled(q, q') && n == FirstOther(q.records, q.contacted) < q.count
    requires |q'.contacting| < CONCURRENCY ==> forall r <- q.records :: r.id in q.contacted + q'.contacting.Keys
    ensures q'.contacting == map[] <==> AllContacted(q) && |q.records| < q.count
    ensures q'.contacting == map[] ==> n == |q.records|
  {
    if q'.contacting == map[] {
      assert forall r <- q.records :: r.id in q.contacted + {};
      NoOther(q.records, q.contacted);
    } else {
      var id :| id in q'.contacting.Keys;
      assert id in Ids(q.records) && id !in q.contacted;
    }
  }

  // What is handed up on the way

  ghost function ContactedRecords(q: Query): set<PeerRecord> {
    set r <- q.records | r.id in q.contacted
  }

  /** Whatever the status, the records handed up are the nearest count contacted ones. */
  lemma HandsUpContacted(p: Peer, q: Query)
    requires Ascending(q.records, q.target) && Resume(p, q).Success?
    ensures Verdict(p, q).Success? && Nearest(ContactedRecords(q), q.target, q.count, Verdict(p, q).value.closest)
  {
    hide Distance, Fill, FirstOther, UnsetAll, Ascending, Nearest;
    var only := Only(q.records, q.contacted);
    OnlyOk(q.records, q.contacted, q.target);
    CountAscending(only, q.target, ContactedRecords(q));
    OnlyNearest(q, only);
  }

  lemma OnlyNearest(q: Query, only: seq<PeerRecord>)
    requires Ascending(only, q.target) && forall r :: r in only <==> r in q.records && r.id in q.contacted
    requires |ContactedRecords(q)| == |only|
    ensures Nearest(ContactedRecords(q), q.target, q.count, Take(only, q.count))
  {
    hide Distance;
    TakeNearest(only, q.target, q.count);
  }
}
