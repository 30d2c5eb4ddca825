/** The routing table as an object over an array of buckets. */
module KademliaTable {
  import opened Wrappers
  import opened KademliaIds
  import opened KademliaBuckets
  import opened KademliaLookup

  class Buckets {
    const origin: PeerRecord
    const distances: array<Bucket>

    ghost function State(): Table
      reads distances
    {
      Table(origin, distances[..])
    }

    constructor (origin: PeerRecord)
      ensures State() == NewTable(origin) && fresh(distances)
    {
      this.origin := origin;
      distances := new Bucket[BITS](_ => EmptyBucket);
    }

    /** The origin is refused; any other record ends up at the end of a list of its bucket. */
    method Insert(record: PeerRecord) returns (r: Fallible<()>)
      requires distances.Length == BITS
      modifies distances
      ensures
        match KademliaBuckets.Insert(old(State()), record)
        case Success(t) => r == Success(()) && State() == t
        case Failure(e) => r == Failure(e) && State() == old(State())
    {
      if record.id == origin.id {
        return Failure(OriginInserted);
      }
      var index := Index(origin.id, record.id);
      var bucket := distances[index];
      var k := Position(bucket.records, record.id);
      if k < |bucket.records| {
        bucket := bucket.(records := bucket.records[..k] + bucket.records[k + 1..]);
      }
      if |bucket.records| < BUCKET_SIZE {
        distances[index] := bucket.(records := bucket.records + [record]);
        return Success(());
      }
      k := Position(bucket.cached, record.id);
      if k < |bucket.cached| {
        bucket := bucket.(cached := bucket.cached[..k] + bucket.cached[k + 1..]);
      }
      if |bucket.cached| == BUCKET_SIZE {
        bucket := bucket.(cached := bucket.cached[1..]);
      }
      distances[index] := bucket.(cached := bucket.cached + [record]);
      return Success(());
    }

    method Remove(id: Id) returns (r: Fallible<Option<PeerRecord>>)
      requires distances.Length == BITS
      modifies distances
      ensures
        match KademliaBuckets.Remove(old(State()), id)
        case Success((t, removed)) => r == Success(removed) && State() == t
        case Failure(e) => r == Failure(e) && State() == old(State())
    {
      if id == origin.id {
        return Failure(Panicked);
      }
      var index := Index(origin.id, id);
      var bucket := distances[index];
      var k := Position(bucket.records, id);
      if k == |bucket.records| {
        assert distances[..] == old(distances[..])[index := bucket];
        return Success(None);
      }
      var record := bucket.records[k];
      bucket := bucket.(records := bucket.records[..k] + bucket.records[k + 1..]);
      var n := |bucket.cached|;
      if n > 0 {
        distances[index] := Bucket(bucket.records + [bucket.cached[n - 1]], bucket.cached[..n - 1]);
      } else {
        distances[index] := bucket.(records := [record] + bucket.records);
      }
      return Success(Some(record));
    }

    /** The nearest count records of the whole table, the origin among them. */
    method FindClosest(target: Id, count: nat) returns (records: seq<PeerRecord>)
      requires TableOk(State()) && count > 0
      ensures Nearest(AllRecords(State()), target, count, records)
      ensures records == KademliaLookup.FindClosest(State(), target, count)
    {
      hide TableOk, Order, Content, Sorted, Distance, Walk, Take;
      ghost var t := State();
      SizeOk(t);
      OrderInOrder(origin.id, target);
      var order := Order(origin.id, target);
      records := [];
      NothingVisited(t, target, count);
      var n := 0;
      while n < |order| && |records| < count
        invariant n <= |order|
        invariant records == Take(Walk(t, target, order[..n]), count)
      {
        var index := order[n];
        var found := distances[index].records;
        if index == 0 {
          found := found + [origin];
        }
        ContentIs(t, index);
        found := Sorted(found, target);
        VisitNext(t, target, order, n, count);
        records := records + Take(found, count - |records|);
        n := n + 1;
      }
      EnoughVisited(t, target, order, n, count);
      LookupExact(t, target, count);
    }
  }

  lemma NothingVisited(t: Table, target: Id, count: nat)
    requires |t.buckets| == BITS
    ensures Take(Walk(t, target, []), count) == []
  {
  }

  /** Visiting one more bucket appends as many of its records as are still wanted. */
  lemma VisitNext(t: Table, target: Id, order: seq<nat>, n: nat, count: nat)
    requires |t.buckets| == BITS && (forall p: nat | p < |order| :: order[p] < BITS) && n < |order|
    requires |Take(Walk(t, target, order[..n]), count)| < count
    ensures
      var records := Take(Walk(t, target, order[..n]), count);
      Take(Walk(t, target, order[..n + 1]), count)
        == records + Take(Sorted(Content(t, order[n]), target), count - |records|)
  {
    hide Sorted, Content;
    assert order[..n + 1][..n] == order[..n];
    TakeMore(Walk(t, target, order[..n]), Sorted(Content(t, order[n]), target), count);
  }

  lemma EnoughVisited(t: Table, target: Id, order: seq<nat>, n: nat, count: nat)
    requires |t.buckets| == BITS && (forall p: nat | p < |order| :: order[p] < BITS) && n <= |order|
    requires n == |order| || |Take(Walk(t, target, order[..n]), count)| >= count
    ensures Take(Walk(t, target, order[..n]), count) == Take(Walk(t, target, order), count)
  {
    WalkPrefix(t, target, order, n);
    if n == |order| {
      assert order[..n] == order;
    }
  }

  lemma ContentIs(t: Table, i: nat)
    requires i < |t.buckets|
    ensures Content(t, i) == if i == 0 then t.buckets[i].records + [t.origin] else t.buckets[i].records
  {
  }

  lemma TakeMore(a: seq<PeerRecord>, b: seq<PeerRecord>, count: nat)
    requires |Take(a, count)| < count
    ensures Take(a + b, count) == Take(a, count) + Take(b, count - |Take(a, count)|)
  {
  }

  /** Once enough records are found, visiting more buckets changes nothing. */
  lemma {:induction false} WalkPrefix(t: Table, target: Id, order: seq<nat>, n: nat)
    requires |t.buckets| == BITS && forall p: nat | p < |order| :: order[p] < BITS
    requires n <= |order|
    ensures Walk(t, target, order[..n]) <= Walk(t, target, order)
    decreases |order|
  {
    hide Sorted, Content;
    if n == |order| {
      assert order[..n] == order;
    } else {
      var before := order[..|order| - 1];
      WalkPrefix(t, target, before, n);
      assert before[..n] == order[..n];
    }
  }
}
