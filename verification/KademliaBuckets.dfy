/** The routing table: one bucket of peers per distance range, each with a cache of spares. */
module KademliaBuckets {
  import opened Wrappers
  import opened KademliaIds

  /** The public key and the address of a peer. */
  type Endpoint(==, !new, 0)

  datatype PeerRecord = PeerRecord(id: Id, endpoint: Endpoint)

  datatype Bucket = Bucket(records: seq<PeerRecord>, cached: seq<PeerRecord>)

  const BUCKET_SIZE: nat := 20

  const EmptyBucket := Bucket([], [])

  // One bucket

  /** Where the first record with this id is, or the end. */
  function Position(records: seq<PeerRecord>, id: Id): (i: nat)
    ensures i <= |records|
    ensures i < |records| ==> records[i].id == id
    ensures forall j | 0 <= j < i :: records[j].id != id
  {
    if records == [] || records[0].id == id then 0 else 1 + Position(records[1..], id)
  }

  function Without(records: seq<PeerRecord>, id: Id): seq<PeerRecord> {
    var i := Position(records, id);
    if i < |records| then records[..i] + records[i + 1..] else records
  }

  function InsertInto(b: Bucket, record: PeerRecord): Bucket {
    var records := Without(b.records, record.id);
    if |records| < BUCKET_SIZE then
      Bucket(records + [record], b.cached)
    else
      var cached := Without(b.cached, record.id);
      Bucket(records, (if |cached| == BUCKET_SIZE then cached[1..] else cached) + [record])
  }

  /** The record goes; the newest spare takes its place, else it comes back in front. */
  function RemoveFrom(b: Bucket, id: Id): (Bucket, Option<PeerRecord>) {
    var i := Position(b.records, id);
    if i == |b.records| then
      (b, None)
    else
      var record, rest := b.records[i], b.records[..i] + b.records[i + 1..];
      var n := |b.cached|;
      if n > 0 then (Bucket(rest + [b.cached[n - 1]], b.cached[..n - 1]), Some(record))
      else (Bucket([record] + rest, b.cached), Some(record))
  }

  predicate Distinct(records: seq<PeerRecord>) {
    forall i: nat, j: nat | i < j < |records| :: records[i].id != records[j].id
  }

  /** The records of one bucket: at most 20 and 20 spares, all with different ids, and
      spares only when the records are full. */
  predicate BucketOk(b: Bucket) {
    && |b.records| <= BUCKET_SIZE && |b.cached| <= BUCKET_SIZE
    && Distinct(b.records + b.cached)
    && (b.cached != [] ==> |b.records| == BUCKET_SIZE)
  }

  function Ids(records: seq<PeerRecord>): set<Id> {
    set r <- records :: r.id
  }

  lemma WithoutKeeps(records: seq<PeerRecord>, id: Id)
    requires Distinct(records)
    ensures Distinct(Without(records, id)) && Ids(Without(records, id)) == Ids(records) - {id}
    ensures forall r :: r in Without(records, id) <==> r in records && r.id != id
    ensures |Without(records, id)| == if id in Ids(records) then |records| - 1 else |records|
  {
    var i, rest := Position(records, id), Without(records, id);
    if i < |records| {
      assert records[i] in records;
      assert forall j: nat | j < |rest| :: rest[j] == records[if j < i then j else j + 1];
      forall r: PeerRecord | r in records && r.id != id ensures r in rest {
        var j :| 0 <= j < |records| && records[j] == r;
        assert rest[if j < i then j else j - 1] == r;
      }
    } else {
      assert forall r <- records :: r.id != id;
    }
  }

  lemma DistinctParts(a: seq<PeerRecord>, b: seq<PeerRecord>)
    ensures Distinct(a + b) <==> Distinct(a) && Distinct(b) && Ids(a) !! Ids(b)
  {
    var s := a + b;
    if Distinct(s) {
      forall i: nat, j: nat | i < j < |a| ensures a[i].id != a[j].id { assert s[i] == a[i] && s[j] == a[j]; }
      forall i: nat, j: nat | i < j < |b| ensures b[i].id != b[j].id { assert s[|a| + i] == b[i] && s[|a| + j] == b[j]; }
      forall r <- a, q <- b ensures r.id != q.id {
        var i: nat :| i < |a| && a[i] == r;
        var j: nat :| j < |b| && b[j] == q;
        assert s[i] == r && s[|a| + j] == q;
      }
    }
    if Distinct(a) && Distinct(b) && Ids(a) !! Ids(b) {
      forall i: nat, j: nat | i < j < |s| ensures s[i].id != s[j].id {
        if i < |a| <= j {
          assert s[i] in a && s[j] in b;
          assert s[i].id in Ids(a) && s[j].id in Ids(b);
        }
      }
    }
  }

  lemma AppendDistinct(a: seq<PeerRecord>, r: PeerRecord)
    requires Distinct(a) && r.id !in Ids(a)
    ensures Distinct(a + [r]) && Ids(a + [r]) == Ids(a) + {r.id}
  {
    forall q | q in Ids(a) + {r.id} ensures q in Ids(a + [r]) {
      if q == r.id { assert (a + [r])[|a|] == r; } else { var p :| p in a && p.id == q; assert p in a + [r]; }
    }
    assert Distinct([r]) && Ids([r]) == {r.id};
    DistinctParts(a, [r]);
  }

  /** An insert keeps the bucket in order, never loses a record's id, and puts the record
      last: among the records if there is room or it was there, else among the spares. */
  lemma InsertKeepsBucket(b: Bucket, record: PeerRecord)
    requires BucketOk(b)
    ensures
      var b' := InsertInto(b, record);
      && BucketOk(b') && Ids(b.records) <= Ids(b'.records)
      && Ids(b'.records) + Ids(b'.cached) <= Ids(b.records) + Ids(b.cached) + {record.id}
      && (if record.id in Ids(b.records) || |b.records| < 20 then
            b'.cached == b.cached && b'.records[|b'.records| - 1..] == [record]
          else
            b'.records == b.records && b'.cached[|b'.cached| - 1..] == [record])
  {
    hide Ids, Without;
    DistinctParts(b.records, b.cached);
    WithoutKeeps(b.records, record.id);
    WithoutKeeps(b.cached, record.id);
    var b' := InsertInto(b, record);
    var records, cached := Without(b.records, record.id), Without(b.cached, record.id);
    if |records| < BUCKET_SIZE {
      AppendDistinct(records, record);
      NoIds(b.cached);
      DistinctParts(b'.records, b'.cached);
    } else {
      WithoutSame(b.records, record.id);
      var rest := if |cached| == BUCKET_SIZE then cached[1..] else cached;
      DropFirst(cached);
      AppendDistinct(rest, record);
      DistinctParts(b'.records, b'.cached);
    }
  }

  lemma NoIds(records: seq<PeerRecord>)
    ensures records == [] ==> Ids(records) == {}
  {
  }

  lemma WithoutSame(records: seq<PeerRecord>, id: Id)
    requires id !in Ids(records)
    ensures Without(records, id) == records
  {
    IdAt(records, id);
  }

  lemma DropFirst(records: seq<PeerRecord>)
    requires Distinct(records)
    ensures records != [] ==> Distinct(records[1..]) && Ids(records[1..]) <= Ids(records)
  {
  }

  /** A record comes last among the records or, when these are 20 others, among the spares;
      the others keep their order, and only the oldest of 20 other spares has to go. */
  lemma InsertKeepsOrder(b: Bucket, record: PeerRecord) returns (before: seq<PeerRecord>, old_: PeerRecord, after: seq<PeerRecord>)
    requires BucketOk(b)
    ensures
      var b' := InsertInto(b, record);
      if record.id in Ids(b.records) then
        && old_.id == record.id && b.records == before + [old_] + after
        && b'.records == before + after + [record] && b'.cached == b.cached
      else if |b.records| < 20 then
        b'.records == b.records + [record] && b'.cached == b.cached
      else if record.id in Ids(b.cached) then
        && old_.id == record.id && b.cached == before + [old_] + after
        && b'.cached == before + after + [record] && b'.records == b.records
      else
        b'.records == b.records && b'.cached == (if |b.cached| < 20 then b.cached else b.cached[1..]) + [record]
  {
    hide Ids;
    IdAt(b.records, record.id);
    IdAt(b.cached, record.id);
    before, old_, after := [], record, [];
    var i, j := Position(b.records, record.id), Position(b.cached, record.id);
    if i < |b.records| {
      before, old_, after := b.records[..i], b.records[i], b.records[i + 1..];
    } else if |b.records| == 20 && j < |b.cached| {
      before, old_, after := b.cached[..j], b.cached[j], b.cached[j + 1..];
    }
  }

  /** The newest spare comes last in the place of a removed record; without a spare the record
      itself comes first; the others keep their order. */
  lemma RemoveKeepsOrder(b: Bucket, id: Id) returns (before: seq<PeerRecord>, old_: PeerRecord, after: seq<PeerRecord>)
    requires id in Ids(b.records)
    ensures
      var (b', removed) := RemoveFrom(b, id);
      && old_.id == id && removed == Some(old_) && b.records == before + [old_] + after
      && (if b.cached == [] then
            b'.records == [old_] + before + after && b'.cached == []
          else
            b.cached == b'.cached + b.cached[|b.cached| - 1..] && b'.records == before + after + b.cached[|b.cached| - 1..])
  {
    IdAt(b.records, id);
    var i := Position(b.records, id);
    before, old_, after := b.records[..i], b.records[i], b.records[i + 1..];
  }

  /** A removal keeps the bucket in order and never shrinks it: the id is gone from the
      records exactly when a spare took its place. */
  lemma RemoveKeepsBucket(b: Bucket, id: Id)
    requires BucketOk(b)
    ensures
      var (b', removed) := RemoveFrom(b, id);
      && BucketOk(b') && |b'.records| == |b.records|
      && Ids(b'.records) + Ids(b'.cached) <= Ids(b.records) + Ids(b.cached)
      && (removed.Some? <==> id in Ids(b.records))
      && (removed.Some? ==> removed.value in b.records && removed.value.id == id)
      && (id in Ids(b'.records) <==> id in Ids(b.records) && b.cached == [])
  {
    hide Ids;
    var (b', removed) := RemoveFrom(b, id);
    var i := Position(b.records, id);
    DistinctParts(b.records, b.cached);
    WithoutKeeps(b.records, id);
    IdAt(b.records, id);
    if i < |b.records| {
      var rest := Without(b.records, id);
      var n := |b.cached|;
      if n > 0 {
        var spare := b.cached[n - 1];
        SplitLast(b.cached);
        AppendDistinct(rest, spare);
        DistinctParts(b'.records, b'.cached);
      } else {
        PrependDistinct(b.records[i], rest);
        NoIds(b.cached);
        DistinctParts(b'.records, b'.cached);
      }
    }
  }

  lemma IdAt(records: seq<PeerRecord>, id: Id)
    ensures id in Ids(records) <==> Position(records, id) < |records|
  {
    var i := Position(records, id);
    if i < |records| {
      assert records[i] in records;
    }
  }

  lemma SplitLast(records: seq<PeerRecord>)
    requires Distinct(records) && records != []
    ensures
      var init, last := records[..|records| - 1], records[|records| - 1];
      Distinct(init) && last.id !in Ids(init) && Ids(records) == Ids(init) + {last.id}
  {
    var init, last := records[..|records| - 1], records[|records| - 1];
    assert records == init + [last];
    DistinctParts(init, [last]);
    assert [last][0] == last && last.id in Ids([last]);
    forall q | q in Ids(records) ensures q in Ids(init) + {last.id} {
      var r :| r in records && r.id == q;
      assert r in init || r == last;
    }
  }

  lemma PrependDistinct(r: PeerRecord, a: seq<PeerRecord>)
    requires Distinct(a) && r.id !in Ids(a)
    ensures Distinct([r] + a) && Ids([r] + a) == Ids(a) + {r.id}
  {
    assert Distinct([r]) && Ids([r]) == {r.id};
    DistinctParts([r], a);
    forall q | q in Ids(a) + {r.id} ensures q in Ids([r] + a) {
      if q == r.id { assert ([r] + a)[0] == r; } else { var p :| p in a && p.id == q; assert p in [r] + a; }
    }
  }

  // The table

  datatype Table = Table(origin: PeerRecord, buckets: seq<Bucket>)

  datatype Error = OriginInserted | Panicked | ConcurrentQuery | NonDistinctDistance | TimerNotFound | UnknownQuery | Timeout

  type Fallible<T> = Result<T, Error>

  function NewTable(origin: PeerRecord): Table {
    Table(origin, seq(BITS, _ => EmptyBucket))
  }

  predicate InBucket(origin: PeerRecord, i: nat, r: PeerRecord) {
    r.id != origin.id && Index(origin.id, r.id) == i
  }

  ghost predicate TableOk(t: Table) {
    && |t.buckets| == BITS
    && forall i: nat | i < BITS ::
         && BucketOk(t.buckets[i])
         && forall r <- t.buckets[i].records + t.buckets[i].cached :: InBucket(t.origin, i, r)
  }

  function Insert(t: Table, record: PeerRecord): Fallible<Table>
    requires |t.buckets| == BITS
  {
    if record.id == t.origin.id then Failure(OriginInserted)
    else
      var i := Index(t.origin.id, record.id);
      Success(t.(buckets := t.buckets[i := InsertInto(t.buckets[i], record)]))
  }

  function Remove(t: Table, id: Id): Fallible<(Table, Option<PeerRecord>)>
    requires |t.buckets| == BITS
  {
    if id == t.origin.id then Failure(Panicked)
    else
      var i := Index(t.origin.id, id);
      var (b, removed) := RemoveFrom(t.buckets[i], id);
      Success((t.(buckets := t.buckets[i := b]), removed))
  }

  lemma InsertedRecords(b: Bucket, record: PeerRecord)
    requires BucketOk(b)
    ensures
      var b' := InsertInto(b, record);
      forall r <- b'.records + b'.cached :: r == record || r in b.records + b.cached
  {
    DistinctParts(b.records, b.cached);
    WithoutKeeps(b.records, record.id);
    WithoutKeeps(b.cached, record.id);
  }

  lemma RemovedRecords(b: Bucket, id: Id)
    requires BucketOk(b)
    ensures var b' := RemoveFrom(b, id).0; forall r <- b'.records + b'.cached :: r in b.records + b.cached
  {
  }

  /** The records an insert must not lose, and what every table keeps. */
  lemma InsertKeepsTable(t: Table, record: PeerRecord)
    requires TableOk(t)
    ensures Insert(t, record).Success? <==> record.id != t.origin.id
    ensures Insert(t, record).Success? ==>
              var t' := Insert(t, record).value;
              && TableOk(t') && t'.origin == t.origin
              && forall i: nat | i < BITS :: Ids(t.buckets[i].records) <= Ids(t'.buckets[i].records)
  {
    hide BucketOk, Index;
    if record.id != t.origin.id {
      var i := Index(t.origin.id, record.id);
      InsertKeepsBucket(t.buckets[i], record);
      InsertedRecords(t.buckets[i], record);
    }
  }

  lemma RemoveKeepsTable(t: Table, id: Id)
    requires TableOk(t)
    ensures Remove(t, id).Success? <==> id != t.origin.id
    ensures Remove(t, id).Success? ==>
              var t' := Remove(t, id).value.0;
              && TableOk(t') && t'.origin == t.origin
              && forall i: nat | i < BITS :: |t.buckets[i].records| == |t'.buckets[i].records|
  {
    hide BucketOk, Index, RemoveFrom;
    if id != t.origin.id {
      var i := Index(t.origin.id, id);
      RemoveKeepsBucket(t.buckets[i], id);
      RemovedRecords(t.buckets[i], id);
    }
  }

  datatype Change = Inserting(record: PeerRecord) | Removing(id: Id)

  /** The table after these calls; one that fails changes nothing. */
  function After(origin: PeerRecord, changes: seq<Change>): (t: Table)
    ensures |t.buckets| == BITS && t.origin == origin
  {
    if changes == [] then NewTable(origin)
    else
      var t := After(origin, changes[..|changes| - 1]);
      match changes[|changes| - 1]
      case Inserting(record) => if Insert(t, record).Success? then Insert(t, record).value else t
      case Removing(id) => if Remove(t, id).Success? then Remove(t, id).value.0 else t
  }

  /** However peers come and go, every record sits in the bucket of its highest differing
      bit, ids are distinct, and spares are kept only beside 20 records. */
  lemma {:induction false} TableAlwaysOk(origin: PeerRecord, changes: seq<Change>)
    ensures TableOk(After(origin, changes))
    ensures
      var t := After(origin, changes);
      forall i: nat | i < |t.buckets| :: |t.buckets[i].records| <= 20 && |t.buckets[i].cached| <= 20
  {
    if changes != [] {
      var t := After(origin, changes[..|changes| - 1]);
      TableAlwaysOk(origin, changes[..|changes| - 1]);
      match changes[|changes| - 1]
      case Inserting(record) => InsertKeepsTable(t, record);
      case Removing(id) => RemoveKeepsTable(t, id);
    }
  }

  /** Two records of one table with the same id are one record in one bucket. */
  lemma OneBucketEach(t: Table, i: nat, j: nat, r: PeerRecord, q: PeerRecord)
    requires TableOk(t) && i < BITS && j < BITS && r.id == q.id
    requires r in t.buckets[i].records + t.buckets[i].cached && q in t.buckets[j].records + t.buckets[j].cached
    ensures i == j && r == q
  {
    hide Index;
    assert InBucket(t.origin, i, r) && InBucket(t.origin, j, q);
    var s := t.buckets[i].records + t.buckets[i].cached;
    var a: nat :| a < |s| && s[a] == r;
    var b: nat :| b < |s| && s[b] == q;
  }
}
