/** The closest-first lookup.  The buckets of the set bits of the origin's distance to the
    target, highest first, then those of the clear bits, lowest first: walking them in this
    order and sorting each bucket by itself lists the whole table in order of distance. */
module KademliaLookup {
  import opened KademliaIds
  import opened KademliaBuckets

  /** Strictly increasing distance. */
  predicate Ascending(records: seq<PeerRecord>, target: Id) {
    forall i: nat, j: nat | i < j < |records| :: Distance(records[i].id, target) < Distance(records[j].id, target)
  }

  // Sorting one bucket

  function Place(records: seq<PeerRecord>, r: PeerRecord, target: Id): seq<PeerRecord> {
    if records == [] || Distance(r.id, target) <= Distance(records[0].id, target) then [r] + records
    else [records[0]] + Place(records[1..], r, target)
  }

  function Sorted(records: seq<PeerRecord>, target: Id): seq<PeerRecord> {
    if records == [] then [] else Place(Sorted(records[1..], target), records[0], target)
  }

  lemma {:induction false} PlaceSorts(records: seq<PeerRecord>, r: PeerRecord, target: Id)
    requires Ascending(records, target) && forall q <- records :: q.id != r.id
    ensures Ascending(Place(records, r, target), target)
    ensures forall q :: q in Place(records, r, target) <==> q in records || q == r
  {
    hide Distance;
    if records == [] || Distance(r.id, target) <= Distance(records[0].id, target) {
      if records != [] {
        assert records[0] in records;
        DistanceInjective(r.id, records[0].id, target);
      }
      AscendingCons(r, records, target);
    } else {
      var rest := Place(records[1..], r, target);
      PlaceSorts(records[1..], r, target);
      assert records == [records[0]] + records[1..];
      if rest != [] {
        assert rest[0] in rest;
        assert rest[0] == r || rest[0] in records[1..];
      }
      AscendingCons(records[0], rest, target);
    }
  }

  lemma AscendingCons(r: PeerRecord, records: seq<PeerRecord>, target: Id)
    requires Ascending(records, target)
    requires records != [] ==> Distance(r.id, target) < Distance(records[0].id, target)
    ensures Ascending([r] + records, target)
  {
    hide Distance;
  }

  /** Sorting puts the same records in strictly increasing distance. */
  lemma {:induction false} SortedSorts(records: seq<PeerRecord>, target: Id)
    requires Distinct(records)
    ensures Ascending(Sorted(records, target), target)
    ensures forall q :: q in Sorted(records, target) <==> q in records
  {
    hide Distance, Place;
    if records != [] {
      var rest := Sorted(records[1..], target);
      assert Distinct(records[1..]);
      SortedSorts(records[1..], target);
      forall q <- rest ensures q.id != records[0].id {
        var k: nat :| k < |records[1..]| && records[1..][k] == q;
        assert records[k + 1] == q;
      }
      PlaceSorts(rest, records[0], target);
      assert records == [records[0]] + records[1..];
    }
  }

  // The order of the buckets

  /** The set bits below n, highest first. */
  function SetBits(d: Id, n: nat): seq<nat>
    requires n <= BITS
  {
    if n == 0 then [] else (if d[n - 1] then [n - 1] else []) + SetBits(d, n - 1)
  }

  /** The clear bits below n, lowest first. */
  function ClearBits(d: Id, n: nat): seq<nat>
    requires n <= BITS
  {
    if n == 0 then [] else ClearBits(d, n - 1) + if d[n - 1] then [] else [n - 1]
  }

  function StartIndex(origin: Id, target: Id): (i: nat)
    ensures i < BITS
  {
    if target == origin then 0 else Index(origin, target)
  }

  function Order(origin: Id, target: Id): seq<nat> {
    var d := Xor(origin, target);
    SetBits(d, StartIndex(origin, target) + 1) + ClearBits(d, |d|)
  }

  /** Bucket i is visited before bucket j. */
  predicate Before(d: Id, i: nat, j: nat)
    requires i < BITS && j < BITS
  {
    if d[i] then !d[j] || i > j else !d[j] && i < j
  }

  ghost predicate InOrder(d: Id, order: seq<nat>) {
    && (forall p: nat | p < |order| :: order[p] < BITS)
    && (forall p: nat, q: nat | p < q < |order| :: Before(d, order[p], order[q]))
  }

  lemma {:induction false} SetBitsInOrder(d: Id, n: nat)
    requires n <= BITS
    ensures InOrder(d, SetBits(d, n)) && forall i: nat :: i in SetBits(d, n) <==> i < n && d[i]
  {
    if n > 0 {
      SetBitsInOrder(d, n - 1);
      var rest := SetBits(d, n - 1);
      assert forall p: nat | p < |rest| :: rest[p] in rest;
    }
  }

  lemma {:induction false} ClearBitsInOrder(d: Id, n: nat)
    requires n <= BITS
    ensures InOrder(d, ClearBits(d, n)) && forall i: nat :: i in ClearBits(d, n) <==> i < n && !d[i]
  {
    if n > 0 {
      ClearBitsInOrder(d, n - 1);
      var rest := ClearBits(d, n - 1);
      assert forall p: nat | p < |rest| :: rest[p] in rest;
    }
  }

  /** Every bucket is visited, and only once, in the order of Before. */
  lemma OrderInOrder(origin: Id, target: Id)
    ensures InOrder(Xor(origin, target), Order(origin, target))
    ensures forall i: nat :: i in Order(origin, target) <==> i < BITS
  {
    var d := Xor(origin, target);
    var n := StartIndex(origin, target) + 1;
    SetBitsInOrder(d, n);
    ClearBitsInOrder(d, |d|);
    var a, b := SetBits(d, n), ClearBits(d, |d|);
    assert forall j | n <= j < BITS :: !d[j];
    forall p: nat, q: nat | p < q < |a + b| ensures Before(d, (a + b)[p], (a + b)[q]) {
      if p < |a| <= q {
        assert (a + b)[p] in a && (a + b)[q] in b;
      }
    }
  }

  // The walk

  /** What the lookup sorts when it visits a bucket: the origin counts as one of bucket 0. */
  function Content(t: Table, i: nat): seq<PeerRecord>
    requires i < |t.buckets|
  {
    t.buckets[i].records + if i == 0 then [t.origin] else []
  }

  /** Bits of the distance of a peer in bucket i: as the origin's above i, flipped at i. */
  lemma BucketBits(t: Table, target: Id, i: nat, r: PeerRecord)
    requires TableOk(t) && i < BITS && r in Content(t, i)
    ensures
      var d, x := Xor(t.origin.id, target), Xor(r.id, target);
      if r == t.origin then i == 0 && x == d
      else x[i] != d[i] && forall j | i < j < BITS :: x[j] == d[j]
  {
    if r in t.buckets[i].records {
      assert r in t.buckets[i].records + t.buckets[i].cached;
      assert InBucket(t.origin, i, r);
    }
  }

  /** Why the order works: the bit of the higher bucket decides. */
  lemma EarlierIsNearer(t: Table, target: Id, i: nat, j: nat, r: PeerRecord, q: PeerRecord)
    requires TableOk(t) && i < BITS && j < BITS && Before(Xor(t.origin.id, target), i, j)
    requires r in Content(t, i) && q in Content(t, j)
    ensures Distance(r.id, target) < Distance(q.id, target)
  {
    hide TableOk, Content, Xor;
    BucketBits(t, target, i, r);
    BucketBits(t, target, j, q);
    var k := if i > j then i else j;
    HighestBitDecides(Xor(r.id, target), Xor(q.id, target), |Xor(r.id, target)|, k);
  }

  lemma ContentDistinct(t: Table, i: nat)
    requires TableOk(t) && i < BITS
    ensures Distinct(Content(t, i))
  {
    var b := t.buckets[i];
    DistinctParts(b.records, b.cached);
    if i == 0 {
      forall r <- b.records ensures r.id != t.origin.id {
        assert r in b.records + b.cached;
        assert InBucket(t.origin, i, r);
      }
      AppendDistinct(b.records, t.origin);
    }
  }

  function Walk(t: Table, target: Id, order: seq<nat>): seq<PeerRecord>
    requires |t.buckets| == BITS && forall p: nat | p < |order| :: order[p] < BITS
  {
    if order == [] then []
    else Walk(t, target, order[..|order| - 1]) + Sorted(Content(t, order[|order| - 1]), target)
  }

  lemma {:induction false} WalkAscends(t: Table, target: Id, order: seq<nat>)
    requires TableOk(t) && InOrder(Xor(t.origin.id, target), order)
    ensures Ascending(Walk(t, target, order), target)
    ensures forall r :: r in Walk(t, target, order) <==> exists i <- order :: r in Content(t, i)
  {
    hide Distance, Content, Sorted, Distinct, TableOk, Before;
    if order != [] {
      var before, last := order[..|order| - 1], order[|order| - 1];
      WalkAscends(t, target, before);
      ContentDistinctAt(t, last);
      SortedSorts(Content(t, last), target);
      var a, b := Walk(t, target, before), Sorted(Content(t, last), target);
      forall r <- a, q <- b ensures Distance(r.id, target) < Distance(q.id, target) {
        var i :| i in before && r in Content(t, i);
        EarlierIsNearer(t, target, i, last, r, q);
      }
      AscendingParts(a, b, target);
      assert order == before + [last];
    }
  }

  lemma ContentDistinctAt(t: Table, i: nat)
    requires TableOk(t) && i < BITS
    ensures |t.buckets| == BITS && Distinct(Content(t, i))
  {
    ContentDistinct(t, i);
  }

  lemma AscendingParts(a: seq<PeerRecord>, b: seq<PeerRecord>, target: Id)
    requires Ascending(a, target) && Ascending(b, target)
    requires forall r <- a, q <- b :: Distance(r.id, target) < Distance(q.id, target)
    ensures Ascending(a + b, target)
  {
    var s := a + b;
    forall i: nat, j: nat | i < j < |s| ensures Distance(s[i].id, target) < Distance(s[j].id, target) {
      if i < |a| <= j {
        assert s[i] in a && s[j] in b;
      }
    }
  }

  // The lookup

  function Take(records: seq<PeerRecord>, count: nat): seq<PeerRecord> {
    if count < |records| then records[..count] else records
  }

  function FindClosest(t: Table, target: Id, count: nat): seq<PeerRecord>
    requires |t.buckets| == BITS
  {
    OrderInOrder(t.origin.id, target);
    Take(Walk(t, target, Order(t.origin.id, target)), count)
  }

  /** Every record of the table, and the origin. */
  ghost function AllRecords(t: Table): set<PeerRecord>
    requires |t.buckets| == BITS
  {
    set i: nat, r | i < BITS && r in Content(t, i) :: r
  }

  /** The first count of all records, nearest first. */
  ghost predicate Nearest(all: set<PeerRecord>, target: Id, count: nat, found: seq<PeerRecord>) {
    && Ascending(found, target)
    && |found| == (if count < |all| then count else |all|)
    && (forall r <- found :: r in all)
    && (forall q <- all, r <- found :: q !in found ==> Distance(r.id, target) < Distance(q.id, target))
  }

  /** The lookup is exact, and its assertion that distances never decrease holds. */
  lemma LookupExact(t: Table, target: Id, count: nat)
    requires TableOk(t)
    ensures Nearest(AllRecords(t), target, count, FindClosest(t, target, count))
  {
    hide Distance, Content, Order, TableOk;
    SizeOk(t);
    OrderInOrder(t.origin.id, target);
    var order := Order(t.origin.id, target);
    WalkAscends(t, target, order);
    var all := Walk(t, target, order);
    forall r ensures r in all <==> r in AllRecords(t) {
      if r in AllRecords(t) {
        var i: nat :| i < BITS && r in Content(t, i);
        assert i in order;
      }
    }
    CountAscending(all, target, AllRecords(t));
    TakeNearest(all, target, count);
  }

  lemma SizeOk(t: Table)
    requires TableOk(t)
    ensures |t.buckets| == BITS
  {
  }

  lemma {:induction false} CountAscending(records: seq<PeerRecord>, target: Id, all: set<PeerRecord>)
    requires Ascending(records, target) && forall r :: r in records <==> r in all
    ensures |all| == |records|
  {
    if records == [] {
      assert all == {};
    } else {
      var last := records[|records| - 1];
      var rest := records[..|records| - 1];
      assert last in all;
      forall r ensures r in rest <==> r in all - {last} {
        if r in all - {last} {
          var i: nat :| i < |records| && records[i] == r;
          assert rest[i] == r;
        }
      }
      CountAscending(rest, target, all - {last});
    }
  }

  lemma TakeNearest(records: seq<PeerRecord>, target: Id, count: nat)
    requires Ascending(records, target)
    ensures Ascending(Take(records, count), target)
    ensures forall q <- records, r <- Take(records, count) ::
              q !in Take(records, count) ==> Distance(r.id, target) < Distance(q.id, target)
  {
    var found := Take(records, count);
    forall q <- records, r <- found ensures q in found || Distance(r.id, target) < Distance(q.id, target) {
      var i: nat :| i < |found| && found[i] == r;
      var j: nat :| j < |records| && records[j] == q;
      if j <= i {
        assert found[j] == q;
      } else {
        assert records[i] == r;
      }
    }
  }

  /** The order and the distances leave no choice: there is one such list. */
  lemma NearestUnique(all: set<PeerRecord>, target: Id, count: nat, a: seq<PeerRecord>, b: seq<PeerRecord>)
    requires Nearest(all, target, count, a) && Nearest(all, target, count, b)
    ensures a == b
  {
    SamePrefix(all, target, count, a, b, |a|);
    assert a[..|a|] == a && b[..|b|] == b;
  }

  lemma {:induction false} SamePrefix(all: set<PeerRecord>, target: Id, count: nat, a: seq<PeerRecord>, b: seq<PeerRecord>, n: nat)
    requires Nearest(all, target, count, a) && Nearest(all, target, count, b) && n <= |a|
    ensures n <= |b| && a[..n] == b[..n]
  {
    hide Nearest;
    SameLength(all, target, count, a, b);
    if n > 0 {
      SamePrefix(all, target, count, a, b, n - 1);
      assert forall j: nat | j < n - 1 :: a[j] == a[..n - 1][j] == b[..n - 1][j] == b[j];
      NotBehind(all, target, count, a, b, n - 1);
      NotBehind(all, target, count, b, a, n - 1);
    }
  }

  lemma SameLength(all: set<PeerRecord>, target: Id, count: nat, a: seq<PeerRecord>, b: seq<PeerRecord>)
    requires Nearest(all, target, count, a) && Nearest(all, target, count, b)
    ensures |a| == |b|
  {
  }

  /** After a common start neither list can be behind the other. */
  lemma NotBehind(all: set<PeerRecord>, target: Id, count: nat, a: seq<PeerRecord>, b: seq<PeerRecord>, i: nat)
    requires Nearest(all, target, count, a) && Nearest(all, target, count, b) && i < |a| == |b|
    requires forall j: nat | j < i :: a[j] == b[j]
    ensures a[i] == b[i] || Distance(b[i].id, target) < Distance(a[i].id, target)
  {
    hide Distance;
    NoRepeat(a, target, i);
    if a[i] in b {
      var k: nat :| k < |b| && b[k] == a[i];
    } else {
      assert b[i] in b && a[i] in a;
    }
  }

  lemma NoRepeat(records: seq<PeerRecord>, target: Id, i: nat)
    requires Ascending(records, target) && i < |records|
    ensures forall j: nat | j < i :: records[j] != records[i]
  {
    hide Distance;
  }
}
