/** A peer as an object: its routing table, its live queries and the timers of the peers it
    is contacting, updated in place. */
module KademliaPeer {
  import opened Wrappers
  import opened KademliaIds
  import opened KademliaBuckets
  import opened KademliaLookup
  import opened KademliaTable
  import Spec = KademliaQuery

  class Peer {
    const buckets: Buckets
    var queryStates: map<Id, Spec.Query>
    // The timer service, and what was sent and handed up
    var clock: Spec.Clock
    var sent: seq<Spec.FindPeer>
    var answers: seq<Spec.Answer>
    var upcalls: seq<Spec.QueryResult>

    ghost function State(): Spec.Peer
      reads this, buckets.distances
    {
      Spec.Peer(buckets.State(), queryStates, clock, sent, answers, upcalls)
    }

    ghost predicate Valid()
      reads buckets.distances
    {
      TableOk(buckets.State())
    }

    constructor (buckets: Buckets)
      ensures this.buckets == buckets && State() == Spec.NewPeer(buckets.State())
    {
      this.buckets := buckets;
      queryStates, clock, sent, answers, upcalls := map[], Spec.Clock(map[], 0), [], [], [];
    }

    method SetTimer(target: Id, r: PeerRecord) returns (timer: nat)
      modifies `clock
      ensures clock == Spec.SetTimer(old(clock), target, r) && timer == clock.last
    {
      timer := clock.last + 1;
      clock := Spec.Clock(clock.live[timer := (target, r)], timer);
    }

    method OnStart(target: Id, count: nat) returns (r: Fallible<()>)
      requires Valid() && count > 0
      modifies this
      ensures |old(State()).table.buckets| == BITS
      ensures
        match Spec.OnStart(old(State()), target, count)
        case Success(p) => r == Success(()) && State() == p
        case Failure(e) => r == Failure(e)
    {
      hide KademliaLookup.FindClosest, Take, Nearest, TableOk;
      SizeOk(buckets.State());
      var own := buckets.origin.id;
      var limit := if count > Spec.CONCURRENCY then count else Spec.CONCURRENCY;
      var records := buckets.FindClosest(target, limit);
      var others := Spec.Except(records, own);
      var peers := Take(others, Spec.CONCURRENCY);
      var q := Spec.Query(target, count, records, map[], {own});
      ghost var goal := Spec.ContactAll(q, clock, peers);
      var k := 0;
      while k < |peers|
        modifies `clock
        invariant k <= |peers| && q.target == target && q.count == count
        invariant Spec.ContactAll(q, clock, peers[k..]) == goal
      {
        assert peers[k..][1..] == peers[k + 1..];
        var timer := SetTimer(target, peers[k]);
        q := q.(contacting := q.contacting[peers[k].id := timer]);
        k := k + 1;
      }
      assert peers[k..] == [];
      var replaced := target in queryStates;
      queryStates := queryStates[target := q];
      if replaced {
        return Failure(ConcurrentQuery);
      }
      sent := sent + Spec.Asking(q, peers);
      return Success(());
    }

    method OnExpire(timer: nat) returns (r: Fallible<()>)
      requires timer in clock.live
      ensures
        match Spec.OnExpire(State(), timer)
        case Success(p) => false
        case Failure(e) => r == Failure(e)
    {
      var (target, record) := clock.live[timer];
      if target !in queryStates {
        return Failure(Panicked);
      }
      return Failure(Timeout);
    }

    method OnAsked(record: PeerRecord, target: Id, count: nat) returns (r: Fallible<()>)
      requires Valid() && count > 0
      modifies this, buckets.distances
      ensures |old(State()).table.buckets| == BITS
      ensures
        match Spec.OnAsked(old(State()), record, target, count)
        case Success(p) => r == Success(()) && State() == p
        case Failure(e) => r == Failure(e)
    {
      hide KademliaLookup.FindClosest, Nearest, TableOk;
      SizeOk(buckets.State());
      InsertKeepsTable(buckets.State(), record);
      r := buckets.Insert(record);
      if r.Failure? {
        return;
      }
      var closest := buckets.FindClosest(target, count);
      answers := answers + [Spec.Answer(record, target, closest)];
    }

    /** Merge what a peer knows into the records of a query. */
    method Merge(known: seq<PeerRecord>, more: seq<PeerRecord>, target: Id) returns (r: Fallible<seq<PeerRecord>>)
      ensures r == Spec.MergeAll(known, more, target)
    {
      var records := known;
      var k := 0;
      while k < |more|
        invariant k <= |more|
        invariant Spec.MergeAll(records, more[k..], target) == Spec.MergeAll(known, more, target)
      {
        var record := more[k];
        assert more[k..][1..] == more[k + 1..];
        var i := Spec.SearchPosition(records, Distance(record.id, target), target);
        if i < |records| && Distance(records[i].id, target) == Distance(record.id, target) {
          if record != records[i] {
            return Failure(NonDistinctDistance);
          }
        } else {
          records := records[..i] + [record] + records[i..];
        }
        k := k + 1;
      }
      return Success(records);
    }

    /** Contact the nearest known peers not contacted yet, up to the limit. */
    method Fill(q: Spec.Query) returns (q': Spec.Query, picked: seq<PeerRecord>)
      modifies `clock
      ensures (q', clock, picked) == Spec.Fill(q, old(clock), [])
    {
      q', picked := q, [];
      while |q'.contacting| < Spec.CONCURRENCY
        invariant q'.target == q.target
        invariant Spec.Fill(q', clock, picked) == Spec.Fill(q, old(clock), [])
        decreases Spec.CONCURRENCY - |q'.contacting|
      {
        var i := Spec.FirstOther(q'.records, q'.contacted + q'.contacting.Keys);
        if i == |q'.records| {
          break;
        }
        var record := q'.records[i];
        assert record.id !in q'.contacting;
        var timer := SetTimer(q'.target, record);
        q' := q'.(contacting := q'.contacting[record.id := timer]);
        picked := picked + [record];
      }
    }

    method OnReply(target: Id, closest: seq<PeerRecord>, record: PeerRecord) returns (r: Fallible<()>)
      requires Valid()
      modifies this, buckets.distances
      ensures |old(State()).table.buckets| == BITS
      ensures
        match Spec.OnReply(old(State()), target, closest, record)
        case Success(p) => r == Success(()) && State() == p
        case Failure(e) => r == Failure(e)
    {
      hide TableOk, Spec.Resume;
      SizeOk(buckets.State());
      r := buckets.Insert(record);
      if r.Failure? || target !in queryStates {
        return;
      }
      var q := queryStates[target];
      if record.id !in q.contacting {
        return;
      }
      var timer := q.contacting[record.id];
      if timer !in clock.live {
        return Failure(TimerNotFound);
      }
      clock := clock.(live := clock.live - {timer});
      var merged := Merge(q.records, closest, target);
      if merged.Failure? {
        return Failure(merged.error);
      }
      q := q.(contacting := q.contacting - {record.id}, contacted := q.contacted + {record.id});
      r := Resume(q.(records := merged.value));
    }

    /** Whether the query converges, goes on or halts, and what is handed up. */
    method Resume(q: Spec.Query) returns (r: Fallible<()>)
      modifies this
      ensures
        match Spec.Resume(old(State()), q)
        case Success(p) => r == Success(()) && State() == p
        case Failure(e) => r == Failure(e)
    {
      hide Spec.Only, Spec.Fill, Take;
      var closest := Take(Spec.Only(q.records, q.contacted), q.count);
      if Spec.FirstOther(q.records, q.contacted) >= q.count {
        if !(q.contacting.Values <= clock.live.Keys) {
          return Failure(TimerNotFound);
        }
        clock := clock.(live := clock.live - q.contacting.Values);
        queryStates := queryStates - {q.target};
        upcalls := upcalls + [Spec.QueryResult(Spec.Converge, q.target, closest)];
        return Success(());
      }
      var next, peers := Fill(q);
      if next.contacting == map[] {
        queryStates := queryStates - {q.target};
        upcalls := upcalls + [Spec.QueryResult(Spec.Halted, q.target, closest)];
      } else {
        queryStates := queryStates[q.target := next];
        sent := sent + Spec.Asking(q, peers);
        upcalls := upcalls + [Spec.QueryResult(Spec.Progress, q.target, closest)];
      }
      return Success(());
    }
  }
}
