/** What one correct replica keeps, event after event, exactly as the code stands. */
module PbftLocal {
  import opened Wrappers
  import opened PbftTypes
  import opened PbftSpec

  /** The vote v is replica i's own, for slot k of view 0. */
  ghost predicate VoteOf(c: Config, v: SignedVote, k: nat, i: nat) {
    && v.inner.viewNum == 0 && v.inner.opNum == k
    && v.inner.replicaId == v.signer == i < c.numReplica
  }

  ghost predicate TableOk(c: Config, votes: Table, k: nat) {
    forall i <- votes :: VoteOf(c, votes[i], k, i)
  }

  ghost predicate QuorumsOk(c: Config, quorums: map<nat, Table>) {
    forall k <- quorums :: TableOk(c, quorums[k], k)
  }

  ghost predicate PendingOk(pending: map<nat, seq<SignedVote>>) {
    forall k <- pending, j: nat | j < |pending[k]| :: pending[k][j].inner.opNum == k
  }

  ghost predicate BallotsOk(c: Config, b: Ballots) {
    QuorumsOk(c, b.quorums) && PendingOk(b.pending)
  }

  ghost predicate EntryOk(c: Config, entry: LogEntry, k: nat) {
    && (entry.prePrepare.Some? ==>
          entry.prePrepare.value == SignedPrePrepare(PrePrepare(0, k, Sha256(entry.requests)), 0))
    && (entry.prePrepare.None? ==> entry.requests == [])
    && TableOk(c, entry.prepares, k)
    && TableOk(c, entry.commits, k)
    && (entry.commits != map[] ==> entry.prepares != map[] && |entry.commits| >= c.Quorum())
  }

  ghost predicate LogOk(c: Config, log: seq<LogEntry>) {
    forall k: nat | k < |log| :: EntryOk(c, log[k], k)
  }

  /** Slot k has a pre-prepare, and it names this digest. */
  ghost predicate Accepts(log: seq<LogEntry>, k: nat, digest: Digest) {
    k < |log| && log[k].prePrepare.Some? && log[k].prePrepare.value.inner.digest == digest
  }

  ghost predicate TaskOk(id: nat, log: seq<LogEntry>, t: Task) {
    match t
    case SignPrePrepare(viewNum, _, _) => id == 0 && viewNum == 0
    case VerifyPrePrepare(p, _) => p.inner.viewNum == 0
    case SignVote(round, v) =>
      && v.viewNum == 0 && v.replicaId == id && v.opNum < |log|
      && (round.Preparing? ==> Accepts(log, v.opNum, v.digest))
    case VerifyVote(_, v) => v.inner.viewNum == 0
  }

  ghost predicate TasksOk(id: nat, log: seq<LogEntry>, tasks: multiset<Task>) {
    forall t <- tasks :: TaskOk(id, log, t)
  }

  ghost predicate Shaped(c: Config, r: Replica) {
    && r.id < c.numReplica && r.viewNum == 0
    && LogOk(c, r.log)
    && BallotsOk(c, r.prepares)
    && BallotsOk(c, r.commits)
    && TasksOk(r.id, r.log, r.out.tasks)
  }

  // One component at a time

  lemma EntryAt(c: Config, log: seq<LogEntry>, k: nat)
    requires LogOk(c, log) && k < |log|
    ensures EntryOk(c, log[k], k)
  {
  }

  lemma LogSet(c: Config, log: seq<LogEntry>, k: nat, entry: LogEntry)
    requires LogOk(c, log) && k < |log| && EntryOk(c, entry, k)
    ensures LogOk(c, log[k := entry])
  {
  }

  lemma LogGrown(c: Config, log: seq<LogEntry>, k: nat)
    requires LogOk(c, log)
    ensures LogOk(c, Grow(log, k))
  {
  }

  lemma TableSet(c: Config, b: Ballots, v: SignedVote)
    requires BallotsOk(c, b) && VoteOf(c, v, v.inner.opNum, v.inner.replicaId)
    ensures
      var votes := TableOf(b.quorums, v.inner.opNum)[v.inner.replicaId := v];
      TableOk(c, votes, v.inner.opNum) && BallotsOk(c, b.(quorums := b.quorums[v.inner.opNum := votes]))
  {
  }

  lemma TableDropped(c: Config, b: Ballots, k: nat)
    requires BallotsOk(c, b)
    ensures BallotsOk(c, b.(quorums := b.quorums - {k}))
  {
  }

  lemma TableRetained(c: Config, b: Ballots, k: nat, digest: Digest)
    requires BallotsOk(c, b)
    ensures BallotsOk(c, b.(quorums := Retain(b.quorums, k, digest)))
  {
  }

  lemma QueueDropped(c: Config, b: Ballots, k: nat)
    requires BallotsOk(c, b)
    ensures BallotsOk(c, b.(pending := b.pending - {k}))
  {
  }

  lemma QueueSet(c: Config, b: Ballots, k: nat, queue: seq<SignedVote>)
    requires BallotsOk(c, b) && forall j: nat | j < |queue| :: queue[j].inner.opNum == k
    ensures BallotsOk(c, b.(pending := b.pending[k := queue]))
  {
  }

  lemma QueueAt(c: Config, b: Ballots, k: nat)
    requires BallotsOk(c, b) && k in b.pending
    ensures forall j: nat | j < |b.pending[k]| :: b.pending[k][j].inner.opNum == k
  {
  }

  lemma TaskAt(r: Replica, t: Task)
    requires TasksOk(r.id, r.log, r.out.tasks) && t in r.out.tasks
    ensures TaskOk(r.id, r.log, t)
  {
  }

  /** Tasks stay well-formed as long as the log only grows and keeps its pre-prepares. */
  lemma TasksKept(id: nat, log: seq<LogEntry>, log': seq<LogEntry>, tasks: multiset<Task>, tasks': multiset<Task>)
    requires TasksOk(id, log, tasks) && tasks' <= tasks
    requires |log| <= |log'|
    requires forall k: nat | k < |log| :: log[k].prePrepare.Some? ==> log'[k].prePrepare == log[k].prePrepare
    ensures TasksOk(id, log', tasks')
  {
    forall t <- tasks' ensures TaskOk(id, log', t) { assert t in tasks && TaskOk(id, log, t); }
  }

  // One handler at a time

  lemma SubmitKeepsShape(c: Config, r: Replica, t: Task)
    requires Shaped(c, r) && TaskOk(r.id, r.log, t)
    ensures Shaped(c, Submit(r, t))
  {
    hide LogOk, BallotsOk;
    forall u <- Submit(r, t).out.tasks ensures TaskOk(r.id, r.log, u) { assert u == t || u in r.out.tasks; }
  }

  lemma CloseBatchKeepsShape(c: Config, r: Replica)
    requires Shaped(c, r) && IsPrimary(c, r) && r.requests != []
    ensures Shaped(c, CloseBatch(c, r))
  {
    hide LogOk, BallotsOk, TasksOk;
    var size := if |r.requests| < MAX_BATCH then |r.requests| else MAX_BATCH;
    var r1 := r.(opNum := r.opNum + 1, requests := r.requests[size..]);
    SubmitKeepsShape(c, r1, SignPrePrepare(r.viewNum, r.opNum + 1, r.requests[..size]));
  }

  lemma CloseBatchesKeepsShape(c: Config, r: Replica)
    requires Shaped(c, r)
    ensures Shaped(c, CloseBatches(c, r))
    decreases |r.requests|
  {
    hide Shaped;
    if IsPrimary(c, r) && r.requests != [] && r.opNum <= r.commitNum + CONCURRENT_PRE_PREPARES {
      CloseBatchKeepsShape(c, r);
      CloseBatchesKeepsShape(c, CloseBatch(c, r));
    }
  }

  lemma SubmitVoteKeepsShape(c: Config, r: Replica, round: Round, v: SignedVote)
    requires Shaped(c, r)
    ensures Shaped(c, SubmitVote(r, round, v))
  {
    hide LogOk, BallotsOk, TasksOk, Wanted;
    if Submittable(r, round, v.inner) {
      SubmitKeepsShape(c, r, VerifyVote(round, v));
    }
  }

  lemma SetQueueKeepsShape(c: Config, r: Replica, round: Round, k: nat, queue: seq<SignedVote>)
    requires Shaped(c, r) && forall j: nat | j < |queue| :: queue[j].inner.opNum == k
    ensures Shaped(c, SetQueue(r, round, k, queue)) && Shaped(c, DropQueue(r, round, k))
  {
    hide LogOk, BallotsOk, TasksOk;
    QueueSet(c, r.Ballots(round), k, queue);
    QueueDropped(c, r.Ballots(round), k);
  }

  lemma DrainKeepsShape(c: Config, r: Replica, round: Round, k: nat)
    requires Shaped(c, r)
    ensures Shaped(c, Drain(r, round, k))
    decreases if k in r.Ballots(round).pending then 1 + |r.Ballots(round).pending[k]| else 0
  {
    hide LogOk, BallotsOk, TasksOk, Wanted, SubmitVote;
    var pending := r.Ballots(round).pending;
    if k in pending {
      QueueAt(c, r.Ballots(round), k);
      if pending[k] == [] {
        SetQueueKeepsShape(c, r, round, k, []);
      } else {
        var last := |pending[k]| - 1;
        var r0 := SetQueue(r, round, k, pending[k][..last]);
        SetQueueKeepsShape(c, r, round, k, pending[k][..last]);
        SubmitVoteKeepsShape(c, r0, round, pending[k][last]);
        DrainAfter(r, round, k);
        var v: SignedVote := pending[k][last];
        if !(Submittable(r, round, v.inner) || v.inner.viewNum > r.viewNum) {
          DrainKeepsShape(c, r0, round, k);
        }
      }
    }
  }

  /** A refused vote leaves no trace but the shorter queue. */
  lemma DrainAfter(r: Replica, round: Round, k: nat)
    requires k in r.Ballots(round).pending && r.Ballots(round).pending[k] != []
    ensures
      var queue := r.Ballots(round).pending[k];
      var last := |queue| - 1;
      var r0 := SetQueue(r, round, k, queue[..last]);
      Drain(r, round, k) ==
        if Submittable(r, round, queue[last].inner) || queue[last].inner.viewNum > r.viewNum
        then SubmitVote(r0, round, queue[last])
        else Drain(r0, round, k)
  {
    hide Wanted;
    var queue := r.Ballots(round).pending[k];
    assert Wanted(SetQueue(r, round, k, queue[..|queue| - 1]), round, queue[|queue| - 1].inner)
        == Wanted(r, round, queue[|queue| - 1].inner) by {
      SameWanted(r, SetQueue(r, round, k, queue[..|queue| - 1]), round, queue[|queue| - 1].inner);
    }
  }

  lemma SameWanted(r: Replica, r': Replica, round: Round, v: Vote)
    requires r'.log == r.log
    ensures Wanted(r', round, v) == Wanted(r, round, v)
  {
  }

  lemma InsertPrepareKeepsShape(c: Config, r: Replica, v: SignedVote)
    requires Shaped(c, r) && VoteOf(c, v, v.inner.opNum, v.inner.replicaId)
    ensures Shaped(c, InsertPrepare(c, r, v))
  {
    hide LogOk, BallotsOk, TasksOk;
    var k, votes := v.inner.opNum, Counted(r, Preparing, v);
    TableSet(c, r.prepares, v);
    if |votes| + 1 >= c.Quorum() && k < |r.log| && r.log[k].prepares == map[] {
      var r1 := DropTable(r, Preparing, k).(log := r.log[k := r.log[k].(prepares := votes)]);
      EntryAt(c, r.log, k);
      LogSet(c, r.log, k, r.log[k].(prepares := votes));
      TableDropped(c, r.prepares, k);
      TasksKept(r.id, r.log, r1.log, r.out.tasks, r.out.tasks);
      SubmitKeepsShape(c, r1, SignVote(Committing, Vote(r.viewNum, k, v.inner.digest, r.id)));
    }
  }

  lemma InsertCommitKeepsShape(c: Config, r: Replica, v: SignedVote)
    requires Shaped(c, r) && VoteOf(c, v, v.inner.opNum, v.inner.replicaId)
    ensures Shaped(c, InsertCommit(c, r, v))
  {
    hide LogOk, BallotsOk, TasksOk;
    var k, votes := v.inner.opNum, Counted(r, Committing, v);
    TableSet(c, r.commits, v);
    if |votes| >= c.Quorum() && k < |r.log| && r.log[k].commits == map[] && r.log[k].prepares != map[] {
      var r1 := DropTable(r, Committing, k).(log := r.log[k := r.log[k].(commits := votes)]);
      EntryAt(c, r.log, k);
      LogSet(c, r.log, k, r.log[k].(commits := votes));
      TableDropped(c, r.commits, k);
      TasksKept(r.id, r.log, r1.log, r.out.tasks, r.out.tasks);
      CloseBatchesKeepsShape(c, ExecuteCommitted(c, r1));
    }
  }

  lemma InsertVoteKeepsShape(c: Config, r: Replica, round: Round, v: SignedVote)
    requires Shaped(c, r) && VoteOf(c, v, v.inner.opNum, v.inner.replicaId)
    ensures Shaped(c, InsertVote(c, r, round, v))
  {
    hide Shaped, InsertPrepare, InsertCommit;
    if round.Preparing? { InsertPrepareKeepsShape(c, r, v); } else { InsertCommitKeepsShape(c, r, v); }
  }

  lemma SignedPrePrepareKeepsShape(c: Config, r: Replica, p: SignedPrePrepare, requests: seq<Request>)
    requires Shaped(c, r) && p == SignedPrePrepare(PrePrepare(0, p.inner.opNum, Sha256(requests)), 0)
    requires p.inner.opNum < |r.log| ==> r.log[p.inner.opNum].prePrepare.None?
    ensures Shaped(c, OnSignedPrePrepare(r, p, requests))
  {
    hide LogOk, BallotsOk, TasksOk;
    var k := p.inner.opNum;
    var log := Grow(r.log, k);
    LogGrown(c, r.log, k);
    EntryAt(c, log, k);
    var entry := log[k].(prePrepare := Some(p), viewNum := r.viewNum, requests := requests);
    LogSet(c, log, k, entry);
    TasksKept(r.id, r.log, log[k := entry], r.out.tasks, r.out.tasks);
  }

  lemma VerifiedPrePrepareKeepsShape(c: Config, r: Replica, p: SignedPrePrepare, requests: seq<Request>)
    requires Shaped(c, r) && p == SignedPrePrepare(PrePrepare(0, p.inner.opNum, Sha256(requests)), 0)
    ensures Shaped(c, OnVerifiedPrePrepare(r, p, requests))
  {
    hide LogOk, BallotsOk, TasksOk;
    var k := p.inner.opNum;
    var log := Grow(r.log, k);
    LogGrown(c, r.log, k);
    EntryAt(c, log, k);
    if log[k].prePrepare.Some? {
      TasksKept(r.id, r.log, log, r.out.tasks, r.out.tasks);
    } else {
      var entry := log[k].(prePrepare := Some(p), viewNum := r.viewNum, requests := requests);
      LogSet(c, log, k, entry);
      TableRetained(c, r.prepares, k, p.inner.digest);
      TableRetained(c, r.commits, k, p.inner.digest);
      TasksKept(r.id, r.log, log[k := entry], r.out.tasks, r.out.tasks);
      var r1 := r.(log := log[k := entry],
                   prepares := r.prepares.(quorums := Retain(r.prepares.quorums, k, p.inner.digest)),
                   commits := r.commits.(quorums := Retain(r.commits.quorums, k, p.inner.digest)));
      SubmitKeepsShape(c, r1, SignVote(Preparing, Vote(r.viewNum, k, p.inner.digest, r.id)));
    }
  }

  lemma RecvKeepsShape(c: Config, r: Replica, m: Message)
    requires Shaped(c, r)
    ensures Shaped(c, OnRecv(c, r, m))
  {
    hide LogOk, BallotsOk, TasksOk, Wanted, Fresh;
    match m
    case RequestMsg(q) =>
      if Fresh(r.service.replies, q) && IsPrimary(c, r) {
        var noted := r.service.(replies := r.service.replies[q.clientId := CachedReply(q.seqNum, None)]);
        CloseBatchKeepsShape(c, r.(service := noted, requests := r.requests + [q]));
      }
    case PrePrepareMsg(p, requests) =>
      if p.inner.viewNum == 0 { SubmitKeepsShape(c, r, VerifyPrePrepare(p, requests)); }
    case VoteMsg(round, v) => RecvVoteKeepsShape(c, r, round, v);
  }

  lemma RecvVoteKeepsShape(c: Config, r: Replica, round: Round, v: SignedVote)
    requires Shaped(c, r)
    ensures Shaped(c, OnRecvVote(r, round, v))
  {
    hide SubmitVote, SetQueue, BallotsOk, LogOk, TasksOk;
    var k := v.inner.opNum;
    SubmitVoteKeepsShape(c, r, round, v);
    if k in r.Ballots(round).pending {
      QueueAt(c, r.Ballots(round), k);
      SetQueueKeepsShape(c, r, round, k, r.Ballots(round).pending[k] + [v]);
    } else if Submittable(r, round, v.inner) {
      SetQueueKeepsShape(c, SubmitVote(r, round, v), round, k, []);
    }
  }

  lemma DoneKeepsShape(c: Config, r: Replica, t: Task)
    requires Shaped(c, r) && TaskOk(r.id, r.log, t) && Answered(c, t)
    requires t.SignPrePrepare? && t.opNum < |r.log| ==> r.log[t.opNum].prePrepare.None?
    ensures Shaped(c, OnDone(c, r, t))
  {
    hide LogOk, BallotsOk, TasksOk, InsertVote, OnSignedPrePrepare, OnVerifiedPrePrepare, Drain;
    match t
    case SignPrePrepare(w, k, requests) =>
      SignedPrePrepareKeepsShape(c, r, SignedPrePrepare(PrePrepare(w, k, Sha256(requests)), r.id), requests);
    case VerifyPrePrepare(p, requests) =>
      assert 0 % c.numReplica == 0;
      VerifiedPrePrepareKeepsShape(c, r, p, requests);
    case SignVote(round, v) =>
      InsertVoteKeepsShape(c, Broadcast(r, VoteMsg(round, SignedVote(v, r.id))), round, SignedVote(v, r.id));
    case VerifyVote(round, v) =>
      InsertVoteKeepsShape(c, r, round, v);
      DrainKeepsShape(c, InsertVote(c, r, round, v), round, v.inner.opNum);
  }

  lemma ShapedStep(c: Config, r: Replica, e: Event)
    requires Shaped(c, r) && Enabled(c, r, e)
    requires e.Done? && e.task.SignPrePrepare? && e.task.opNum < |r.log| ==> r.log[e.task.opNum].prePrepare.None?
    ensures Shaped(c, Handle(c, r, e))
  {
    hide LogOk, BallotsOk, TasksOk, OnRecv, OnDone;
    match e
    case Recv(m) => RecvKeepsShape(c, r, m);
    case Done(t) =>
      TaskAt(r, t);
      TasksKept(r.id, r.log, r.log, r.out.tasks, Answer(r, t).out.tasks);
      DoneKeepsShape(c, Answer(r, t), t);
  }
}
