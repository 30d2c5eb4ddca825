/** The two checks on which agreement rests and which the code does not make: a slot has
    its pre-prepare before it is prepared, and a late vote names the slot's digest.
    Both are stated on the state before a call, and each is exact for what it protects: a
    call keeps the local invariant if and only if its check holds.  That agreement follows
    from the two invariants is one direction only; a call that fails a check is what makes
    disagreement possible, not what makes it certain. */
module PbftGuards {
  import opened Wrappers
  import opened PbftTypes
  import opened PbftSpec
  import opened PbftLocal
  import opened PbftTokens
  import opened PbftProposals
  import opened PbftStep

  /** A prepared slot has a pre-prepare. */
  ghost predicate SlotSound(log: seq<LogEntry>) {
    forall k: nat | k < |log| && log[k].prepares != map[] :: SlotTaken(log, k)
  }

  ghost predicate TableAgrees(votes: Table, digest: Digest) {
    forall i <- votes :: votes[i].inner.digest == digest
  }

  ghost predicate SlotAgrees(log: seq<LogEntry>, quorums: map<nat, Table>, k: nat) {
    SlotTaken(log, k) ==>
      var digest := log[k].prePrepare.value.inner.digest;
      TableAgrees(TableOf(quorums, k), digest) && TableAgrees(log[k].commits, digest)
  }

  ghost predicate CommitsAgree(log: seq<LogEntry>, quorums: map<nat, Table>) {
    forall k: nat :: SlotAgrees(log, quorums, k)
  }

  ghost predicate SignsAccepted(log: seq<LogEntry>, tasks: multiset<Task>) {
    forall v :: SignVote(Committing, v) in tasks ==> Accepts(log, v.opNum, v.digest)
  }

  ghost predicate SentAccepted(log: seq<LogEntry>, sent: set<Message>) {
    forall round, v :: VoteMsg(round, v) in sent ==> Accepts(log, v.inner.opNum, v.inner.digest)
  }

  /** A backup votes for nothing but the digest of its own pre-prepare, and counts no
      commit for any other. */
  ghost predicate DigestSound(r: Replica) {
    && SignsAccepted(r.log, r.out.tasks)
    && SentAccepted(r.log, r.out.sent)
    && CommitsAgree(r.log, r.commits.quorums)
  }

  /** The prepare completes the quorum of an open slot of the log. */
  predicate Finishes(c: Config, r: Replica, v: SignedVote) {
    && v.inner.opNum < |r.log| && r.log[v.inner.opNum].prepares == map[]
    && |Counted(r, Preparing, v)| + 1 >= c.Quorum()
  }

  /** The check the comment beside the slot test asks for. */
  predicate SlotGuard(c: Config, r: Replica, e: Event) {
    e.Done? && e.task.VerifyVote? && e.task.round.Preparing? && Finishes(c, r, e.task.vote) ==>
      r.log[e.task.vote.inner.opNum].prePrepare.Some?
  }

  /** The digest check made at submission, made again when the verified vote is counted. */
  ghost predicate DigestGuard(c: Config, r: Replica, e: Event) {
    e.Done? && e.task.VerifyVote? ==>
      var v := e.task.vote.inner;
      (e.task.round.Preparing? ==> Finishes(c, r, e.task.vote)) && SlotTaken(r.log, v.opNum) ==>
        Accepts(r.log, v.opNum, v.digest)
  }

  // What the handlers do to the log

  /** The log grows, and its pre-prepares stay. */
  ghost predicate Extends(log: seq<LogEntry>, log': seq<LogEntry>) {
    && |log| <= |log'|
    && forall k: nat | SlotTaken(log, k) ::
         log'[k].prePrepare == log[k].prePrepare && log'[k].requests == log[k].requests
  }

  ghost predicate SameSlots(log: seq<LogEntry>, log': seq<LogEntry>) {
    && |log| == |log'|
    && forall k: nat | k < |log| :: log'[k].prePrepare == log[k].prePrepare && log'[k].requests == log[k].requests
  }

  lemma InsertPrepareLog(c: Config, r: Replica, v: SignedVote)
    ensures
      var r' := InsertPrepare(c, r, v);
      r'.log == if Finishes(c, r, v)
                then r.log[v.inner.opNum := r.log[v.inner.opNum].(prepares := Counted(r, Preparing, v))]
                else r.log
  {
  }

  /** The commit completes the quorum of a prepared slot of the log. */
  predicate Commits(c: Config, r: Replica, v: SignedVote) {
    && v.inner.opNum < |r.log| && r.log[v.inner.opNum].commits == map[] && r.log[v.inner.opNum].prepares != map[]
    && |Counted(r, Committing, v)| >= c.Quorum()
  }

  lemma InsertCommitLog(c: Config, r: Replica, v: SignedVote)
    ensures
      var r' := InsertCommit(c, r, v);
      && r'.log == (if Commits(c, r, v)
                    then r.log[v.inner.opNum := r.log[v.inner.opNum].(commits := Counted(r, Committing, v))]
                    else r.log)
      && r'.commits.quorums == (if Commits(c, r, v) then r.commits.quorums - {v.inner.opNum}
                                else r.commits.quorums[v.inner.opNum := Counted(r, Committing, v)])
      && r'.out.sent == r.out.sent
  {
  }

  // The slot check is exact

  /** Given that every prepared slot has its pre-prepare before the call, it is so after the
      call exactly if the call passes the check. */
  lemma SlotSoundExact(c: Config, r: Replica, e: Event)
    requires Local(c, r) && Enabled(c, r, e) && SlotSound(r.log)
    ensures SlotSound(Handle(c, r, e).log) <==> SlotGuard(c, r, e)
  {
    hide LogOk, BallotsOk, TokenInvariant, Proposals, TasksOk;
    match e
    case Recv(m) => RecvKeepsLog(c, r, m);
    case Done(SignPrePrepare(w, k, batch)) =>
    case Done(VerifyPrePrepare(p, batch)) =>
    case Done(SignVote(round, v)) =>
      TaskAt(r, e.task);
      SignedVoteSlots(c, Answer(r, e.task), round, SignedVote(v, r.id));
    case Done(VerifyVote(round, v)) =>
      TaskAt(r, e.task);
      VerifiedVoteSlots(c, Answer(r, e.task), round, v);
  }

  lemma RecvKeepsLog(c: Config, r: Replica, m: Message)
    ensures
      var r' := OnRecv(c, r, m);
      r'.log == r.log && r'.commits.quorums == r.commits.quorums && r'.out.sent == r.out.sent && r'.commitNum == r.commitNum
    ensures forall v :: OnRecv(c, r, m).out.tasks[SignVote(Committing, v)] == r.out.tasks[SignVote(Committing, v)]
  {
    hide Fresh, Wanted;
  }

  lemma SignedVoteSlots(c: Config, r: Replica, round: Round, v: SignedVote)
    requires SlotSound(r.log) && v.inner.opNum < |r.log| && v.inner.viewNum == r.viewNum
    requires round.Preparing? ==> SlotTaken(r.log, v.inner.opNum)
    ensures SlotSound(OnSignedVote(c, r, round, v).log)
  {
    hide InsertPrepare, InsertCommit;
    var r1 := Broadcast(r, VoteMsg(round, v));
    if round.Preparing? { InsertPrepareLog(c, r1, v); } else { InsertCommitLog(c, r1, v); }
  }

  lemma VerifiedVoteSlots(c: Config, r: Replica, round: Round, v: SignedVote)
    requires SlotSound(r.log) && v.inner.viewNum == r.viewNum
    ensures
      SlotSound(OnVerifiedVote(c, r, round, v).log) <==>
      (round.Preparing? && Finishes(c, r, v) ==> SlotTaken(r.log, v.inner.opNum))
  {
    hide InsertPrepare, InsertCommit;
    if round.Preparing? {
      InsertPrepareLog(c, r, v);
      if Finishes(c, r, v) {
        var log' := InsertPrepare(c, r, v).log;
        assert log'[v.inner.opNum].prepares == Counted(r, Preparing, v);
        assert v.inner.replicaId in Counted(r, Preparing, v);
        forall k: nat | SlotTaken(r.log, k) ensures SlotTaken(log', k) {}
        assert SlotTaken(log', v.inner.opNum) <==> SlotTaken(r.log, v.inner.opNum);
      }
    } else {
      InsertCommitLog(c, r, v);
    }
  }

  // The digest check is exact

  lemma AcceptsStays(log: seq<LogEntry>, log': seq<LogEntry>, k: nat, digest: Digest)
    requires Extends(log, log') && Accepts(log, k, digest)
    ensures Accepts(log', k, digest)
  {
    assert SlotTaken(log, k);
  }

  lemma SignsStay(log: seq<LogEntry>, log': seq<LogEntry>, tasks: multiset<Task>, tasks': multiset<Task>)
    requires SignsAccepted(log, tasks) && Extends(log, log')
    requires forall v :: SignVote(Committing, v) in tasks' ==> SignVote(Committing, v) in tasks
    ensures SignsAccepted(log', tasks')
  {
    forall v | SignVote(Committing, v) in tasks' ensures Accepts(log', v.opNum, v.digest) {
      AcceptsStays(log, log', v.opNum, v.digest);
    }
  }

  lemma SentStay(log: seq<LogEntry>, log': seq<LogEntry>, sent: set<Message>, sent': set<Message>)
    requires SentAccepted(log, sent) && Extends(log, log')
    requires forall round, v :: VoteMsg(round, v) in sent' ==> VoteMsg(round, v) in sent
    ensures SentAccepted(log', sent')
  {
    forall round, v | VoteMsg(round, v) in sent' ensures Accepts(log', v.inner.opNum, v.inner.digest) {
      AcceptsStays(log, log', v.inner.opNum, v.inner.digest);
    }
  }

  /** The same for votes and digests at a backup, for calls that pass the slot check.  The
      primary has digests of its own making only, so nothing is asked of it. */
  lemma DigestSoundExact(c: Config, r: Replica, e: Event)
    requires Local(c, r) && Enabled(c, r, e) && SlotSound(r.log) && r.id != 0
    requires DigestSound(r) && SlotGuard(c, r, e)
    ensures DigestSound(Handle(c, r, e)) <==> DigestGuard(c, r, e)
  {
    hide LogOk, BallotsOk, TokenInvariant, Proposals, TasksOk, SlotSound, DigestSound,
         OnRecv, OnSignedVote, OnVerifiedVote, OnVerifiedPrePrepare;
    match e
    case Recv(m) => RecvKeepsDigests(c, r, m);
    case Done(t) =>
      TaskAt(r, t);
      AnswerKeepsDigests(r, t);
      match t {
        case SignPrePrepare(w, k, batch) =>
          assert false;
        case VerifyPrePrepare(p, batch) => PrePrepareKeepsDigests(c, Answer(r, t), p, batch);
        case SignVote(round, v) => SignedVoteKeepsDigests(c, r, t);
        case VerifyVote(round, v) => VerifiedVoteDigests(c, Answer(r, t), round, v);
      }
  }

  lemma RecvKeepsDigests(c: Config, r: Replica, m: Message)
    requires DigestSound(r)
    ensures DigestSound(OnRecv(c, r, m))
  {
    hide OnRecv, CommitsAgree;
    RecvKeepsLog(c, r, m);
    var r' := OnRecv(c, r, m);
    forall v | SignVote(Committing, v) in r'.out.tasks ensures SignVote(Committing, v) in r.out.tasks {
      assert r'.out.tasks[SignVote(Committing, v)] == r.out.tasks[SignVote(Committing, v)];
    }
    SignsStay(r.log, r.log, r.out.tasks, r'.out.tasks);
  }

  lemma AnswerKeepsDigests(r: Replica, t: Task)
    requires DigestSound(r)
    ensures DigestSound(Answer(r, t))
  {
    hide CommitsAgree;
    SignsStay(r.log, r.log, r.out.tasks, Answer(r, t).out.tasks);
  }

  lemma PrePrepareKeepsDigests(c: Config, r: Replica, p: SignedPrePrepare, batch: seq<Request>)
    requires LogOk(c, r.log) && SlotSound(r.log) && DigestSound(r)
    ensures DigestSound(OnVerifiedPrePrepare(r, p, batch))
  {
    var r', k := OnVerifiedPrePrepare(r, p, batch), p.inner.opNum;
    SignsStay(r.log, r'.log, r.out.tasks, r'.out.tasks);
    SentStay(r.log, r'.log, r.out.sent, r'.out.sent);
    forall j: nat ensures SlotAgrees(r'.log, r'.commits.quorums, j) {
      if SlotTaken(r.log, j) {
        assert SlotAgrees(r.log, r.commits.quorums, j);
      } else if SlotTaken(r'.log, j) {
        assert j == k;
        if k < |r.log| { assert EntryOk(c, r.log[k], k); }
      }
    }
  }

  /** Counting a commit that names the slot's digest, if the slot has one. */
  lemma InsertCommitDigests(c: Config, r: Replica, v: SignedVote)
    requires DigestSound(r)
    ensures DigestSound(InsertCommit(c, r, v)) <==>
            (SlotTaken(r.log, v.inner.opNum) ==> Accepts(r.log, v.inner.opNum, v.inner.digest))
  {
    hide InsertCommit, CommitsAgree;
    var r' := InsertCommit(c, r, v);
    InsertCommitLog(c, r, v);
    InsertCommitTasks(c, r, v);
    InsertCommitAgrees(c, r, v);
    forall w | SignVote(Committing, w) in r'.out.tasks ensures SignVote(Committing, w) in r.out.tasks {
      assert r'.out.tasks[SignVote(Committing, w)] == r.out.tasks[SignVote(Committing, w)];
    }
    SignsStay(r.log, r'.log, r.out.tasks, r'.out.tasks);
    SentStay(r.log, r'.log, r.out.sent, r'.out.sent);
  }

  lemma InsertCommitAgrees(c: Config, r: Replica, v: SignedVote)
    requires CommitsAgree(r.log, r.commits.quorums)
    ensures CommitsAgree(InsertCommit(c, r, v).log, InsertCommit(c, r, v).commits.quorums) <==>
            (SlotTaken(r.log, v.inner.opNum) ==> Accepts(r.log, v.inner.opNum, v.inner.digest))
  {
    hide InsertCommit, Counted, SlotAgrees;
    var r', k := InsertCommit(c, r, v), v.inner.opNum;
    InsertCommitLog(c, r, v);
    assert SlotAgrees(r.log, r.commits.quorums, k);
    CountedAgrees(c, r, v);
    forall j: nat | j != k ensures SlotAgrees(r'.log, r'.commits.quorums, j) {
      assert SlotAgrees(r.log, r.commits.quorums, j);
      OtherSlotAgrees(r.log, r'.log, r.commits.quorums, r'.commits.quorums, j);
    }
  }

  lemma OtherSlotAgrees(log: seq<LogEntry>, log': seq<LogEntry>, quorums: map<nat, Table>, quorums': map<nat, Table>, j: nat)
    requires SlotAgrees(log, quorums, j) && |log'| == |log| && (j < |log| ==> log'[j] == log[j])
    requires TableOf(quorums', j) == TableOf(quorums, j)
    ensures SlotAgrees(log', quorums', j)
  {
  }

  lemma CountedAgrees(c: Config, r: Replica, v: SignedVote)
    requires SlotAgrees(r.log, r.commits.quorums, v.inner.opNum)
    ensures
      var r', k := InsertCommit(c, r, v), v.inner.opNum;
      SlotAgrees(r'.log, r'.commits.quorums, k) <==> (SlotTaken(r.log, k) ==> Accepts(r.log, k, v.inner.digest))
  {
    hide InsertCommit;
    InsertCommitLog(c, r, v);
    var votes := Counted(r, Committing, v);
    assert v.inner.replicaId in votes && votes[v.inner.replicaId] == v;
  }

  lemma InsertPrepareDigests(c: Config, r: Replica, v: SignedVote)
    requires DigestSound(r) && (Finishes(c, r, v) ==> SlotTaken(r.log, v.inner.opNum))
    ensures DigestSound(InsertPrepare(c, r, v)) <==>
            (Finishes(c, r, v) ==> Accepts(r.log, v.inner.opNum, v.inner.digest))
  {
    var r', k := InsertPrepare(c, r, v), v.inner.opNum;
    InsertPrepareLog(c, r, v);
    SentStay(r.log, r'.log, r.out.sent, r'.out.sent);
    forall j: nat ensures SlotAgrees(r'.log, r'.commits.quorums, j) {
      assert SlotAgrees(r.log, r.commits.quorums, j);
    }
    if Finishes(c, r, v) {
      var signed := Vote(r.viewNum, k, v.inner.digest, r.id);
      assert SignVote(Committing, signed) in r'.out.tasks;
      if Accepts(r.log, k, v.inner.digest) {
        forall w | SignVote(Committing, w) in r'.out.tasks ensures Accepts(r'.log, w.opNum, w.digest) {
          assert w == signed || SignVote(Committing, w) in r.out.tasks;
        }
      } else {
        assert !Accepts(r'.log, signed.opNum, signed.digest);
      }
    } else {
      SignsStay(r.log, r'.log, r.out.tasks, r'.out.tasks);
    }
  }

  lemma SignedVoteKeepsDigests(c: Config, r: Replica, t: Task)
    requires DigestSound(r) && SlotSound(r.log) && t.SignVote? && t in r.out.tasks
    requires TaskOk(r.id, r.log, t) && r.viewNum == 0
    ensures DigestSound(OnDone(c, Answer(r, t), t))
  {
    hide InsertPrepare, InsertCommit, CommitsAgree;
    var r0, v := Answer(r, t), SignedVote(t.unsigned, r.id);
    var r1 := Broadcast(r0, VoteMsg(t.round, v));
    AnswerKeepsDigests(r, t);
    assert Accepts(r.log, v.inner.opNum, v.inner.digest);
    forall round, w | VoteMsg(round, w) in r1.out.sent ensures Accepts(r1.log, w.inner.opNum, w.inner.digest) {
      assert w == v || VoteMsg(round, w) in r.out.sent;
    }
    if t.round.Preparing? { InsertPrepareDigests(c, r1, v); } else { InsertCommitDigests(c, r1, v); }
  }

  lemma VerifiedVoteDigests(c: Config, r: Replica, round: Round, v: SignedVote)
    requires DigestSound(r) && v.inner.viewNum == r.viewNum
    requires round.Preparing? && Finishes(c, r, v) ==> SlotTaken(r.log, v.inner.opNum)
    ensures
      DigestSound(OnVerifiedVote(c, r, round, v)) <==>
      ((round.Preparing? ==> Finishes(c, r, v)) && SlotTaken(r.log, v.inner.opNum) ==>
         Accepts(r.log, v.inner.opNum, v.inner.digest))
  {
    hide InsertPrepare, InsertCommit, DigestSound;
    var r1 := InsertVote(c, r, round, v);
    if round.Preparing? { InsertPrepareDigests(c, r, v); } else { InsertCommitDigests(c, r, v); }
    DrainDigests(r1, round, v.inner.opNum);
  }

  lemma DrainDigests(r: Replica, round: Round, k: nat)
    ensures DigestSound(Drain(r, round, k)) <==> DigestSound(r)
  {
    hide CommitsAgree;
    DrainTasks(r, round, k);
    var r' := Drain(r, round, k);
    assert forall v :: SignVote(Committing, v) in r'.out.tasks <==> SignVote(Committing, v) in r.out.tasks by {
      forall v ensures SignVote(Committing, v) in r'.out.tasks <==> SignVote(Committing, v) in r.out.tasks {
        assert r'.out.tasks[SignVote(Committing, v)] == r.out.tasks[SignVote(Committing, v)];
      }
    }
  }
}
