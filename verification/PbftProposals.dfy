/** What the primary proposes: one pre-prepare per slot.  With the token invariant this
    shows that no assertion of a correct replica can fail. */
module PbftProposals {
  import opened Wrappers
  import opened PbftTypes
  import opened PbftSpec
  import opened PbftLocal
  import opened PbftTokens

  ghost predicate InLog(log: seq<LogEntry>, p: SignedPrePrepare, batch: seq<Request>) {
    var k := p.inner.opNum;
    k < |log| && log[k].prePrepare == Some(p) && log[k].requests == batch
  }

  ghost predicate SlotTaken(log: seq<LogEntry>, k: nat) {
    k < |log| && log[k].prePrepare.Some?
  }

  ghost predicate SentInLog(r: Replica) {
    forall p, batch :: PrePrepareMsg(p, batch) in r.out.sent ==> InLog(r.log, p, batch)
  }

  ghost predicate LogSent(r: Replica) {
    forall k: nat | SlotTaken(r.log, k) ::
      1 <= k <= r.opNum && PrePrepareMsg(r.log[k].prePrepare.value, r.log[k].requests) in r.out.sent
  }

  ghost predicate UnsignedOk(tasks: multiset<Task>, log: seq<LogEntry>, opNum: nat) {
    && (forall t <- tasks | t.SignPrePrepare? :: 1 <= t.opNum <= opNum && tasks[t] == 1 && !SlotTaken(log, t.opNum))
    && (forall t, u | t in tasks && u in tasks && t.SignPrePrepare? && u.SignPrePrepare? && t.opNum == u.opNum :: t == u)
  }

  /** The primary never has to verify a pre-prepare of its own. */
  ghost predicate NoOwnToVerify(tasks: multiset<Task>) {
    forall p, batch :: VerifyPrePrepare(p, batch) in tasks ==> p.signer != 0
  }

  ghost predicate SilentOnPrePrepares(sent: set<Message>) {
    forall p, batch :: PrePrepareMsg(p, batch) !in sent
  }

  ghost predicate Proposals(r: Replica) {
    if r.id == 0 then
      SentInLog(r) && LogSent(r) && UnsignedOk(r.out.tasks, r.log, r.opNum) && NoOwnToVerify(r.out.tasks)
    else
      SilentOnPrePrepares(r.out.sent)
  }

  /** With a quorum of three or more no assertion has failed; with two, one might have. */
  predicate NoFailure(c: Config, status: Status) {
    status != AssertionFailed && (status == PreparedTwice ==> c.Quorum() <= 2)
  }

  ghost predicate Local(c: Config, r: Replica) {
    && Shaped(c, r)
    && NoFailure(c, r.status)
    && (r.status == Running ==> TokenInvariant(r))
    && Proposals(r)
  }

  /** A pre-prepare that carries the replica's own signature is one it has sent. */
  ghost predicate Unforged(r: Replica, e: Event) {
    e.Recv? && e.message.PrePrepareMsg? && e.message.prePrepare.signer == r.id ==>
      exists batch :: PrePrepareMsg(e.message.prePrepare, batch) in r.out.sent
  }

  // Proposals, handler by handler

  /** A handler that neither proposes nor accepts a proposal. */
  ghost predicate ProposesNothing(r: Replica, r': Replica) {
    && r'.id == r.id && r'.opNum == r.opNum
    && (forall p, batch :: PrePrepareMsg(p, batch) in r'.out.sent <==> PrePrepareMsg(p, batch) in r.out.sent)
    && (forall t: Task | t.SignPrePrepare? || t.VerifyPrePrepare? :: r'.out.tasks[t] == r.out.tasks[t])
    && |r.log| <= |r'.log|
    && (forall k: nat | k < |r.log| ::
          r'.log[k].prePrepare == r.log[k].prePrepare && r'.log[k].requests == r.log[k].requests)
    && (forall k: nat | |r.log| <= k < |r'.log| :: r'.log[k].prePrepare.None?)
  }

  lemma ProposalsKept(r: Replica, r': Replica)
    requires Proposals(r) && ProposesNothing(r, r')
    ensures Proposals(r')
  {
    if r.id == 0 {
      ProposalPartsKept(r, r');
    }
  }

  lemma ProposalPartsKept(r: Replica, r': Replica)
    requires SentInLog(r) && LogSent(r) && UnsignedOk(r.out.tasks, r.log, r.opNum) && NoOwnToVerify(r.out.tasks)
    requires ProposesNothing(r, r')
    ensures SentInLog(r') && LogSent(r') && UnsignedOk(r'.out.tasks, r'.log, r'.opNum) && NoOwnToVerify(r'.out.tasks)
  {
    forall k: nat | SlotTaken(r'.log, k)
      ensures 1 <= k <= r'.opNum && PrePrepareMsg(r'.log[k].prePrepare.value, r'.log[k].requests) in r'.out.sent
    {
      assert SlotTaken(r.log, k);
    }
    forall p, batch | VerifyPrePrepare(p, batch) in r'.out.tasks ensures p.signer != 0 {
      assert VerifyPrePrepare(p, batch) in r.out.tasks;
    }
  }

  lemma CloseBatchProposes(c: Config, r: Replica)
    requires Proposals(r) && r.id == 0 && IsPrimary(c, r) && r.requests != []
    ensures Proposals(CloseBatch(c, r))
  {
    var r' := CloseBatch(c, r);
    forall t <- r'.out.tasks ensures t in r.out.tasks || t == SignPrePrepare(r.viewNum, r'.opNum, t.requests) {}
    assert !SlotTaken(r.log, r'.opNum);
    forall t <- r.out.tasks | t.SignPrePrepare? ensures t.opNum < r'.opNum {}
  }

  lemma CloseBatchesPropose(c: Config, r: Replica)
    requires Proposals(r) && (IsPrimary(c, r) ==> r.id == 0)
    ensures Proposals(CloseBatches(c, r))
    decreases |r.requests|
  {
    hide Proposals;
    if IsPrimary(c, r) && r.requests != [] && r.opNum <= r.commitNum + CONCURRENT_PRE_PREPARES {
      CloseBatchProposes(c, r);
      CloseBatchesPropose(c, CloseBatch(c, r));
    }
  }

  lemma InsertVoteProposes(c: Config, r: Replica, round: Round, v: SignedVote)
    requires Proposals(r) && (IsPrimary(c, r) ==> r.id == 0)
    ensures Proposals(InsertVote(c, r, round, v))
  {
    hide Proposals;
    if round.Preparing? {
      ProposalsKept(r, InsertPrepare(c, r, v));
    } else {
      InsertCommitProposes(c, r, v);
    }
  }

  lemma InsertCommitProposes(c: Config, r: Replica, v: SignedVote)
    requires Proposals(r) && (IsPrimary(c, r) ==> r.id == 0)
    ensures Proposals(InsertCommit(c, r, v))
  {
    hide Proposals;
    var k, votes := v.inner.opNum, Counted(r, Committing, v);
    if |votes| >= c.Quorum() && k < |r.log| && r.log[k].commits == map[] && r.log[k].prepares != map[] {
      var r1 := DropTable(r, Committing, k).(log := r.log[k := r.log[k].(commits := votes)]);
      ProposalsKept(r, ExecuteCommitted(c, r1));
      CloseBatchesPropose(c, ExecuteCommitted(c, r1));
    } else {
      ProposalsKept(r, InsertCommit(c, r, v));
    }
  }

  lemma DrainProposes(r: Replica, round: Round, k: nat)
    requires Proposals(r)
    ensures Proposals(Drain(r, round, k))
  {
    hide Proposals;
    DrainTasks(r, round, k);
    ProposalsKept(r, Drain(r, round, k));
  }

  lemma RecvProposes(c: Config, r: Replica, m: Message)
    requires Proposals(r) && (IsPrimary(c, r) ==> r.id == 0) && Unforged(r, Recv(m))
    ensures Proposals(OnRecv(c, r, m))
  {
    match m
    case RequestMsg(q) => RecvRequestProposes(c, r, q);
    case PrePrepareMsg(p, batch) => RecvPrePrepareProposes(r, p, batch);
    case VoteMsg(round, v) => RecvVoteProposes(r, round, v);
  }

  lemma RecvVoteProposes(r: Replica, round: Round, v: SignedVote)
    requires Proposals(r)
    ensures Proposals(OnRecvVote(r, round, v))
  {
    hide Proposals, Wanted;
    ProposalsKept(r, OnRecvVote(r, round, v));
  }

  lemma RecvRequestProposes(c: Config, r: Replica, q: Request)
    requires Proposals(r) && (IsPrimary(c, r) ==> r.id == 0)
    ensures Proposals(OnRequest(c, r, q))
  {
    hide Proposals, Fresh;
    if Fresh(r.service.replies, q) && IsPrimary(c, r) {
      var noted := r.service.(replies := r.service.replies[q.clientId := CachedReply(q.seqNum, None)]);
      var queued := r.(service := noted, requests := r.requests + [q]);
      ProposalsKept(r, queued);
      CloseBatchProposes(c, queued);
    } else {
      ProposalsKept(r, OnRequest(c, r, q));
    }
  }

  lemma RecvPrePrepareProposes(r: Replica, p: SignedPrePrepare, batch: seq<Request>)
    requires Proposals(r) && Unforged(r, Recv(PrePrepareMsg(p, batch)))
    ensures Proposals(OnRecvPrePrepare(r, p, batch))
  {
    if r.id == 0 && p.signer == 0 {
      var b :| PrePrepareMsg(p, b) in r.out.sent;
      assert InLog(r.log, p, b);
    }
  }

  lemma SignedPrePrepareProposes(r: Replica, r0: Replica, batch: seq<Request>, t: Task, p: SignedPrePrepare)
    requires Proposals(r) && r.id == 0 && t in r.out.tasks && t == SignPrePrepare(r.viewNum, p.inner.opNum, batch)
    requires p == SignedPrePrepare(PrePrepare(r.viewNum, p.inner.opNum, Sha256(batch)), 0)
    requires r0 == Answer(r, t)
    ensures Proposals(OnSignedPrePrepare(r0, p, batch))
    ensures OnSignedPrePrepare(r0, p, batch).status == r.status
  {
    var r', k := OnSignedPrePrepare(r0, p, batch), p.inner.opNum;
    assert !SlotTaken(r.log, k);
    assert InLog(r'.log, p, batch);
    forall j: nat | SlotTaken(r'.log, j) && j != k ensures SlotTaken(r.log, j) {}
    forall u <- r'.out.tasks ensures u in r.out.tasks && u != t {}
  }

  lemma VerifiedPrePrepareProposes(r: Replica, p: SignedPrePrepare, batch: seq<Request>)
    requires Proposals(r) && r.id != 0
    ensures Proposals(OnVerifiedPrePrepare(r, p, batch))
  {
    hide Retain;
  }

  lemma AnswerProposes(r: Replica, t: Task)
    requires Proposals(r) && !t.SignPrePrepare?
    ensures Proposals(Answer(r, t))
  {
    forall u <- Answer(r, t).out.tasks ensures u in r.out.tasks {}
  }
}
