/** Where the commits and the batches a replica holds come from: each one was received,
    or is its own. */
module PbftOrigins {
  import opened PbftTypes
  import opened PbftSpec
  import opened PbftLocal
  import opened PbftTokens
  import opened PbftProposals
  import opened PbftStep
  import opened PbftGuards
  import opened PbftSystem

  /** Every commit vote a replica holds, in whatever stage, lies in K. */
  ghost predicate CommitsIn(r: Replica, K: iset<SignedVote>) {
    && (forall v :: VerifyVote(Committing, v) in r.out.tasks ==> v in K)
    && (forall k <- r.commits.pending, j: nat | j < |r.commits.pending[k]| :: r.commits.pending[k][j] in K)
    && (forall k <- r.commits.quorums :: VotesIn(r.commits.quorums[k], K))
    && (forall k: nat | k < |r.log| :: VotesIn(r.log[k].commits, K))
  }

  ghost predicate VotesIn(votes: Table, K: iset<SignedVote>) {
    forall i <- votes :: votes[i] in K
  }

  lemma CommitsInStep(c: Config, r: Replica, e: Event, K: iset<SignedVote>)
    requires CommitsIn(r, K) && Enabled(c, r, e)
    requires forall v :: e == Recv(VoteMsg(Committing, v)) ==> v in K
    requires forall v :: VoteMsg(Committing, v) in Handle(c, r, e).out.sent ==> v in K
    ensures CommitsIn(Handle(c, r, e), K)
  {
    hide CommitsIn, OnRequest, OnRecvPrePrepare, OnSignedPrePrepare, OnVerifiedPrePrepare, InsertVote, OnRecvVote;
    match e
    case Recv(RequestMsg(q)) => RequestCommitsIn(c, r, q, K);
    case Recv(PrePrepareMsg(p, batch)) => RecvPrePrepareCommitsIn(r, p, batch, K);
    case Recv(VoteMsg(round, v)) => RecvVoteCommitsIn(r, round, v, K);
    case Done(t) =>
      AnswerCommitsIn(r, t, K);
      match t {
        case SignPrePrepare(w, k, batch) =>
          PrePrepareCommitsIn(Answer(r, t), SignedPrePrepare(PrePrepare(w, k, Sha256(batch)), r.id), batch, K);
        case VerifyPrePrepare(p, batch) => PrePrepareCommitsIn(Answer(r, t), p, batch, K);
        case SignVote(round, v) => SignedVoteCommitsIn(c, Answer(r, t), round, SignedVote(v, r.id), K);
        case VerifyVote(round, v) =>
          assert round.Committing? ==> v in K by { TaskCommitsIn(r, t, K); }
          InsertCommitsIn(c, Answer(r, t), round, v, K);
          DrainCommitsIn(InsertVote(c, Answer(r, t), round, v), round, v.inner.opNum, K);
      }
  }

  lemma TaskCommitsIn(r: Replica, t: Task, K: iset<SignedVote>)
    requires CommitsIn(r, K) && t in r.out.tasks
    ensures t.VerifyVote? && t.round.Committing? ==> t.vote in K
  {
  }

  lemma AnswerCommitsIn(r: Replica, t: Task, K: iset<SignedVote>)
    requires CommitsIn(r, K)
    ensures CommitsIn(Answer(r, t), K)
  {
  }

  lemma RequestCommitsIn(c: Config, r: Replica, q: Request, K: iset<SignedVote>)
    requires CommitsIn(r, K)
    ensures CommitsIn(OnRequest(c, r, q), K)
  {
    hide Fresh, VotesIn;
    var r' := OnRequest(c, r, q);
    forall v | VerifyVote(Committing, v) in r'.out.tasks ensures VerifyVote(Committing, v) in r.out.tasks {}
  }

  lemma RecvPrePrepareCommitsIn(r: Replica, p: SignedPrePrepare, batch: seq<Request>, K: iset<SignedVote>)
    requires CommitsIn(r, K)
    ensures CommitsIn(OnRecvPrePrepare(r, p, batch), K)
  {
    hide VotesIn;
  }

  lemma PrePrepareCommitsIn(r: Replica, p: SignedPrePrepare, batch: seq<Request>, K: iset<SignedVote>)
    requires CommitsIn(r, K)
    ensures CommitsIn(OnSignedPrePrepare(r, p, batch), K)
    ensures CommitsIn(OnVerifiedPrePrepare(r, p, batch), K)
  {
  }

  lemma SubmitVoteCommitsIn(r: Replica, round: Round, v: SignedVote, K: iset<SignedVote>)
    requires CommitsIn(r, K) && (round.Committing? ==> v in K)
    ensures CommitsIn(SubmitVote(r, round, v), K)
  {
    hide VotesIn, Wanted;
  }

  lemma QueueCommitsIn(r: Replica, round: Round, k: nat, queue: seq<SignedVote>, K: iset<SignedVote>)
    requires CommitsIn(r, K) && (round.Committing? ==> forall j: nat | j < |queue| :: queue[j] in K)
    ensures CommitsIn(SetQueue(r, round, k, queue), K) && CommitsIn(DropQueue(r, round, k), K)
  {
    hide VotesIn;
  }

  lemma WaitingCommitsIn(r: Replica, k: nat, K: iset<SignedVote>)
    requires CommitsIn(r, K) && k in r.commits.pending
    ensures forall j: nat | j < |r.commits.pending[k]| :: r.commits.pending[k][j] in K
  {
  }

  lemma RecvVoteCommitsIn(r: Replica, round: Round, v: SignedVote, K: iset<SignedVote>)
    requires CommitsIn(r, K) && (round.Committing? ==> v in K)
    ensures CommitsIn(OnRecvVote(r, round, v), K)
  {
    hide CommitsIn, Wanted;
    var k := v.inner.opNum;
    SubmitVoteCommitsIn(r, round, v, K);
    QueueCommitsIn(SubmitVote(r, round, v), round, k, [], K);
    if k in r.Ballots(round).pending {
      if round.Committing? { WaitingCommitsIn(r, k, K); }
      QueueCommitsIn(r, round, k, r.Ballots(round).pending[k] + [v], K);
    }
  }

  lemma DrainCommitsIn(r: Replica, round: Round, k: nat, K: iset<SignedVote>)
    requires CommitsIn(r, K)
    ensures CommitsIn(Drain(r, round, k), K)
    decreases if k in r.Ballots(round).pending then 1 + |r.Ballots(round).pending[k]| else 0
  {
    hide CommitsIn, Wanted, SubmitVote;
    var pending := r.Ballots(round).pending;
    if k in pending {
      if round.Committing? { WaitingCommitsIn(r, k, K); }
      if pending[k] == [] {
        QueueCommitsIn(r, round, k, [], K);
      } else {
        var last := |pending[k]| - 1;
        var r0 := SetQueue(r, round, k, pending[k][..last]);
        QueueCommitsIn(r, round, k, pending[k][..last], K);
        SubmitVoteCommitsIn(r0, round, pending[k][last], K);
        DrainAfter(r, round, k);
        DrainCommitsIn(r0, round, k, K);
      }
    }
  }

  lemma InsertCommitsIn(c: Config, r: Replica, round: Round, v: SignedVote, K: iset<SignedVote>)
    requires CommitsIn(r, K) && (round.Committing? ==> v in K)
    ensures CommitsIn(InsertVote(c, r, round, v), K)
  {
    if round.Preparing? { InsertPrepareCommitsIn(c, r, v, K); } else { InsertCommitCommitsIn(c, r, v, K); }
  }

  lemma InsertPrepareCommitsIn(c: Config, r: Replica, v: SignedVote, K: iset<SignedVote>)
    requires CommitsIn(r, K)
    ensures CommitsIn(InsertPrepare(c, r, v), K)
  {
    hide VotesIn;
  }

  lemma InsertCommitCommitsIn(c: Config, r: Replica, v: SignedVote, K: iset<SignedVote>)
    requires CommitsIn(r, K) && v in K
    ensures CommitsIn(InsertCommit(c, r, v), K)
  {
    hide InsertCommit, VotesIn;
    var r' := InsertCommit(c, r, v);
    InsertCommitLog(c, r, v);
    InsertCommitTasks(c, r, v);
    assert VotesIn(Counted(r, Committing, v), K) by { CountedIn(r, v, K); }
    assert r'.commits.pending == r.commits.pending by { InsertCommitQueues(c, r, v); }
    forall w | VerifyVote(Committing, w) in r'.out.tasks ensures w in K {
      assert r'.out.tasks[VerifyVote(Committing, w)] == r.out.tasks[VerifyVote(Committing, w)];
    }
  }

  lemma InsertCommitQueues(c: Config, r: Replica, v: SignedVote)
    ensures InsertCommit(c, r, v).commits.pending == r.commits.pending
  {
  }

  lemma CountedIn(r: Replica, v: SignedVote, K: iset<SignedVote>)
    requires CommitsIn(r, K) && v in K
    ensures VotesIn(Counted(r, Committing, v), K)
  {
    var k := v.inner.opNum;
    assert k in r.commits.quorums ==> VotesIn(r.commits.quorums[k], K);
  }

  lemma SignedVoteCommitsIn(c: Config, r: Replica, round: Round, v: SignedVote, K: iset<SignedVote>)
    requires CommitsIn(r, K)
    requires forall w :: VoteMsg(Committing, w) in OnSignedVote(c, r, round, v).out.sent ==> w in K
    ensures CommitsIn(OnSignedVote(c, r, round, v), K)
  {
    hide CommitsIn, InsertVote;
    var r1 := Broadcast(r, VoteMsg(round, v));
    BroadcastCommitsIn(r, VoteMsg(round, v), K);
    StopCommitsIn(r1, AssertionFailed, K);
    if v.inner.viewNum == r.viewNum && v.inner.opNum < |r.log| && r.log[v.inner.opNum].Votes(round) == map[] {
      InsertSendsNothing(c, r1, round, v);
      assert VoteMsg(round, v) in OnSignedVote(c, r, round, v).out.sent;
      InsertCommitsIn(c, r1, round, v, K);
    }
  }

  lemma BroadcastCommitsIn(r: Replica, m: Message, K: iset<SignedVote>)
    requires CommitsIn(r, K)
    ensures CommitsIn(Broadcast(r, m), K)
  {
    hide VotesIn;
  }

  lemma StopCommitsIn(r: Replica, why: Status, K: iset<SignedVote>)
    requires CommitsIn(r, K)
    ensures CommitsIn(Stop(r, why), K)
  {
    hide VotesIn;
  }

  lemma CommitsInMore(r: Replica, K: iset<SignedVote>, K': iset<SignedVote>)
    requires CommitsIn(r, K) && K <= K'
    ensures CommitsIn(r, K')
  {
  }

  // The same for pre-prepares with the batches they came with

  type Carriers = iset<(SignedPrePrepare, seq<Request>)>

  ghost predicate PrePreparesIn(r: Replica, K: Carriers) {
    && (forall p, batch :: VerifyPrePrepare(p, batch) in r.out.tasks ==> (p, batch) in K)
    && (forall k: nat | SlotTaken(r.log, k) :: (r.log[k].prePrepare.value, r.log[k].requests) in K)
  }

  /** A handler that takes up no pre-prepare. */
  ghost predicate TakesNone(r: Replica, r': Replica) {
    && (forall p, batch :: VerifyPrePrepare(p, batch) in r'.out.tasks ==> VerifyPrePrepare(p, batch) in r.out.tasks)
    && SameSlots(r.log, r'.log)
  }

  lemma TakesNoneKeeps(r: Replica, r': Replica, K: Carriers)
    requires PrePreparesIn(r, K) && TakesNone(r, r')
    ensures PrePreparesIn(r', K)
  {
    forall k: nat | SlotTaken(r'.log, k) ensures (r'.log[k].prePrepare.value, r'.log[k].requests) in K {
      assert SlotTaken(r.log, k);
    }
  }

  lemma InsertTakesNone(c: Config, r: Replica, round: Round, v: SignedVote)
    ensures TakesNone(r, InsertVote(c, r, round, v))
  {
    if round.Preparing? {
      InsertPrepareTakesNone(c, r, v);
    } else {
      InsertCommitTakesNone(c, r, v);
    }
  }

  lemma InsertPrepareTakesNone(c: Config, r: Replica, v: SignedVote)
    ensures TakesNone(r, InsertPrepare(c, r, v))
  {
    hide Counted;
    InsertPrepareLog(c, r, v);
  }

  lemma InsertCommitTakesNone(c: Config, r: Replica, v: SignedVote)
    ensures TakesNone(r, InsertCommit(c, r, v))
  {
    hide InsertCommit, Counted;
    InsertCommitLog(c, r, v);
    InsertCommitTasks(c, r, v);
    SameTasks(r.out.tasks, InsertCommit(c, r, v).out.tasks);
  }

  lemma SameTasks(tasks: multiset<Task>, tasks': multiset<Task>)
    requires forall t: Task | t.VerifyPrePrepare? :: tasks'[t] == tasks[t]
    ensures forall p, batch :: VerifyPrePrepare(p, batch) in tasks' ==> VerifyPrePrepare(p, batch) in tasks
  {
    forall p, batch | VerifyPrePrepare(p, batch) in tasks' ensures VerifyPrePrepare(p, batch) in tasks {
      assert tasks'[VerifyPrePrepare(p, batch)] == tasks[VerifyPrePrepare(p, batch)];
    }
  }

  lemma DrainTakesNone(r: Replica, round: Round, k: nat)
    ensures TakesNone(r, Drain(r, round, k))
  {
    DrainTasks(r, round, k);
    SameTasks(r.out.tasks, Drain(r, round, k).out.tasks);
  }

  lemma RecvVoteTakesNone(r: Replica, round: Round, v: SignedVote)
    ensures TakesNone(r, OnRecvVote(r, round, v))
  {
    hide Wanted;
  }

  lemma RequestTakesNone(c: Config, r: Replica, q: Request)
    ensures TakesNone(r, OnRequest(c, r, q))
  {
    hide Fresh;
  }

  lemma PrePrepareTaken(r: Replica, p: SignedPrePrepare, batch: seq<Request>, K: Carriers)
    requires PrePreparesIn(r, K) && (p, batch) in K
    ensures PrePreparesIn(OnRecvPrePrepare(r, p, batch), K)
    ensures PrePreparesIn(OnVerifiedPrePrepare(r, p, batch), K)
  {
    hide Retain;
    var log := OnVerifiedPrePrepare(r, p, batch).log;
    forall k: nat | SlotTaken(log, k) ensures (log[k].prePrepare.value, log[k].requests) in K {
      if k != p.inner.opNum { assert SlotTaken(r.log, k); }
      assert SlotTaken(r.log, k) ==> (r.log[k].prePrepare.value, r.log[k].requests) in K;
    }
  }

  lemma OwnPrePrepareTaken(r: Replica, p: SignedPrePrepare, batch: seq<Request>, K: Carriers)
    requires PrePreparesIn(r, K) && (p.inner.viewNum == r.viewNum && !SlotTaken(r.log, p.inner.opNum) ==> (p, batch) in K)
    requires !SlotTaken(r.log, p.inner.opNum)
    ensures PrePreparesIn(OnSignedPrePrepare(r, p, batch), K)
  {
    var log := OnSignedPrePrepare(r, p, batch).log;
    forall k: nat | SlotTaken(log, k) ensures (log[k].prePrepare.value, log[k].requests) in K {
      if k != p.inner.opNum { assert SlotTaken(r.log, k); }
    }
  }

  lemma AnswerTakesNone(r: Replica, t: Task)
    ensures TakesNone(r, Answer(r, t))
  {
  }

  lemma PrePreparesInStep(c: Config, r: Replica, e: Event, K: Carriers)
    requires PrePreparesIn(r, K) && Local(c, r) && Enabled(c, r, e)
    requires forall p, batch :: e == Recv(PrePrepareMsg(p, batch)) ==> (p, batch) in K
    requires forall p, batch :: PrePrepareMsg(p, batch) in Handle(c, r, e).out.sent ==> (p, batch) in K
    ensures PrePreparesIn(Handle(c, r, e), K)
  {
    hide PrePreparesIn, OnRequest, OnRecvPrePrepare, OnVerifiedPrePrepare, InsertVote, OnRecvVote, TakesNone,
         LogOk, BallotsOk, TokenInvariant, SentInLog, LogSent, TasksOk, NoOwnToVerify;
    match e
    case Recv(RequestMsg(q)) => RequestTakesNone(c, r, q); TakesNoneKeeps(r, OnRequest(c, r, q), K);
    case Recv(PrePrepareMsg(p, batch)) => PrePrepareTaken(r, p, batch, K);
    case Recv(VoteMsg(round, v)) => RecvVoteTakesNone(r, round, v); TakesNoneKeeps(r, OnRecvVote(r, round, v), K);
    case Done(t) =>
      AnswerTakesNone(r, t);
      TakesNoneKeeps(r, Answer(r, t), K);
      TaskAt(r, t);
      match t {
        case SignPrePrepare(w, k, batch) =>
          assert !SlotTaken(r.log, k);
          var p := SignedPrePrepare(PrePrepare(w, k, Sha256(batch)), r.id);
          assert PrePrepareMsg(p, batch) in Handle(c, r, e).out.sent;
          OwnPrePrepareTaken(Answer(r, t), p, batch, K);
        case VerifyPrePrepare(p, batch) =>
          assert (p, batch) in K by { TaskPrePrepareIn(r, p, batch, K); }
          PrePrepareTaken(Answer(r, t), p, batch, K);
        case SignVote(round, v) =>
          SignedVoteTakesNone(c, Answer(r, t), round, SignedVote(v, r.id));
          TakesNoneKeeps(Answer(r, t), OnSignedVote(c, Answer(r, t), round, SignedVote(v, r.id)), K);
        case VerifyVote(round, v) =>
          var r1 := InsertVote(c, Answer(r, t), round, v);
          InsertTakesNone(c, Answer(r, t), round, v);
          TakesNoneKeeps(Answer(r, t), r1, K);
          DrainTakesNone(r1, round, v.inner.opNum);
          TakesNoneKeeps(r1, Drain(r1, round, v.inner.opNum), K);
      }
  }

  lemma TaskPrePrepareIn(r: Replica, p: SignedPrePrepare, batch: seq<Request>, K: Carriers)
    requires PrePreparesIn(r, K) && VerifyPrePrepare(p, batch) in r.out.tasks
    ensures (p, batch) in K
  {
  }

  lemma SignedVoteTakesNone(c: Config, r: Replica, round: Round, v: SignedVote)
    ensures TakesNone(r, OnSignedVote(c, r, round, v))
  {
    hide InsertVote;
    InsertTakesNone(c, Broadcast(r, VoteMsg(round, v)), round, v);
  }
}
