/** Every event keeps the local invariant, hence no event makes an assertion fail. */
module PbftStep {
  import opened PbftTypes
  import opened PbftSpec
  import opened PbftLocal
  import opened PbftTokens
  import opened PbftProposals

  lemma BothRounds(r: Replica, r': Replica)
    requires TokenInvariant(r) && Harmless(r, r', Preparing) && Harmless(r, r', Committing)
    ensures TokenInvariant(r')
  {
    hide RoundOk, Harmless;
    HarmlessKeepsRound(r, r', Preparing);
    HarmlessKeepsRound(r, r', Committing);
  }

  lemma RecvRequestLocal(c: Config, r: Replica, q: Request)
    requires TokenInvariant(r) && r.status == Running
    ensures OnRequest(c, r, q).status in {Running, Unimplemented} && TokenInvariant(OnRequest(c, r, q))
  {
    hide TokenInvariant, Fresh;
    BothRounds(r, OnRequest(c, r, q));
  }

  lemma RecvPrePrepareLocal(r: Replica, p: SignedPrePrepare, batch: seq<Request>)
    requires TokenInvariant(r) && r.status == Running
    ensures OnRecvPrePrepare(r, p, batch).status in {Running, Unimplemented} && TokenInvariant(OnRecvPrePrepare(r, p, batch))
  {
    hide TokenInvariant;
    BothRounds(r, OnRecvPrePrepare(r, p, batch));
  }

  lemma SignedPrePrepareLocal(r: Replica, p: SignedPrePrepare, batch: seq<Request>)
    requires TokenInvariant(r)
    ensures TokenInvariant(OnSignedPrePrepare(r, p, batch))
  {
    hide TokenInvariant;
    BothRounds(r, OnSignedPrePrepare(r, p, batch));
  }

  lemma VerifiedPrePrepareLocal(r: Replica, p: SignedPrePrepare, batch: seq<Request>)
    requires TokenInvariant(r) && r.status == Running
    ensures OnVerifiedPrePrepare(r, p, batch).status == Running && TokenInvariant(OnVerifiedPrePrepare(r, p, batch))
  {
    hide TokenInvariant, Retain, TableOf;
    forall j: nat
      ensures |TableOf(Retain(r.prepares.quorums, p.inner.opNum, p.inner.digest), j)| <= |TableOf(r.prepares.quorums, j)|
      ensures |TableOf(Retain(r.commits.quorums, p.inner.opNum, p.inner.digest), j)| <= |TableOf(r.commits.quorums, j)|
    {
      RetainedVotes(r.prepares.quorums, p.inner.opNum, p.inner.digest, j);
      RetainedVotes(r.commits.quorums, p.inner.opNum, p.inner.digest, j);
    }
    BothRounds(r, OnVerifiedPrePrepare(r, p, batch));
  }

  function Other(round: Round): Round {
    if round.Preparing? then Committing else Preparing
  }

  lemma RecvVoteLocal(r: Replica, round: Round, v: SignedVote)
    requires TokenInvariant(r) && r.status == Running
    ensures OnRecvVote(r, round, v).status in {Running, Unimplemented} && TokenInvariant(OnRecvVote(r, round, v))
  {
    hide RoundOk, Harmless, Wanted;
    RecvVoteKeepsRound(r, round, v);
    RecvVoteHarmlessToOther(r, round, Other(round), v);
    HarmlessKeepsRound(r, OnRecvVote(r, round, v), Other(round));
  }

  lemma SignedVoteLocal(c: Config, r: Replica, round: Round, v: SignedVote)
    requires TokenInvariant(r) && r.status == Running && v.inner.opNum < |r.log|
    ensures OnSignedVote(c, r, round, v).status == Running && TokenInvariant(OnSignedVote(c, r, round, v))
  {
    hide TokenInvariant, Harmless, InsertVote;
    var r1 := Broadcast(r, VoteMsg(round, v));
    assert TokenInvariant(r1) by { BroadcastKeepsTokens(r, VoteMsg(round, v)); }
    if v.inner.viewNum == r.viewNum && r.log[v.inner.opNum].Votes(round) == map[] {
      InsertHarmlessToOpen(c, r1, round, v);
      InsertHarmlessToOther(c, r1, round, Other(round), v);
      BothRounds(r1, InsertVote(c, r1, round, v));
    }
  }

  lemma BroadcastKeepsTokens(r: Replica, m: Message)
    requires TokenInvariant(r)
    ensures TokenInvariant(Broadcast(r, m))
  {
    BothRounds(r, Broadcast(r, m));
  }

  lemma AnswerKeepsTokens(r: Replica, t: Task)
    requires TokenInvariant(r) && !t.VerifyVote?
    ensures TokenInvariant(Answer(r, t))
  {
    BothRounds(r, Answer(r, t));
  }

  lemma VerifiedVoteLocal(c: Config, r: Replica, round: Round, v: SignedVote)
    requires TokenInvariant(r) && r.status == Running && VerifyVote(round, v) in r.out.tasks
    requires v.inner.viewNum == r.viewNum && c.Quorum() >= 2
    requires BallotsOk(c, InsertVote(c, Answer(r, VerifyVote(round, v)), round, v).Ballots(round))
    ensures
      var r' := OnVerifiedVote(c, Answer(r, VerifyVote(round, v)), round, v);
      NoFailure(c, r'.status) && (r'.status == Running ==> TokenInvariant(r'))
  {
    hide Harmless, BallotsOk, InsertVote, TokensBut, NoneUnanswered;
    var r0, k := Answer(r, VerifyVote(round, v)), v.inner.opNum;
    TokenAnswered(r.out.tasks, r.Ballots(round), round, v);
    var r1 := InsertVote(c, r0, round, v);
    InsertKeepsOwing(c, r0, round, v);
    VerifiedVoteKeepsRound(c, r0, round, v);
    AnswerHarmlessToOther(r, round, Other(round), v);
    HarmlessKeepsRound(r, r0, Other(round));
    InsertHarmlessToOther(c, r0, round, Other(round), v);
    HarmlessKeepsRound(r0, r1, Other(round));
    DrainHarmlessToOther(r1, round, Other(round), k);
    HarmlessKeepsRound(r1, Drain(r1, round, k), Other(round));
  }

  lemma AnswerHarmlessToOther(r: Replica, round: Round, other: Round, v: SignedVote)
    requires round != other
    ensures Harmless(r, Answer(r, VerifyVote(round, v)), other)
  {
  }

  // All handlers together

  lemma RecvStep(c: Config, r: Replica, m: Message)
    requires Local(c, r) && r.status == Running && Unforged(r, Recv(m)) && c.numReplica > 0
    ensures Local(c, OnRecv(c, r, m))
  {
    hide Shaped, TokenInvariant, Proposals;
    PrimaryIsZero(c, r);
    RecvKeepsShape(c, r, m);
    RecvProposes(c, r, m);
    match m
    case RequestMsg(q) => RecvRequestLocal(c, r, q);
    case PrePrepareMsg(p, batch) => RecvPrePrepareLocal(r, p, batch);
    case VoteMsg(round, v) => RecvVoteLocal(r, round, v);
  }

  lemma PrimaryIsZero(c: Config, r: Replica)
    requires Shaped(c, r)
    ensures IsPrimary(c, r) <==> r.id == 0
  {
    hide LogOk, BallotsOk, TasksOk;
    assert r.id % c.numReplica == r.id;
  }

  lemma SignPrePrepareStep(c: Config, r: Replica, t: Task)
    requires Local(c, r) && Enabled(c, r, Done(t)) && t.SignPrePrepare?
    ensures Local(c, Handle(c, r, Done(t)))
  {
    hide LogOk, BallotsOk, TasksOk, TokenInvariant, SentInLog, LogSent, NoOwnToVerify;
    TaskAt(r, t);
    assert !SlotTaken(r.log, t.opNum);
    ShapedStep(c, r, Done(t));
    AnswerKeepsTokens(r, t);
    var p := SignedPrePrepare(PrePrepare(t.viewNum, t.opNum, Sha256(t.requests)), r.id);
    SignedPrePrepareLocal(Answer(r, t), p, t.requests);
    SignedPrePrepareProposes(r, Answer(r, t), t.requests, t, p);
  }

  lemma VerifyPrePrepareStep(c: Config, r: Replica, t: Task)
    requires Local(c, r) && Enabled(c, r, Done(t)) && t.VerifyPrePrepare?
    ensures Local(c, Handle(c, r, Done(t)))
  {
    hide LogOk, BallotsOk, TasksOk, TokenInvariant, SentInLog, LogSent, UnsignedOk;
    TaskAt(r, t);
    assert t.prePrepare.signer == 0;
    assert r.id != 0;
    ShapedStep(c, r, Done(t));
    AnswerKeepsTokens(r, t);
    VerifiedPrePrepareLocal(Answer(r, t), t.prePrepare, t.requests);
    AnswerProposes(r, t);
    VerifiedPrePrepareProposes(Answer(r, t), t.prePrepare, t.requests);
  }

  lemma SignVoteStep(c: Config, r: Replica, t: Task)
    requires Local(c, r) && Enabled(c, r, Done(t)) && t.SignVote?
    ensures Local(c, Handle(c, r, Done(t)))
  {
    hide Shaped, TokenInvariant, Proposals, InsertVote;
    assert TaskOk(r.id, r.log, t) by { ShapedTask(c, r, t); }
    ShapedStep(c, r, Done(t));
    AnswerKeepsTokens(r, t);
    var r0, v := Answer(r, t), SignedVote(t.unsigned, r.id);
    SignedVoteLocal(c, r0, t.round, v);
    AnswerProposes(r, t);
    PrimaryIsZero(c, r);
    VoteBroadcastProposes(r0, t.round, v);
    InsertVoteProposes(c, Broadcast(r0, VoteMsg(t.round, v)), t.round, v);
  }

  lemma ShapedTask(c: Config, r: Replica, t: Task)
    requires Shaped(c, r) && t in r.out.tasks
    ensures TaskOk(r.id, r.log, t) && r.viewNum == 0
  {
  }

  lemma VoteBroadcastProposes(r: Replica, round: Round, v: SignedVote)
    requires Proposals(r)
    ensures Proposals(Broadcast(r, VoteMsg(round, v)))
  {
    hide Proposals;
    ProposalsKept(r, Broadcast(r, VoteMsg(round, v)));
  }

  lemma VerifyVoteStep(c: Config, r: Replica, t: Task)
    requires Local(c, r) && Enabled(c, r, Done(t)) && t.VerifyVote? && c.Quorum() >= 2
    ensures Local(c, Handle(c, r, Done(t)))
  {
    hide Shaped, TokenInvariant, Proposals, InsertVote;
    var r0, v := Answer(r, t), t.vote;
    ShapedTask(c, r, t);
    ShapedStep(c, r, Done(t));
    AnswerShape(c, r, t);
    InsertVoteKeepsShape(c, r0, t.round, v);
    ShapedBallots(c, InsertVote(c, r0, t.round, v), t.round);
    VerifiedVoteLocal(c, r, t.round, v);
    AnswerProposes(r, t);
    PrimaryIsZero(c, r);
    InsertVoteProposes(c, r0, t.round, v);
    DrainProposes(InsertVote(c, r0, t.round, v), t.round, v.inner.opNum);
  }

  lemma AnswerShape(c: Config, r: Replica, t: Task)
    requires Shaped(c, r)
    ensures Shaped(c, Answer(r, t))
  {
    hide LogOk, BallotsOk, TasksOk;
    TasksKept(r.id, r.log, r.log, r.out.tasks, Answer(r, t).out.tasks);
  }

  lemma ShapedBallots(c: Config, r: Replica, round: Round)
    requires Shaped(c, r)
    ensures BallotsOk(c, r.Ballots(round))
  {
  }

  lemma LocalStep(c: Config, r: Replica, e: Event)
    requires Local(c, r) && Enabled(c, r, e) && Unforged(r, e) && c.Quorum() >= 2
    ensures Local(c, Handle(c, r, e))
  {
    hide Local;
    if e.Recv? {
      assert c.numReplica > 0;
      LocalRunning(c, r, e.message);
    } else if e.task.SignPrePrepare? {
      SignPrePrepareStep(c, r, e.task);
    } else if e.task.VerifyPrePrepare? {
      VerifyPrePrepareStep(c, r, e.task);
    } else if e.task.SignVote? {
      SignVoteStep(c, r, e.task);
    } else {
      VerifyVoteStep(c, r, e.task);
    }
  }

  lemma LocalRunning(c: Config, r: Replica, m: Message)
    requires Local(c, r) && Enabled(c, r, Recv(m)) && Unforged(r, Recv(m)) && c.numReplica > 0
    ensures Local(c, Handle(c, r, Recv(m)))
  {
    hide Shaped, TokenInvariant, Proposals;
    RecvStep(c, r, m);
  }
}
