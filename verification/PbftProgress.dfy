/** No quorum is overdue: a slot is prepared, committed and executed by the very event that
    completes what it needs. */
module PbftProgress {
  import opened Wrappers
  import opened PbftTypes
  import opened PbftSpec
  import opened PbftLocal
  import opened PbftTokens
  import opened PbftProposals
  import opened PbftStep
  import opened PbftGuards
  import opened PbftSystem
  import opened PbftVotes

  /** The replica's own vote for the slot waits for its signature. */
  ghost predicate Signing(tasks: multiset<Task>, round: Round, k: nat) {
    exists v: Vote :: v.opNum == k && SignVote(round, v) in tasks
  }

  /** A backup's slot that has its pre-prepare but is not prepared lacks votes, or the own one. */
  ghost predicate PreparesDue(c: Config, r: Replica) {
    r.id != 0 ==> forall k: nat | SlotTaken(r.log, k) && r.log[k].prepares == map[] ::
      |TableOf(r.prepares.quorums, k)| + 1 < c.Quorum() || Signing(r.out.tasks, Preparing, k)
  }

  /** A prepared slot that is not committed lacks votes, or the own one. */
  ghost predicate CommitsDue(c: Config, r: Replica) {
    forall k: nat | k < |r.log| && r.log[k].prepares != map[] && r.log[k].commits == map[] ::
      |TableOf(r.commits.quorums, k)| < c.Quorum() || Signing(r.out.tasks, Committing, k)
  }

  /** Slots are prepared by a quorum: n - f - 1 prepares, the pre-prepare standing for one. */
  ghost predicate QuorumsPrepared(c: Config, log: seq<LogEntry>) {
    forall k: nat | k < |log| && log[k].prepares != map[] :: |log[k].prepares| + 1 >= c.Quorum()
  }

  ghost predicate Prompt(c: Config, r: Replica) {
    PreparesDue(c, r) && CommitsDue(c, r) && QuorumsPrepared(c, r.log) && !NextCommitted(r)
  }

  // Events that count no vote

  ghost predicate CountsNone(r: Replica, r': Replica) {
    && r'.id == r.id && r'.commitNum == r.commitNum && |r.log| <= |r'.log|
    && (forall k: nat | k < |r.log| :: r'.log[k].prepares == r.log[k].prepares && r'.log[k].commits == r.log[k].commits)
    && (forall k: nat | |r.log| <= k < |r'.log| :: r'.log[k].prepares == map[] && r'.log[k].commits == map[])
    && (forall k: nat :: |TableOf(r'.prepares.quorums, k)| <= |TableOf(r.prepares.quorums, k)|)
    && (forall k: nat :: |TableOf(r'.commits.quorums, k)| <= |TableOf(r.commits.quorums, k)|)
    && (forall round, v :: SignVote(round, v) in r.out.tasks ==> SignVote(round, v) in r'.out.tasks)
    && (r.id != 0 ==> forall k: nat | SlotTaken(r'.log, k) && !SlotTaken(r.log, k) :: Signing(r'.out.tasks, Preparing, k))
  }

  lemma CountsNonePrompt(c: Config, r: Replica, r': Replica)
    requires Prompt(c, r) && CountsNone(r, r')
    ensures Prompt(c, r')
  {
    hide TableOf;
    forall round: Round, k: nat | Signing(r.out.tasks, round, k) ensures Signing(r'.out.tasks, round, k) {
      var v: Vote :| v.opNum == k && SignVote(round, v) in r.out.tasks;
      assert SignVote(round, v) in r'.out.tasks;
    }
  }

  lemma RequestCountsNone(c: Config, r: Replica, q: Request)
    ensures CountsNone(r, OnRequest(c, r, q))
  {
    hide Fresh;
  }

  lemma RecvPrePrepareCountsNone(r: Replica, p: SignedPrePrepare, batch: seq<Request>)
    ensures CountsNone(r, OnRecvPrePrepare(r, p, batch))
  {
  }

  lemma RecvVoteCountsNone(r: Replica, round: Round, v: SignedVote)
    ensures CountsNone(r, OnRecvVote(r, round, v))
  {
    hide Wanted;
  }

  lemma ProposeCountsNone(r: Replica, p: SignedPrePrepare, batch: seq<Request>)
    requires r.id == 0
    ensures CountsNone(r, OnSignedPrePrepare(r, p, batch))
  {
  }

  lemma AcceptCountsNone(r: Replica, p: SignedPrePrepare, batch: seq<Request>)
    requires p.inner.viewNum == r.viewNum
    ensures CountsNone(r, OnVerifiedPrePrepare(r, p, batch))
  {
    hide Retain, TableOf;
    var r', k := OnVerifiedPrePrepare(r, p, batch), p.inner.opNum;
    forall j: nat
      ensures |TableOf(Retain(r.prepares.quorums, k, p.inner.digest), j)| <= |TableOf(r.prepares.quorums, j)|
      ensures |TableOf(Retain(r.commits.quorums, k, p.inner.digest), j)| <= |TableOf(r.commits.quorums, j)|
    {
      RetainedVotes(r.prepares.quorums, k, p.inner.digest, j);
      RetainedVotes(r.commits.quorums, k, p.inner.digest, j);
    }
    if !SlotTaken(r.log, k) {
      assert SignVote(Preparing, Vote(r.viewNum, k, p.inner.digest, r.id)) in r'.out.tasks;
    }
  }

  lemma AnswerCountsNone(r: Replica, t: Task)
    requires !t.SignVote?
    ensures CountsNone(r, Answer(r, t))
  {
  }

  lemma DrainCountsNone(r: Replica, round: Round, k: nat)
    ensures CountsNone(r, Drain(r, round, k))
  {
    DrainTasks(r, round, k);
    var r' := Drain(r, round, k);
    forall other, v | SignVote(other, v) in r.out.tasks ensures SignVote(other, v) in r'.out.tasks {
      assert r'.out.tasks[SignVote(other, v)] == r.out.tasks[SignVote(other, v)];
    }
  }

  // A vote is counted

  /** Promptness but for one slot of one round, whose own vote may just have been signed. */
  ghost predicate PromptBut(c: Config, r: Replica, round: Round, slot: nat) {
    && (r.id != 0 ==> forall k: nat | SlotTaken(r.log, k) && r.log[k].prepares == map[] && (round.Preparing? ==> k != slot) ::
          |TableOf(r.prepares.quorums, k)| + 1 < c.Quorum() || Signing(r.out.tasks, Preparing, k))
    && (forall k: nat | k < |r.log| && r.log[k].prepares != map[] && r.log[k].commits == map[] && (round.Committing? ==> k != slot) ::
          |TableOf(r.commits.quorums, k)| < c.Quorum() || Signing(r.out.tasks, Committing, k))
    && QuorumsPrepared(c, r.log) && !NextCommitted(r)
  }

  lemma SignedPromptBut(c: Config, r: Replica, round: Round, v: Vote)
    requires Prompt(c, r)
    ensures PromptBut(c, Answer(r, SignVote(round, v)), round, v.opNum)
  {
    hide TableOf;
    var r' := Answer(r, SignVote(round, v));
    forall other: Round, k: nat | Signing(r.out.tasks, other, k) && (other == round ==> k != v.opNum)
      ensures Signing(r'.out.tasks, other, k)
    {
      var w: Vote :| w.opNum == k && SignVote(other, w) in r.out.tasks;
      assert SignVote(other, w) in r'.out.tasks;
    }
  }

  lemma PromptIsPromptBut(c: Config, r: Replica, round: Round, slot: nat)
    requires Prompt(c, r)
    ensures PromptBut(c, r, round, slot)
  {
  }

  lemma PreparePrompt(c: Config, r: Replica, v: SignedVote)
    requires PromptBut(c, r, Preparing, v.inner.opNum) && InsertPrepare(c, r, v).status == r.status == Running
    ensures Prompt(c, InsertPrepare(c, r, v))
  {
    hide Counted, NextCommitted, InsertPrepare;
    var r', k := InsertPrepare(c, r, v), v.inner.opNum;
    PrepareEffect(c, r, v);
    forall other: Round, j: nat | Signing(r.out.tasks, other, j) ensures Signing(r'.out.tasks, other, j) {
      var w: Vote :| w.opNum == j && SignVote(other, w) in r.out.tasks;
      assert SignVote(other, w) in r'.out.tasks;
    }
    assert !NextCommitted(r') by { SameNext(r, r'); }
    if Finishes(c, r, v) {
      assert SignVote(Committing, Vote(r.viewNum, k, v.inner.digest, r.id)) in r'.out.tasks;
      assert Signing(r'.out.tasks, Committing, k);
    }
    forall j: nat | SlotTaken(r'.log, j) && r'.log[j].prepares == map[] && r'.id != 0
      ensures |TableOf(r'.prepares.quorums, j)| + 1 < c.Quorum() || Signing(r'.out.tasks, Preparing, j)
    {
      assert SlotTaken(r.log, j);
    }
  }

  /** All that counting a prepare does, when no assertion fails. */
  lemma PrepareEffect(c: Config, r: Replica, v: SignedVote)
    requires InsertPrepare(c, r, v).status == r.status == Running
    ensures
      var r', k := InsertPrepare(c, r, v), v.inner.opNum;
      && r'.id == r.id && r'.commitNum == r.commitNum && r'.commits == r.commits
      && |r'.log| == |r.log|
      && (forall j: nat | j < |r.log| ::
            && r'.log[j].commits == r.log[j].commits && r'.log[j].prePrepare == r.log[j].prePrepare
            && r'.log[j].prepares == if j == k && Finishes(c, r, v) then Counted(r, Preparing, v) else r.log[j].prepares)
      && (forall j: nat | j != k :: TableOf(r'.prepares.quorums, j) == TableOf(r.prepares.quorums, j))
      && Counted(r, Preparing, v) != map[]
      && (!Finishes(c, r, v) && k < |r.log| && r.log[k].prepares == map[] ==>
            TableOf(r'.prepares.quorums, k) == Counted(r, Preparing, v) && |Counted(r, Preparing, v)| + 1 < c.Quorum())
      && (forall round, w :: SignVote(round, w) in r.out.tasks ==> SignVote(round, w) in r'.out.tasks)
      && (Finishes(c, r, v) ==> SignVote(Committing, Vote(r.viewNum, k, v.inner.digest, r.id)) in r'.out.tasks)
  {
    CountedHas(r, Preparing, v);
    hide Counted;
    InsertPrepareLog(c, r, v);
    if Finishes(c, r, v) {
      assert InsertPrepare(c, r, v).log == r.log[v.inner.opNum := r.log[v.inner.opNum].(prepares := Counted(r, Preparing, v))];
    }
  }

  lemma SameNext(r: Replica, r': Replica)
    requires r'.commitNum == r.commitNum && |r'.log| == |r.log|
    requires forall j: nat | j < |r.log| :: r'.log[j].commits == r.log[j].commits
    ensures NextCommitted(r') <==> NextCommitted(r)
  {
  }

  /** All that counting a commit does, when no assertion fails. */
  lemma CommitEffect(c: Config, r: Replica, v: SignedVote)
    requires InsertCommit(c, r, v).status == r.status == Running
    ensures
      var r', k := InsertCommit(c, r, v), v.inner.opNum;
      && r'.id == r.id && r'.prepares == r.prepares
      && |r'.log| == |r.log|
      && (forall j: nat | j < |r.log| ::
            && r'.log[j].prepares == r.log[j].prepares && r'.log[j].prePrepare == r.log[j].prePrepare
            && r'.log[j].commits == if j == k && Commits(c, r, v) then Counted(r, Committing, v) else r.log[j].commits)
      && (forall j: nat | j != k :: TableOf(r'.commits.quorums, j) == TableOf(r.commits.quorums, j))
      && Counted(r, Committing, v) != map[]
      && (!Commits(c, r, v) && k < |r.log| && r.log[k].commits == map[] && r.log[k].prepares != map[] ==>
            TableOf(r'.commits.quorums, k) == Counted(r, Committing, v) && |Counted(r, Committing, v)| < c.Quorum())
  {
    hide InsertCommit, Counted;
    var r', k := InsertCommit(c, r, v), v.inner.opNum;
    InsertCommitLog(c, r, v);
    InsertCommitRest(c, r, v);
    CountedHas(r, Committing, v);
    if Commits(c, r, v) {
      assert r'.log == r.log[k := r.log[k].(commits := Counted(r, Committing, v))];
    } else {
      assert r'.log == r.log;
    }
  }

  lemma CommitExecutes(c: Config, r: Replica, v: SignedVote)
    requires !NextCommitted(r)
    ensures !NextCommitted(InsertCommit(c, r, v))
  {
    hide Counted;
    InsertCommitLog(c, r, v);
  }

  lemma CommitPrompt(c: Config, r: Replica, v: SignedVote)
    requires PromptBut(c, r, Committing, v.inner.opNum) && InsertCommit(c, r, v).status == r.status == Running
    ensures Prompt(c, InsertCommit(c, r, v))
  {
    hide Counted, NextCommitted, InsertCommit, Commits;
    var r', k := InsertCommit(c, r, v), v.inner.opNum;
    CommitEffect(c, r, v);
    InsertCommitTasks(c, r, v);
    CommitExecutes(c, r, v);
    forall other: Round, j: nat | Signing(r.out.tasks, other, j) ensures Signing(r'.out.tasks, other, j) {
      var w: Vote :| w.opNum == j && SignVote(other, w) in r.out.tasks;
      assert r'.out.tasks[SignVote(other, w)] == r.out.tasks[SignVote(other, w)];
    }
    forall j: nat | SlotTaken(r'.log, j) && r'.log[j].prepares == map[] && r'.id != 0
      ensures |TableOf(r'.prepares.quorums, j)| + 1 < c.Quorum() || Signing(r'.out.tasks, Preparing, j)
    {
      assert SlotTaken(r.log, j);
    }
  }

  lemma InsertPrompt(c: Config, r: Replica, round: Round, v: SignedVote)
    requires PromptBut(c, r, round, v.inner.opNum) && InsertVote(c, r, round, v).status == r.status == Running
    ensures Prompt(c, InsertVote(c, r, round, v))
  {
    hide PromptBut, Prompt, InsertPrepare, InsertCommit;
    if round.Preparing? { PreparePrompt(c, r, v); } else { CommitPrompt(c, r, v); }
  }

  /** The own vote for a round that is finished is not counted, and not missed. */
  lemma LateOwnVote(c: Config, r: Replica, round: Round, k: nat)
    requires PromptBut(c, r, round, k) && Finished(r.log, round, k)
    ensures Prompt(c, r)
  {
  }

  lemma BroadcastPromptBut(c: Config, r: Replica, m: Message, round: Round, k: nat)
    requires PromptBut(c, r, round, k)
    ensures PromptBut(c, Broadcast(r, m), round, k)
  {
    hide TableOf, Signing;
  }

  lemma SignedVotePrompt(c: Config, r: Replica, t: Task)
    requires Prompt(c, r) && t.SignVote? && t.unsigned.opNum < |r.log| && t.unsigned.viewNum == r.viewNum
    requires OnDone(c, Answer(r, t), t).status == r.status == Running
    ensures Prompt(c, OnDone(c, Answer(r, t), t))
  {
    hide Prompt, PromptBut, InsertVote;
    var v, r0 := SignedVote(t.unsigned, r.id), Answer(r, t);
    SignedPromptBut(c, r, t.round, t.unsigned);
    BroadcastPromptBut(c, r0, VoteMsg(t.round, v), t.round, t.unsigned.opNum);
    var r1 := Broadcast(r0, VoteMsg(t.round, v));
    if r.log[t.unsigned.opNum].Votes(t.round) == map[] {
      InsertPrompt(c, r1, t.round, v);
    } else {
      LateOwnVote(c, r1, t.round, t.unsigned.opNum);
    }
  }

  lemma VerifiedVotePrompt(c: Config, r: Replica, round: Round, v: SignedVote)
    requires Prompt(c, r) && v.inner.viewNum == r.viewNum
    requires OnVerifiedVote(c, r, round, v).status == r.status == Running
    ensures Prompt(c, OnVerifiedVote(c, r, round, v))
  {
    hide Prompt, PromptBut, InsertVote, CountsNone;
    PromptIsPromptBut(c, r, round, v.inner.opNum);
    InsertPrompt(c, r, round, v);
    DrainCountsNone(InsertVote(c, r, round, v), round, v.inner.opNum);
    CountsNonePrompt(c, InsertVote(c, r, round, v), Drain(InsertVote(c, r, round, v), round, v.inner.opNum));
  }

  // All events and all runs

  lemma PromptStep(c: Config, r: Replica, e: Event)
    requires Prompt(c, r) && Local(c, r) && Enabled(c, r, e) && Handle(c, r, e).status == Running
    ensures Prompt(c, Handle(c, r, e))
  {
    hide Prompt, CountsNone, OnRequest, OnRecvPrePrepare, OnRecvVote, OnSignedPrePrepare, OnVerifiedPrePrepare, OnSignedVote,
         OnVerifiedVote, LogOk, BallotsOk, TokenInvariant, Proposals, TasksOk;
    var r' := Handle(c, r, e);
    match e
    case Recv(RequestMsg(q)) => RequestCountsNone(c, r, q); CountsNonePrompt(c, r, r');
    case Recv(PrePrepareMsg(p, batch)) => RecvPrePrepareCountsNone(r, p, batch); CountsNonePrompt(c, r, r');
    case Recv(VoteMsg(round, v)) => RecvVoteCountsNone(r, round, v); CountsNonePrompt(c, r, r');
    case Done(t) =>
      TaskAt(r, t);
      var r0 := Answer(r, t);
      if t.SignVote? {
        SignedVotePrompt(c, r, t);
      } else {
        AnswerCountsNone(r, t);
        CountsNonePrompt(c, r, r0);
        match t {
          case SignPrePrepare(w, k, batch) =>
            ProposeCountsNone(r0, SignedPrePrepare(PrePrepare(w, k, Sha256(batch)), r.id), batch);
            CountsNonePrompt(c, r0, r');
          case VerifyPrePrepare(p, batch) =>
            AcceptCountsNone(r0, p, batch);
            CountsNonePrompt(c, r0, r');
          case VerifyVote(round, v) => VerifiedVotePrompt(c, r0, round, v);
          case SignVote(_, _) =>
        }
      }
  }

  lemma {:induction false} PromptRun(u: Setup, actions: seq<Action>, i: nat)
    requires u.c.Quorum() >= 2 && u.Correct(i) && After(u, actions).replicas[i].status == Running
    ensures Prompt(u.c, After(u, actions).replicas[i])
  {
    hide Prompt, Local, Handle, Forgeable, InNetwork;
    if actions == [] {
      NewPrompt(u.c, i, u.app);
    } else {
      var n := |actions| - 1;
      var s, a := After(u, actions[..n]), actions[n];
      if a.Act? && a.replica == i && Allowed(u, s, a) {
        PromptRun(u, actions[..n], i);
        RunReliable(u, actions[..n]);
        assert Local(u.c, s.replicas[i]);
        PromptStep(u.c, s.replicas[i], a.event);
      } else {
        assert After(u, actions).replicas[i] == s.replicas[i];
        PromptRun(u, actions[..n], i);
      }
    }
  }

  lemma NewPrompt(c: Config, i: nat, app: AppState)
    ensures Prompt(c, NewReplica(i, app))
  {
  }

  // What a quiet replica has done

  /** The replica was handed a verifiable vote of j for this digest, and none for another one. */
  ghost predicate HonestVoter(heard: Heard, round: Round, k: nat, digest: Digest, j: nat) {
    && (exists v :: (round, v) in heard && VotesFor(v, k, j) && v.inner.digest == digest)
    && (forall v | (round, v) in heard && VotesFor(v, k, j) :: v.inner.digest == digest)
  }

  predicate VotesFor(v: SignedVote, k: nat, j: nat) {
    v.inner == Vote(0, k, v.inner.digest, j) && v.signer == j
  }

  /** These replicas vote for the digest: another one by what was received, the replica
      itself by what it has counted. */
  ghost predicate Voters(r: Replica, heard: Heard, round: Round, k: nat, digest: Digest, voters: set<nat>) {
    forall j <- voters ::
      if j == r.id then j in TableOf(r.Ballots(round).quorums, k) else HonestVoter(heard, round, k, digest, j)
  }

  lemma VoterCounted(r: Replica, heard: Heard, round: Round, k: nat, digest: Digest, j: nat)
    requires RoundKept(r, heard, round) && Accepts(r.log, k, digest) && !Finished(r.log, round, k)
    requires k !in r.Ballots(round).pending && NoneUnanswered(r.out.tasks, round, k)
    requires HonestVoter(heard, round, k, digest, j) && j != r.id
    ensures j in TableOf(r.Ballots(round).quorums, k)
  {
    var v :| (round, v) in heard && VotesFor(v, k, j) && v.inner.digest == digest;
    assert Accounted(r, heard, round, v);
    var w :| (round, w) in heard && Stands(v, w) && (InTable(r.Ballots(round).quorums, w) || Contradicts(r.log, w.inner));
    assert VotesFor(w, k, j);
  }

  lemma VotersCounted(r: Replica, heard: Heard, round: Round, k: nat, digest: Digest, voters: set<nat>)
    requires RoundKept(r, heard, round) && Accepts(r.log, k, digest) && !Finished(r.log, round, k)
    requires k !in r.Ballots(round).pending && NoneUnanswered(r.out.tasks, round, k)
    requires Voters(r, heard, round, k, digest, voters)
    ensures |voters| <= |TableOf(r.Ballots(round).quorums, k)|
  {
    hide RoundKept, NoneUnanswered, HonestVoter, Accepts, Finished;
    var table := TableOf(r.Ballots(round).quorums, k);
    forall j <- voters ensures j in table {
      if j != r.id { VoterCounted(r, heard, round, k, digest, j); }
    }
    assert voters <= table.Keys;
    assert table.Keys == voters + (table.Keys - voters) && |table| == |table.Keys|;
  }

  lemma QuietRound(c: Config, r: Replica, round: Round, k: nat)
    requires Local(c, r) && r.status == Running && k !in r.Ballots(round).pending
    ensures NoneUnanswered(r.out.tasks, round, k)
  {
    hide Shaped, Proposals, FewLate, NoneUnanswered;
    assert RoundOk(r, round);
    assert TokenOf(r.out.tasks, r.Ballots(round), round, k);
  }

  /** What holds of a running replica after any run. */
  lemma RunFacts(u: Setup, actions: seq<Action>, i: nat)
    requires u.c.Quorum() >= 2 && u.Correct(i) && After(u, actions).replicas[i].status == Running
    ensures
      var r := After(u, actions).replicas[i];
      r.id == i && Local(u.c, r) && Prompt(u.c, r) && VotesKept(r, HeardBy(u, actions, i))
  {
    hide Local, Prompt, VotesKept, HeardBy, After;
    RunReliable(u, actions);
    PromptRun(u, actions, i);
    VotesRun(u, actions, i);
  }

  /** A backup that has the pre-prepare of a slot and enough honest prepares, and owes the
      slot no verification and no signature, has prepared it. */
  lemma QuorumIsPrepared(u: Setup, actions: seq<Action>, i: nat, k: nat, digest: Digest, voters: set<nat>)
    requires u.c.Quorum() >= 2 && u.Correct(i) && i != 0 && After(u, actions).replicas[i].status == Running
    requires
      var r := After(u, actions).replicas[i];
      && Accepts(r.log, k, digest)
      && k !in r.prepares.pending && !Signing(r.out.tasks, Preparing, k)
      && Voters(r, HeardBy(u, actions, i), Preparing, k, digest, voters)
    requires |voters| + 1 >= u.c.Quorum()
    ensures After(u, actions).replicas[i].log[k].prepares != map[]
  {
    hide Local, VotesKept, HeardBy, After, Signing, Voters, HonestVoter, CommitsDue, QuorumsPrepared, NextCommitted, RoundKept;
    RunFacts(u, actions, i);
    var r, heard := After(u, actions).replicas[i], HeardBy(u, actions, i);
    assert SlotTaken(r.log, k);
    if r.log[k].prepares == map[] {
      KeptRounds(r, heard);
      QuietRound(u.c, r, Preparing, k);
      VotersCounted(r, heard, Preparing, k, digest, voters);
    }
  }

  lemma KeptRounds(r: Replica, heard: Heard)
    requires VotesKept(r, heard)
    ensures RoundKept(r, heard, Preparing) && RoundKept(r, heard, Committing)
  {
    hide RoundKept;
  }

  /** A replica that has prepared a slot and has enough honest commits for it, and owes the
      slot no verification and no signature, has committed it. */
  lemma QuorumIsCommitted(u: Setup, actions: seq<Action>, i: nat, k: nat, digest: Digest, voters: set<nat>)
    requires u.c.Quorum() >= 2 && u.Correct(i) && After(u, actions).replicas[i].status == Running
    requires
      var r := After(u, actions).replicas[i];
      && Accepts(r.log, k, digest) && r.log[k].prepares != map[]
      && k !in r.commits.pending && !Signing(r.out.tasks, Committing, k)
      && Voters(r, HeardBy(u, actions, i), Committing, k, digest, voters)
    requires |voters| >= u.c.Quorum()
    ensures After(u, actions).replicas[i].log[k].commits != map[]
  {
    hide Local, VotesKept, HeardBy, After, Signing, Voters, HonestVoter, PreparesDue, QuorumsPrepared, NextCommitted, RoundKept;
    RunFacts(u, actions, i);
    var r, heard := After(u, actions).replicas[i], HeardBy(u, actions, i);
    if r.log[k].commits == map[] {
      KeptRounds(r, heard);
      QuietRound(u.c, r, Committing, k);
      VotersCounted(r, heard, Committing, k, digest, voters);
    }
  }

  /** A running replica has executed as far as it has committed without a gap. */
  lemma CommittedIsExecuted(u: Setup, actions: seq<Action>, i: nat, n: nat)
    requires u.c.Quorum() >= 2 && u.Correct(i) && After(u, actions).replicas[i].status == Running
    requires
      var log := After(u, actions).replicas[i].log;
      (n == 0 || n < |log|) && forall k: nat | 1 <= k <= n :: log[k].commits != map[]
    ensures After(u, actions).replicas[i].commitNum >= n
  {
    hide Local, VotesKept, HeardBy, After, PreparesDue, CommitsDue, QuorumsPrepared;
    RunFacts(u, actions, i);
  }

  /** In every run a slot is prepared by n - f - 1 prepares or more, and committed by n - f
      commits or more, of as many replicas. */
  lemma QuorumsAreQuorums(u: Setup, actions: seq<Action>, i: nat, k: nat)
    requires u.c.Quorum() >= 2 && u.Correct(i) && After(u, actions).replicas[i].status == Running
    requires k < |After(u, actions).replicas[i].log|
    ensures
      var entry := After(u, actions).replicas[i].log[k];
      && (entry.prepares != map[] ==> |entry.prepares| >= u.c.numReplica - u.c.numFaulty - 1)
      && (entry.commits != map[] ==> entry.prepares != map[] && |entry.commits| >= u.c.numReplica - u.c.numFaulty)
      && (forall j <- entry.prepares :: j < u.c.numReplica && entry.prepares[j].signer == j)
      && (forall j <- entry.commits :: j < u.c.numReplica && entry.commits[j].signer == j)
  {
    hide VotesKept, HeardBy, After, PreparesDue, CommitsDue, NextCommitted, TokenInvariant, Proposals, BallotsOk, TasksOk;
    RunFacts(u, actions, i);
    var r := After(u, actions).replicas[i];
    EntryAt(u.c, r.log, k);
    forall j <- r.log[k].prepares ensures j < u.c.numReplica && r.log[k].prepares[j].signer == j {
      assert VoteOf(u.c, r.log[k].prepares[j], k, j);
    }
    forall j <- r.log[k].commits ensures j < u.c.numReplica && r.log[k].commits[j].signer == j {
      assert VoteOf(u.c, r.log[k].commits[j], k, j);
    }
  }

  /** The own vote comes back signed: it is broadcast, and counted unless its round is over. */
  lemma OwnVoteIsCounted(c: Config, r: Replica, round: Round, v: Vote)
    requires Local(c, r) && Enabled(c, r, Done(SignVote(round, v)))
    requires Handle(c, r, Done(SignVote(round, v))).status == Running
    ensures
      var r', own := Handle(c, r, Done(SignVote(round, v))), SignedVote(v, r.id);
      && VoteMsg(round, own) in r'.out.sent
      && (Finished(r.log, round, v.opNum) || InTable(r'.Ballots(round).quorums, own)
          || (v.opNum < |r'.log| && r.id in r'.log[v.opNum].Votes(round) && r'.log[v.opNum].Votes(round)[r.id] == own))
  {
    hide TokenInvariant, Proposals, LogOk, BallotsOk, TasksOk, InsertVote;
    TaskAt(r, SignVote(round, v));
    var r1 := Broadcast(Answer(r, SignVote(round, v)), VoteMsg(round, SignedVote(v, r.id)));
    InsertSendsNothing(c, r1, round, SignedVote(v, r.id));
    if !Finished(r.log, round, v.opNum) {
      InsertTakes(c, r1, round, SignedVote(v, r.id));
    }
  }
}
