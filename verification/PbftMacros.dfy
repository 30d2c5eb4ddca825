/** Building concrete runs: pairs of events that amount to one handler call. */
module PbftMacros {
  import opened PbftTypes
  import opened PbftSpec
  import opened PbftLocal
  import opened PbftProposals
  import opened PbftGuards
  import opened PbftSystem

  // Submitting and answering cancel out

  lemma AnswerSubmit(r: Replica, t: Task)
    ensures Answer(Submit(r, t), t) == r
  {
    assert r.out.tasks + multiset{t} - multiset{t} == r.out.tasks;
  }

  /** A pre-prepare received and verified is accepted. */
  lemma AcceptPrePrepare(c: Config, r: Replica, p: SignedPrePrepare, batch: seq<Request>)
    requires r.status == Running && r.viewNum == 0 && c.numReplica > 0
    requires p == SignedPrePrepare(PrePrepare(0, p.inner.opNum, Sha256(batch)), 0) && !SlotTaken(r.log, p.inner.opNum)
    ensures
      var e1, e2 := Recv(PrePrepareMsg(p, batch)), Done(VerifyPrePrepare(p, batch));
      && Enabled(c, r, e1) && Enabled(c, Handle(c, r, e1), e2)
      && Handle(c, Handle(c, r, e1), e2) == OnVerifiedPrePrepare(r, p, batch)
  {
    hide OnVerifiedPrePrepare;
    AnswerSubmit(r, VerifyPrePrepare(p, batch));
    assert 0 % c.numReplica == 0;
  }

  lemma {:induction false} ExecuteIgnoresQueues(c: Config, r: Replica, commits: Ballots)
    ensures ExecuteCommitted(c, r.(commits := commits)) == ExecuteCommitted(c, r).(commits := commits)
    decreases |r.log| - r.commitNum
  {
    if NextCommitted(r) {
      var service := ExecuteBatch(c, r.id, r.viewNum, r.service, r.log[r.commitNum + 1].requests);
      ExecuteIgnoresQueues(c, r.(commitNum := r.commitNum + 1, service := service), commits);
    }
  }

  lemma CloseOneIgnoresQueues(c: Config, r: Replica, commits: Ballots)
    ensures CloseBatch(c, r.(commits := commits)) == CloseBatch(c, r).(commits := commits)
    ensures IsPrimary(c, r) && r.requests != [] ==> |CloseBatch(c, r).requests| < |r.requests|
  {
  }

  lemma {:induction false} CloseIgnoresQueues(c: Config, r: Replica, commits: Ballots)
    ensures CloseBatches(c, r.(commits := commits)) == CloseBatches(c, r).(commits := commits)
    decreases |r.requests|
  {
    hide CloseBatch;
    CloseOneIgnoresQueues(c, r, commits);
    if IsPrimary(c, r) && r.requests != [] && r.opNum <= r.commitNum + CONCURRENT_PRE_PREPARES {
      CloseIgnoresQueues(c, CloseBatch(c, r), commits);
    }
  }

  lemma InsertIgnoresQueues(c: Config, r: Replica, round: Round, v: SignedVote, queue: seq<SignedVote>)
    ensures
      InsertVote(c, SetQueue(r, round, v.inner.opNum, queue), round, v)
        == SetQueue(InsertVote(c, r, round, v), round, v.inner.opNum, queue)
  {
    if round.Preparing? {
      PrepareIgnoresQueues(c, r, v, queue);
    } else {
      CommitIgnoresQueues(c, r, v, queue);
    }
  }

  lemma PrepareIgnoresQueues(c: Config, r: Replica, v: SignedVote, queue: seq<SignedVote>)
    ensures
      InsertPrepare(c, SetQueue(r, Preparing, v.inner.opNum, queue), v)
        == SetQueue(InsertPrepare(c, r, v), Preparing, v.inner.opNum, queue)
  {
  }

  lemma CommitIgnoresQueues(c: Config, r: Replica, v: SignedVote, queue: seq<SignedVote>)
    ensures
      InsertCommit(c, SetQueue(r, Committing, v.inner.opNum, queue), v)
        == SetQueue(InsertCommit(c, r, v), Committing, v.inner.opNum, queue)
  {
    var k, votes := v.inner.opNum, Counted(r, Committing, v);
    if Commits(c, r, v) {
      var r1 := DropTable(r, Committing, k).(log := r.log[k := r.log[k].(commits := votes)]);
      var b := r1.commits.(pending := r1.commits.pending[k := queue]);
      ExecuteIgnoresQueues(c, r1, b);
      CloseIgnoresQueues(c, ExecuteCommitted(c, r1), b);
    }
  }

  /** A vote received and verified, with no other one waiting, is counted. */
  lemma CountVote(c: Config, r: Replica, round: Round, v: SignedVote)
    requires r.status == Running && v.inner.opNum !in r.Ballots(round).pending
    requires Submittable(r, round, v.inner) && Answered(c, VerifyVote(round, v))
    requires InsertVote(c, r, round, v).status == Running
    requires InsertVote(c, r, round, v).Ballots(round).pending == r.Ballots(round).pending
    ensures
      var e1, e2 := Recv(VoteMsg(round, v)), Done(VerifyVote(round, v));
      && Enabled(c, r, e1) && Enabled(c, Handle(c, r, e1), e2)
      && Handle(c, Handle(c, r, e1), e2) == InsertVote(c, r, round, v)
  {
    hide InsertVote, Wanted;
    var k, t := v.inner.opNum, VerifyVote(round, v);
    var r1 := SetQueue(Submit(r, t), round, k, []);
    assert OnRecvVote(r, round, v) == r1;
    AnswerSubmit(r, t);
    assert Answer(r1, t) == SetQueue(r, round, k, []);
    InsertIgnoresQueues(c, r, round, v, []);
    var r2 := InsertVote(c, r, round, v);
    assert Drain(SetQueue(r2, round, k, []), round, k) == r2 by { DropSet(r2, round, k); }
  }

  lemma DropSet(r: Replica, round: Round, k: nat)
    requires k !in r.Ballots(round).pending
    ensures Drain(SetQueue(r, round, k, []), round, k) == r
  {
    var b := r.Ballots(round);
    assert b.pending[k := []] - {k} == b.pending;
  }

  // Concrete runs of a group

  ghost predicate GuardsHold(u: Setup, s: System, a: Action, slots: bool, digests: bool)
    requires |s.replicas| == u.c.numReplica
  {
    Allowed(u, s, a) && a.Act? ==>
      && (slots ==> SlotGuard(u.c, s.replicas[a.replica], a.event))
      && (digests ==> DigestGuard(u.c, s.replicas[a.replica], a.event))
  }

  ghost predicate RunKeeps(u: Setup, actions: seq<Action>, slots: bool, digests: bool) {
    forall k: nat | k < |actions| :: GuardsHold(u, After(u, actions[..k]), actions[k], slots, digests)
  }

  /** A run with the chosen guards ends in this state. */
  ghost predicate Reaches(u: Setup, s: System, slots: bool, digests: bool) {
    exists actions :: After(u, actions) == s && RunKeeps(u, actions, slots, digests)
  }

  lemma ReachesStart(u: Setup, slots: bool, digests: bool)
    ensures Reaches(u, Start(u), slots, digests)
  {
    assert After(u, []) == Start(u) && RunKeeps(u, [], slots, digests);
  }

  lemma ReachesNext(u: Setup, s: System, a: Action, slots: bool, digests: bool)
    requires |s.replicas| == u.c.numReplica && Reaches(u, s, slots, digests)
    requires GuardsHold(u, s, a, slots, digests)
    ensures Reaches(u, Next(u, s, a), slots, digests)
  {
    hide GuardsHold, Next;
    var actions :| After(u, actions) == s && RunKeeps(u, actions, slots, digests);
    var more := actions + [a];
    assert more[..|actions|] == actions;
    assert After(u, more) == Next(u, s, a);
    forall k: nat | k < |more| ensures GuardsHold(u, After(u, more[..k]), more[k], slots, digests) {
      if k < |actions| {
        assert more[..k] == actions[..k];
      }
    }
    assert RunKeeps(u, more, slots, digests);
  }
}
