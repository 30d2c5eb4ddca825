/** The verification token: per slot and round at most one vote is being verified at a
    time.  It is the reason why no assertion on finished slots can fail. */
module PbftTokens {
  import opened Wrappers
  import opened PbftTypes
  import opened PbftSpec
  import opened PbftLocal

  ghost predicate NoneUnanswered(tasks: multiset<Task>, round: Round, k: nat) {
    forall v: SignedVote | v.inner.opNum == k :: VerifyVote(round, v) !in tasks
  }

  ghost predicate OnlyUnanswered(tasks: multiset<Task>, round: Round, k: nat, v: SignedVote) {
    && v.inner.opNum == k && tasks[VerifyVote(round, v)] == 1
    && forall w: SignedVote | w.inner.opNum == k && VerifyVote(round, w) in tasks :: w == v
  }

  ghost predicate OneUnanswered(tasks: multiset<Task>, round: Round, k: nat) {
    exists v :: OnlyUnanswered(tasks, round, k, v)
  }

  ghost predicate TokenOf(tasks: multiset<Task>, b: Ballots, round: Round, k: nat) {
    if k in b.pending then OneUnanswered(tasks, round, k) else NoneUnanswered(tasks, round, k)
  }

  /** A slot has a queue of waiting votes exactly when one verification of a vote for it
      is unanswered; the slot in `owing`, if any, has lost its verification. */
  ghost predicate TokensBut(tasks: multiset<Task>, b: Ballots, round: Round, owing: Option<nat>) {
    forall k: nat | Some(k) != owing :: TokenOf(tasks, b, round, k)
  }

  /** How many votes sit in the table of a slot or can still arrive there. */
  function LateVotes(b: Ballots, k: nat): nat {
    |TableOf(b.quorums, k)| + if k in b.pending then 1 else 0
  }

  ghost predicate FewLate(log: seq<LogEntry>, b: Ballots, round: Round) {
    forall k: nat | k < |log| && log[k].Votes(round) != map[] :: LateVotes(b, k) <= 1
  }

  ghost predicate RoundOk(r: Replica, round: Round) {
    && TokensBut(r.out.tasks, r.Ballots(round), round, None)
    && FewLate(r.log, r.Ballots(round), round)
  }

  ghost predicate TokenInvariant(r: Replica) {
    RoundOk(r, Preparing) && RoundOk(r, Committing)
  }

  // The token across one task

  lemma TokenAnswered(tasks: multiset<Task>, b: Ballots, round: Round, v: SignedVote)
    requires TokensBut(tasks, b, round, None) && VerifyVote(round, v) in tasks
    ensures v.inner.opNum in b.pending
    ensures NoneUnanswered(tasks - multiset{VerifyVote(round, v)}, round, v.inner.opNum)
    ensures TokensBut(tasks - multiset{VerifyVote(round, v)}, b, round, Some(v.inner.opNum))
  {
    var k, rest := v.inner.opNum, tasks - multiset{VerifyVote(round, v)};
    assert TokenOf(tasks, b, round, k) && !NoneUnanswered(tasks, round, k);
    forall j: nat | j != k ensures TokenOf(rest, b, round, j) {
      assert TokenOf(tasks, b, round, j);
      if j in b.pending {
        var w :| OnlyUnanswered(tasks, round, j, w);
        assert OnlyUnanswered(rest, round, j, w);
      }
    }
  }

  lemma TokenTaken(tasks: multiset<Task>, b: Ballots, round: Round, v: SignedVote, queue: seq<SignedVote>)
    requires TokensBut(tasks, b, round, Some(v.inner.opNum)) && NoneUnanswered(tasks, round, v.inner.opNum)
    ensures
      var b' := b.(pending := b.pending[v.inner.opNum := queue]);
      TokensBut(tasks + multiset{VerifyVote(round, v)}, b', round, None)
  {
    var k, more := v.inner.opNum, tasks + multiset{VerifyVote(round, v)};
    var b' := b.(pending := b.pending[k := queue]);
    assert OnlyUnanswered(more, round, k, v);
    forall j: nat | j != k ensures TokenOf(more, b', round, j) {
      assert TokenOf(tasks, b, round, j);
      if j in b.pending {
        var w :| OnlyUnanswered(tasks, round, j, w);
        assert OnlyUnanswered(more, round, j, w);
      }
    }
  }

  lemma TokenDropped(tasks: multiset<Task>, b: Ballots, round: Round, k: nat)
    requires TokensBut(tasks, b, round, Some(k)) && NoneUnanswered(tasks, round, k)
    ensures TokensBut(tasks, b.(pending := b.pending - {k}), round, None)
  {
    var b' := b.(pending := b.pending - {k});
    forall j: nat ensures TokenOf(tasks, b', round, j) {
      if j != k { assert TokenOf(tasks, b, round, j); }
    }
  }

  /** Only the verifications of the round and the slots that have queues matter. */
  lemma TokensKept(tasks: multiset<Task>, tasks': multiset<Task>, b: Ballots, b': Ballots, round: Round, owing: Option<nat>)
    requires TokensBut(tasks, b, round, owing)
    requires b'.pending.Keys == b.pending.Keys
    requires forall v :: tasks'[VerifyVote(round, v)] == tasks[VerifyVote(round, v)]
    ensures TokensBut(tasks', b', round, owing)
    ensures owing.Some? && NoneUnanswered(tasks, round, owing.value) ==> NoneUnanswered(tasks', round, owing.value)
  {
    forall j: nat | Some(j) != owing ensures TokenOf(tasks', b', round, j) {
      assert TokenOf(tasks, b, round, j);
      assert j in b.pending <==> j in b.pending.Keys;
      assert j in b'.pending <==> j in b'.pending.Keys;
      if j in b.pending {
        var w :| OnlyUnanswered(tasks, round, j, w);
        assert OnlyUnanswered(tasks', round, j, w);
      }
    }
  }

  // The token across the queue of waiting votes

  lemma DrainTasks(r: Replica, round: Round, k: nat)
    ensures forall t: Task | !(t.VerifyVote? && t.round == round) :: Drain(r, round, k).out.tasks[t] == r.out.tasks[t]
    decreases if k in r.Ballots(round).pending then 1 + |r.Ballots(round).pending[k]| else 0
  {
    hide Wanted;
    var pending := r.Ballots(round).pending;
    if k in pending && pending[k] != [] {
      DrainAfter(r, round, k);
      DrainTasks(SetQueue(r, round, k, pending[k][..|pending[k]| - 1]), round, k);
    }
  }

  lemma DrainReturnsToken(c: Config, r: Replica, round: Round, k: nat)
    requires TokensBut(r.out.tasks, r.Ballots(round), round, Some(k)) && NoneUnanswered(r.out.tasks, round, k)
    requires k in r.Ballots(round).pending && BallotsOk(c, r.Ballots(round))
    requires r.status == Running
    ensures
      var r' := Drain(r, round, k);
      r'.status == Running ==>
        && TokensBut(r'.out.tasks, r'.Ballots(round), round, None)
        && (forall j | j in r'.Ballots(round).pending :: j in r.Ballots(round).pending)
        && (k < |r.log| && r.log[k].Votes(round) != map[] ==> k !in r'.Ballots(round).pending)
    decreases |r.Ballots(round).pending[k]|
  {
    hide BallotsOk, TokensBut, NoneUnanswered;
    var b := r.Ballots(round);
    var queue := b.pending[k];
    QueueAt(c, b, k);
    if queue == [] {
      TokenDropped(r.out.tasks, b, round, k);
    } else {
      var last := |queue| - 1;
      var r0 := SetQueue(r, round, k, queue[..last]);
      DrainAfter(r, round, k);
      if Submittable(r, round, queue[last].inner) {
        TokenTaken(r.out.tasks, b, round, queue[last], queue[..last]);
      } else if queue[last].inner.viewNum <= r.viewNum {
        QueueSet(c, b, k, queue[..last]);
        TokensKept(r.out.tasks, r.out.tasks, b, r0.Ballots(round), round, Some(k));
        DrainReturnsToken(c, r0, round, k);
      }
    }
  }

  // The token across one handler

  lemma RetainedVotes(quorums: map<nat, Table>, k: nat, digest: Digest, j: nat)
    ensures |TableOf(Retain(quorums, k, digest), j)| <= |TableOf(quorums, j)|
  {
    var kept, all := TableOf(Retain(quorums, k, digest), j), TableOf(quorums, j);
    assert kept.Keys <= all.Keys;
    assert all.Keys == kept.Keys + (all.Keys - kept.Keys);
    assert |kept| == |kept.Keys| && |all| == |all.Keys|;
  }

  /** A handler that verifies no vote and finishes none without emptying its table. */
  ghost predicate Harmless(r: Replica, r': Replica, round: Round) {
    && r'.Ballots(round).pending == r.Ballots(round).pending
    && (forall v :: r'.out.tasks[VerifyVote(round, v)] == r.out.tasks[VerifyVote(round, v)])
    && forall k: nat | k < |r'.log| && r'.log[k].Votes(round) != map[] ::
         || TableOf(r'.Ballots(round).quorums, k) == map[]
         || (&& k < |r.log| && r.log[k].Votes(round) != map[]
             && |TableOf(r'.Ballots(round).quorums, k)| <= |TableOf(r.Ballots(round).quorums, k)|)
  }

  lemma HarmlessKeepsRound(r: Replica, r': Replica, round: Round)
    requires RoundOk(r, round) && Harmless(r, r', round)
    ensures RoundOk(r', round)
  {
    hide TokensBut;
    TokensKept(r.out.tasks, r'.out.tasks, r.Ballots(round), r'.Ballots(round), round, None);
  }

  lemma CloseBatchesTasks(c: Config, r: Replica)
    ensures forall t: Task | !t.SignPrePrepare? :: CloseBatches(c, r).out.tasks[t] == r.out.tasks[t]
    decreases |r.requests|
  {
    if IsPrimary(c, r) && r.requests != [] && r.opNum <= r.commitNum + CONCURRENT_PRE_PREPARES {
      CloseBatchesTasks(c, CloseBatch(c, r));
    }
  }

  lemma InsertCommitTasks(c: Config, r: Replica, v: SignedVote)
    ensures forall t: Task | !t.SignPrePrepare? :: InsertCommit(c, r, v).out.tasks[t] == r.out.tasks[t]
  {
    var k, votes := v.inner.opNum, Counted(r, Committing, v);
    if |votes| >= c.Quorum() && k < |r.log| && r.log[k].commits == map[] && r.log[k].prepares != map[] {
      var r1 := DropTable(r, Committing, k).(log := r.log[k := r.log[k].(commits := votes)]);
      CloseBatchesTasks(c, ExecuteCommitted(c, r1));
    }
  }

  /** Inserting a vote leaves the other round alone. */
  lemma InsertHarmlessToOther(c: Config, r: Replica, round: Round, other: Round, v: SignedVote)
    requires round != other
    ensures Harmless(r, InsertVote(c, r, round, v), other)
  {
    if round.Preparing? { InsertPrepareHarmless(c, r, v); } else { InsertCommitHarmless(c, r, v); }
  }

  lemma InsertPrepareHarmless(c: Config, r: Replica, v: SignedVote)
    ensures Harmless(r, InsertPrepare(c, r, v), Committing)
  {
  }

  lemma InsertCommitHarmless(c: Config, r: Replica, v: SignedVote)
    ensures Harmless(r, InsertCommit(c, r, v), Preparing)
  {
    InsertCommitTasks(c, r, v);
  }

  /** While its own round is open, inserting a vote is harmless to it as well. */
  lemma InsertHarmlessToOpen(c: Config, r: Replica, round: Round, v: SignedVote)
    requires v.inner.opNum < |r.log| && r.log[v.inner.opNum].Votes(round) == map[]
    ensures Harmless(r, InsertVote(c, r, round, v), round)
    ensures InsertVote(c, r, round, v).status == r.status
  {
    if round.Preparing? { OpenPrepareHarmless(c, r, v); } else { OpenCommitHarmless(c, r, v); }
  }

  lemma OpenPrepareHarmless(c: Config, r: Replica, v: SignedVote)
    requires v.inner.opNum < |r.log| && r.log[v.inner.opNum].prepares == map[]
    ensures Harmless(r, InsertPrepare(c, r, v), Preparing) && InsertPrepare(c, r, v).status == r.status
  {
  }

  lemma OpenCommitHarmless(c: Config, r: Replica, v: SignedVote)
    requires v.inner.opNum < |r.log| && r.log[v.inner.opNum].commits == map[]
    ensures Harmless(r, InsertCommit(c, r, v), Committing) && InsertCommit(c, r, v).status == r.status
  {
    InsertCommitTasks(c, r, v);
  }

  /** The replica between consuming a verified vote and refilling the slot's token. */
  ghost predicate Owing(r: Replica, round: Round, k: nat) {
    && k in r.Ballots(round).pending
    && NoneUnanswered(r.out.tasks, round, k)
    && TokensBut(r.out.tasks, r.Ballots(round), round, Some(k))
  }

  /** The vote is counted: either its slot is open, or it is the one late vote.  Late or
      not, a commit never fails; a late prepare does when two votes are a quorum. */
  lemma InsertKeepsOwing(c: Config, r: Replica, round: Round, v: SignedVote)
    requires Owing(r, round, v.inner.opNum) && FewLate(r.log, r.Ballots(round), round)
    requires c.Quorum() >= 2 && r.status == Running
    ensures
      var r' := InsertVote(c, r, round, v);
      r'.status == Running || (r'.status == PreparedTwice && c.Quorum() == 2)
    ensures
      var r' := InsertVote(c, r, round, v);
      r'.status == Running ==>
      && Owing(r', round, v.inner.opNum)
      && (forall k: nat | k < |r'.log| && r'.log[k].Votes(round) != map[] ::
            |TableOf(r'.Ballots(round).quorums, k)| <= 1 &&
            (k != v.inner.opNum ==> LateVotes(r'.Ballots(round), k) <= 1))
  {
    hide NoneUnanswered, TokensBut, LateVotes;
    if round.Preparing? { PrepareKeepsOwing(c, r, v); } else { CommitKeepsOwing(c, r, v); }
  }

  /** Counting a prepare touches the table and the entry of its own slot only. */
  lemma CountedPrepare(c: Config, r: Replica, v: SignedVote)
    ensures
      var r', k := InsertPrepare(c, r, v), v.inner.opNum;
      && r'.prepares.pending == r.prepares.pending && |r'.log| == |r.log|
      && (forall w :: r'.out.tasks[VerifyVote(Preparing, w)] == r.out.tasks[VerifyVote(Preparing, w)])
      && (forall j: nat | j != k ::
            && TableOf(r'.prepares.quorums, j) == TableOf(r.prepares.quorums, j)
            && (j < |r.log| ==> r'.log[j].prepares == r.log[j].prepares))
      && (if k < |r.log| && r.log[k].prepares != map[] then
            && r'.log[k] == r.log[k] && TableOf(r'.prepares.quorums, k) == Counted(r, Preparing, v)
            && r'.status == if |Counted(r, Preparing, v)| + 1 < c.Quorum() then r.status else PreparedTwice
          else
            && r'.status == r.status
            && (k < |r.log| && r'.log[k].prepares != map[] ==> TableOf(r'.prepares.quorums, k) == map[]))
  {
    hide Counted;
  }

  lemma PrepareKeepsOwing(c: Config, r: Replica, v: SignedVote)
    requires Owing(r, Preparing, v.inner.opNum) && FewLate(r.log, r.prepares, Preparing)
    requires c.Quorum() >= 2 && r.status == Running
    ensures
      var r' := InsertPrepare(c, r, v);
      r'.status == Running || (r'.status == PreparedTwice && c.Quorum() == 2)
    ensures
      var r' := InsertPrepare(c, r, v);
      r'.status == Running ==>
      && Owing(r', Preparing, v.inner.opNum)
      && (forall k: nat | k < |r'.log| && r'.log[k].prepares != map[] ::
            |TableOf(r'.prepares.quorums, k)| <= 1 && (k != v.inner.opNum ==> LateVotes(r'.prepares, k) <= 1))
  {
    hide NoneUnanswered, TokensBut, InsertPrepare;
    var r', k := InsertPrepare(c, r, v), v.inner.opNum;
    CountedPrepare(c, r, v);
    TokensKept(r.out.tasks, r'.out.tasks, r.prepares, r'.prepares, Preparing, Some(k));
    if k < |r.log| && r.log[k].prepares != map[] {
      assert LateVotes(r.prepares, k) <= 1;
      assert TableOf(r.prepares.quorums, k) == map[];
    }
  }

  lemma CommitKeepsOwing(c: Config, r: Replica, v: SignedVote)
    requires Owing(r, Committing, v.inner.opNum) && FewLate(r.log, r.commits, Committing)
    requires c.Quorum() >= 2 && r.status == Running
    ensures
      var r' := InsertCommit(c, r, v);
      && r'.status == r.status && Owing(r', Committing, v.inner.opNum)
      && (forall k: nat | k < |r'.log| && r'.log[k].commits != map[] ::
            |TableOf(r'.commits.quorums, k)| <= 1 && (k != v.inner.opNum ==> LateVotes(r'.commits, k) <= 1))
  {
    hide NoneUnanswered, TokensBut;
    var r', k := InsertCommit(c, r, v), v.inner.opNum;
    InsertCommitTasks(c, r, v);
    TokensKept(r.out.tasks, r'.out.tasks, r.commits, r'.commits, Committing, Some(k));
    if k < |r.log| && r.log[k].commits != map[] {
      assert LateVotes(r.commits, k) <= 1;
      assert TableOf(r.commits.quorums, k) == map[];
    }
  }

  lemma VerifiedVoteKeepsRound(c: Config, r: Replica, round: Round, v: SignedVote)
    requires Owing(r, round, v.inner.opNum) && FewLate(r.log, r.Ballots(round), round)
    requires r.status == Running && c.Quorum() >= 2
    requires BallotsOk(c, InsertVote(c, r, round, v).Ballots(round))
    ensures
      var r' := Drain(InsertVote(c, r, round, v), round, v.inner.opNum);
      r'.status == Running ==> RoundOk(r', round)
  {
    hide NoneUnanswered, TokensBut, BallotsOk, InsertVote;
    InsertKeepsOwing(c, r, round, v);
    if InsertVote(c, r, round, v).status == Running {
      DrainReturnsToken(c, InsertVote(c, r, round, v), round, v.inner.opNum);
    }
  }

  lemma DrainHarmlessToOther(r: Replica, round: Round, other: Round, k: nat)
    requires round != other
    ensures Harmless(r, Drain(r, round, k), other)
  {
    DrainTasks(r, round, k);
  }

  lemma RecvVoteKeepsRound(r: Replica, round: Round, v: SignedVote)
    requires RoundOk(r, round)
    ensures RoundOk(OnRecvVote(r, round, v), round)
  {
    hide TokensBut;
    var k := v.inner.opNum;
    var b := r.Ballots(round);
    if k in b.pending {
      TokensKept(r.out.tasks, r.out.tasks, b, b.(pending := b.pending[k := b.pending[k] + [v]]), round, None);
    } else if Submittable(r, round, v.inner) {
      FreshSlot(r.out.tasks, b, round, k);
      TokenTaken(r.out.tasks, b, round, v, []);
    }
  }

  lemma FreshSlot(tasks: multiset<Task>, b: Ballots, round: Round, k: nat)
    requires TokensBut(tasks, b, round, None) && k !in b.pending
    ensures TokensBut(tasks, b, round, Some(k)) && NoneUnanswered(tasks, round, k)
  {
    assert TokenOf(tasks, b, round, k);
  }

  lemma RecvVoteHarmlessToOther(r: Replica, round: Round, other: Round, v: SignedVote)
    requires round != other
    ensures Harmless(r, OnRecvVote(r, round, v), other)
  {
    hide Wanted;
  }
}
