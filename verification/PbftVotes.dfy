/** No vote is lost: a vote that a running replica received is waiting, being verified, or
    counted, unless it is late, contradicts its slot, or its voter has voted again. */
module PbftVotes {
  import opened Wrappers
  import opened PbftTypes
  import opened PbftSpec
  import opened PbftLocal
  import opened PbftTokens
  import opened PbftProposals
  import opened PbftGuards
  import opened PbftSystem

  /** The votes of both rounds a replica was handed. */
  type Heard = set<(Round, SignedVote)>

  predicate Finished(log: seq<LogEntry>, round: Round, k: nat) {
    k < |log| && log[k].Votes(round) != map[]
  }

  /** The slot has a pre-prepare, and it names another digest. */
  predicate Contradicts(log: seq<LogEntry>, v: Vote) {
    v.opNum < |log| && log[v.opNum].prePrepare.Some? && log[v.opNum].prePrepare.value.inner.digest != v.digest
  }

  predicate InTable(quorums: map<nat, Table>, v: SignedVote) {
    v.inner.opNum in quorums && v.inner.replicaId in quorums[v.inner.opNum]
    && quorums[v.inner.opNum][v.inner.replicaId] == v
  }

  predicate Waits(b: Ballots, v: SignedVote) {
    v.inner.opNum in b.pending && v in b.pending[v.inner.opNum]
  }

  /** A verifiable vote of the same voter for the same slot of this view. */
  predicate Stands(v: SignedVote, w: SignedVote) {
    w.inner.viewNum == 0 && w.inner.opNum == v.inner.opNum && w.inner.replicaId == v.inner.replicaId == w.signer
  }

  /** The voter's vote, this one or another one, is counted, or was until the pre-prepare came. */
  ghost predicate Settled(r: Replica, heard: Heard, round: Round, v: SignedVote) {
    exists w :: (round, w) in heard && Stands(v, w) && (InTable(r.Ballots(round).quorums, w) || Contradicts(r.log, w.inner))
  }

  ghost predicate Accounted(r: Replica, heard: Heard, round: Round, v: SignedVote) {
    || Waits(r.Ballots(round), v)
    || VerifyVote(round, v) in r.out.tasks
    || Finished(r.log, round, v.inner.opNum)
    || Contradicts(r.log, v.inner)
    || Settled(r, heard, round, v)
  }

  /** The votes of other replicas for this view, with the exception of one at most. */
  ghost predicate AllAccounted(r: Replica, heard: Heard, round: Round, but: Option<SignedVote>) {
    forall v | (round, v) in heard && v.inner.viewNum == 0 && v.inner.replicaId != r.id && Some(v) != but ::
      Accounted(r, heard, round, v)
  }

  /** Nothing is verified or waits that was not received. */
  ghost predicate OnlyHeard(r: Replica, heard: Heard, round: Round) {
    && (forall v | VerifyVote(round, v) in r.out.tasks :: (round, v) in heard)
    && (forall k <- r.Ballots(round).pending, v <- r.Ballots(round).pending[k] :: (round, v) in heard && v.inner.opNum == k)
  }

  ghost predicate RoundKept(r: Replica, heard: Heard, round: Round) {
    AllAccounted(r, heard, round, None) && OnlyHeard(r, heard, round)
  }

  ghost predicate VotesKept(r: Replica, heard: Heard) {
    RoundKept(r, heard, Preparing) && RoundKept(r, heard, Committing)
  }

  // Handlers that leave the votes of a round alone

  ghost predicate LogKeeps(log: seq<LogEntry>, log': seq<LogEntry>, round: Round) {
    && |log| <= |log'|
    && forall k: nat | k < |log| ::
         && (log[k].Votes(round) != map[] ==> log'[k].Votes(round) != map[])
         && (log[k].prePrepare.Some? ==> log'[k].prePrepare == log[k].prePrepare)
  }

  /** At most votes that contradict their slot are taken out of the tables. */
  ghost predicate Still(r: Replica, r': Replica, round: Round) {
    && r'.id == r.id && r'.Ballots(round).pending == r.Ballots(round).pending
    && (forall w | InTable(r.Ballots(round).quorums, w) :: InTable(r'.Ballots(round).quorums, w) || Contradicts(r'.log, w.inner))
    && (forall v :: r'.out.tasks[VerifyVote(round, v)] == r.out.tasks[VerifyVote(round, v)])
    && LogKeeps(r.log, r'.log, round)
  }

  lemma StillKept(r: Replica, r': Replica, heard: Heard, round: Round)
    requires RoundKept(r, heard, round) && Still(r, r', round)
    ensures RoundKept(r', heard, round)
  {
    forall v | (round, v) in heard && v.inner.viewNum == 0 && v.inner.replicaId != r.id ensures Accounted(r', heard, round, v) {
      assert Accounted(r, heard, round, v);
      StillAccounted(r, r', heard, round, v);
    }
    forall v | VerifyVote(round, v) in r'.out.tasks ensures (round, v) in heard {
      assert r'.out.tasks[VerifyVote(round, v)] == r.out.tasks[VerifyVote(round, v)];
    }
  }

  lemma StillAccounted(r: Replica, r': Replica, heard: Heard, round: Round, v: SignedVote)
    requires Accounted(r, heard, round, v) && Still(r, r', round)
    ensures Accounted(r', heard, round, v)
  {
    assert r'.out.tasks[VerifyVote(round, v)] == r.out.tasks[VerifyVote(round, v)];
    if Settled(r, heard, round, v) {
      var w :| (round, w) in heard && Stands(v, w) && (InTable(r.Ballots(round).quorums, w) || Contradicts(r.log, w.inner));
      assert InTable(r'.Ballots(round).quorums, w) || Contradicts(r'.log, w.inner);
    }
  }

  // A vote is received

  lemma HeardMore(r: Replica, heard: Heard, heard': Heard, round: Round, but: Option<SignedVote>)
    requires AllAccounted(r, heard, round, but) && OnlyHeard(r, heard, round) && heard <= heard'
    requires forall v | (round, v) in heard' - heard :: Some(v) == but || v.inner.viewNum != 0
    ensures AllAccounted(r, heard', round, but) && OnlyHeard(r, heard', round)
  {
    forall v | (round, v) in heard' && v.inner.viewNum == 0 && v.inner.replicaId != r.id && Some(v) != but
      ensures Accounted(r, heard', round, v)
    {
      assert (round, v) in heard;
      assert Accounted(r, heard, round, v);
    }
  }

  /** Queues and verifications only grow. */
  ghost predicate Longer(r: Replica, r': Replica, round: Round) {
    && r'.id == r.id && r'.log == r.log && r'.Ballots(round).quorums == r.Ballots(round).quorums
    && (forall v | Waits(r.Ballots(round), v) :: Waits(r'.Ballots(round), v))
    && (forall v | VerifyVote(round, v) in r.out.tasks :: VerifyVote(round, v) in r'.out.tasks)
  }

  lemma LongerAccounted(r: Replica, r': Replica, heard: Heard, heard': Heard, round: Round, w: SignedVote)
    requires Accounted(r, heard, round, w) && Longer(r, r', round) && heard <= heard'
    ensures Accounted(r', heard', round, w)
  {
    if Settled(r, heard, round, w) {
      var x :| (round, x) in heard && Stands(w, x) && (InTable(r.Ballots(round).quorums, x) || Contradicts(r.log, x.inner));
      assert (round, x) in heard';
    }
  }

  lemma LongerKept(r: Replica, r': Replica, heard: Heard, round: Round, v: SignedVote)
    requires AllAccounted(r, heard, round, None) && Longer(r, r', round) && OnlyHeard(r', heard + {(round, v)}, round)
    requires v.inner.viewNum == 0 ==> Accounted(r', heard + {(round, v)}, round, v)
    ensures RoundKept(r', heard + {(round, v)}, round)
  {
    hide Accounted, Longer, OnlyHeard;
    var heard' := heard + {(round, v)};
    assert r'.id == r.id by { LongerId(r, r', round); }
    forall w: SignedVote | (round, w) in heard' && w.inner.viewNum == 0 && w.inner.replicaId != r'.id
      ensures Accounted(r', heard', round, w)
    {
      if w != v {
        LongerAccounted(r, r', heard, heard', round, w);
      }
    }
  }

  lemma LongerId(r: Replica, r': Replica, round: Round)
    requires Longer(r, r', round)
    ensures r'.id == r.id
  {
  }

  lemma JoinsQueue(r: Replica, heard: Heard, round: Round, v: SignedVote)
    requires RoundKept(r, heard, round) && v.inner.opNum in r.Ballots(round).pending
    ensures
      var r' := SetQueue(r, round, v.inner.opNum, r.Ballots(round).pending[v.inner.opNum] + [v]);
      RoundKept(r', heard + {(round, v)}, round)
  {
    hide AllAccounted, Contradicts, Settled;
    var k := v.inner.opNum;
    var queue := r.Ballots(round).pending[k];
    var r' := SetQueue(r, round, k, queue + [v]);
    assert r'.Ballots(round).pending == r.Ballots(round).pending[k := queue + [v]];
    assert forall w :: w in queue + [v] <==> w in queue || w == v;
    LongerKept(r, r', heard, round, v);
  }

  lemma StartsQueue(r: Replica, heard: Heard, round: Round, v: SignedVote)
    requires RoundKept(r, heard, round) && v.inner.opNum !in r.Ballots(round).pending
    ensures RoundKept(SetQueue(Submit(r, VerifyVote(round, v)), round, v.inner.opNum, []), heard + {(round, v)}, round)
  {
    hide AllAccounted, Contradicts, Settled;
    var k := v.inner.opNum;
    var r' := SetQueue(Submit(r, VerifyVote(round, v)), round, k, []);
    assert r'.Ballots(round).pending == r.Ballots(round).pending[k := []];
    LongerKept(r, r', heard, round, v);
  }

  lemma Refused(r: Replica, heard: Heard, round: Round, v: SignedVote)
    requires RoundKept(r, heard, round) && (Wanted(r, round, v.inner) ==> v.inner.viewNum != 0)
    ensures RoundKept(r, heard + {(round, v)}, round)
  {
    hide AllAccounted, Settled;
    LongerKept(r, r, heard, round, v);
  }

  /** What a received vote does to its round: it waits, is verified, or is refused. */
  lemma ReceivedKept(r: Replica, heard: Heard, round: Round, v: SignedVote)
    requires RoundKept(r, heard, round) && r.viewNum == 0
    requires OnRecvVote(r, round, v).status == r.status == Running
    ensures RoundKept(OnRecvVote(r, round, v), heard + {(round, v)}, round)
  {
    hide RoundKept, Wanted;
    if v.inner.opNum in r.Ballots(round).pending {
      JoinsQueue(r, heard, round, v);
    } else if Submittable(r, round, v.inner) {
      StartsQueue(r, heard, round, v);
    } else {
      Refused(r, heard, round, v);
    }
  }

  lemma ReceivedStill(r: Replica, round: Round, other: Round, v: SignedVote)
    requires round != other
    ensures Still(r, OnRecvVote(r, round, v), other)
  {
    hide Wanted;
  }

  // A vote is verified

  lemma AnsweredKept(r: Replica, heard: Heard, round: Round, v: SignedVote)
    requires RoundKept(r, heard, round)
    ensures
      var r0 := Answer(r, VerifyVote(round, v));
      AllAccounted(r0, heard, round, Some(v)) && OnlyHeard(r0, heard, round)
  {
    var r0 := Answer(r, VerifyVote(round, v));
    assert r0.Ballots(round) == r.Ballots(round);
    forall w: SignedVote | (round, w) in heard && w.inner.viewNum == 0 && w.inner.replicaId != r.id && w != v ensures Accounted(r0, heard, round, w) {
      assert Accounted(r, heard, round, w);
      if Settled(r, heard, round, w) {
        assert Settled(r0, heard, round, w);
      }
    }
  }

  /** After a vote was counted its table, or the log, has it; the others stay. */
  ghost predicate CountsOne(r: Replica, r': Replica, round: Round, v: SignedVote) {
    && r'.id == r.id && r'.Ballots(round).pending == r.Ballots(round).pending
    && (forall w :: r'.out.tasks[VerifyVote(round, w)] == r.out.tasks[VerifyVote(round, w)])
    && LogKeeps(r.log, r'.log, round)
    && (InTable(r'.Ballots(round).quorums, v) || Finished(r'.log, round, v.inner.opNum))
    && (forall w | InTable(r.Ballots(round).quorums, w) && !(w.inner.opNum == v.inner.opNum && w.inner.replicaId == v.inner.replicaId) ::
          InTable(r'.Ballots(round).quorums, w) || Finished(r'.log, round, w.inner.opNum))
  }

  lemma PrepareCounts(c: Config, r: Replica, v: SignedVote)
    requires InsertPrepare(c, r, v).status == r.status == Running
    ensures CountsOne(r, InsertPrepare(c, r, v), Preparing, v)
  {
    assert v.inner.replicaId in Counted(r, Preparing, v);
  }

  lemma CommitCounts(c: Config, r: Replica, v: SignedVote)
    requires InsertCommit(c, r, v).status == r.status == Running
    ensures CountsOne(r, InsertCommit(c, r, v), Committing, v)
  {
    hide InsertCommit, Counted, Commits;
    var r', votes := InsertCommit(c, r, v), Counted(r, Committing, v);
    InsertCommitLog(c, r, v);
    InsertCommitTasks(c, r, v);
    InsertCommitRest(c, r, v);
    CountedHas(r, Committing, v);
    CommitsSlot(c, r, v);
    assert forall w :: r'.out.tasks[VerifyVote(Committing, w)] == r.out.tasks[VerifyVote(Committing, w)];
    if Commits(c, r, v) {
      assert r'.log[v.inner.opNum].commits == votes && votes != map[];
    }
  }

  lemma CommitsSlot(c: Config, r: Replica, v: SignedVote)
    ensures Commits(c, r, v) ==> v.inner.opNum < |r.log| && r.log[v.inner.opNum].commits == map[]
  {
  }

  lemma CountedHas(r: Replica, round: Round, v: SignedVote)
    ensures
      var votes := Counted(r, round, v);
      && v.inner.replicaId in votes && votes[v.inner.replicaId] == v && votes != map[]
      && (forall w: SignedVote | InTable(r.Ballots(round).quorums, w) && w.inner.opNum == v.inner.opNum
                                 && w.inner.replicaId != v.inner.replicaId ::
            w.inner.replicaId in votes && votes[w.inner.replicaId] == w)
  {
  }

  lemma InsertCommitRest(c: Config, r: Replica, v: SignedVote)
    ensures
      var r' := InsertCommit(c, r, v);
      r'.id == r.id && r'.commits.pending == r.commits.pending && r'.prepares == r.prepares && r'.viewNum == r.viewNum
  {
  }

  lemma InsertCounts(c: Config, r: Replica, round: Round, v: SignedVote)
    requires InsertVote(c, r, round, v).status == r.status == Running
    ensures CountsOne(r, InsertVote(c, r, round, v), round, v)
  {
    if round.Preparing? { PrepareCounts(c, r, v); } else { CommitCounts(c, r, v); }
  }

  lemma CountedKept(r: Replica, r': Replica, heard: Heard, round: Round, v: SignedVote)
    requires AllAccounted(r, heard, round, Some(v)) && OnlyHeard(r, heard, round) && CountsOne(r, r', round, v)
    requires (round, v) in heard && v.signer == v.inner.replicaId && v.inner.viewNum == 0
    ensures RoundKept(r', heard, round)
  {
    forall w: SignedVote | (round, w) in heard && w.inner.viewNum == 0 && w.inner.replicaId != r.id ensures Accounted(r', heard, round, w) {
      if w == v {
        assert Stands(v, v);
      } else {
        assert Accounted(r, heard, round, w);
        OthersAccounted(r, r', heard, round, v, w);
      }
    }
    forall w | VerifyVote(round, w) in r'.out.tasks ensures (round, w) in heard {
      assert r'.out.tasks[VerifyVote(round, w)] == r.out.tasks[VerifyVote(round, w)];
    }
  }

  lemma OthersAccounted(r: Replica, r': Replica, heard: Heard, round: Round, v: SignedVote, w: SignedVote)
    requires Accounted(r, heard, round, w) && CountsOne(r, r', round, v)
    requires (round, v) in heard && v.signer == v.inner.replicaId && v.inner.viewNum == 0
    ensures Accounted(r', heard, round, w)
  {
    assert r'.out.tasks[VerifyVote(round, w)] == r.out.tasks[VerifyVote(round, w)];
    if Settled(r, heard, round, w) {
      var x :| (round, x) in heard && Stands(w, x) && (InTable(r.Ballots(round).quorums, x) || Contradicts(r.log, x.inner));
      if InTable(r.Ballots(round).quorums, x) {
        if x.inner.opNum == v.inner.opNum && x.inner.replicaId == v.inner.replicaId {
          assert Stands(w, v);
        }
      } else {
        assert Contradicts(r'.log, x.inner);
      }
    }
  }

  /** The own vote takes only the replica's own place. */
  lemma OwnCountedKept(r: Replica, r': Replica, heard: Heard, round: Round, v: SignedVote)
    requires RoundKept(r, heard, round) && CountsOne(r, r', round, v) && v.inner.replicaId == r.id
    ensures RoundKept(r', heard, round)
  {
    forall w: SignedVote | (round, w) in heard && w.inner.viewNum == 0 && w.inner.replicaId != r.id ensures Accounted(r', heard, round, w) {
      assert Accounted(r, heard, round, w);
      assert r'.out.tasks[VerifyVote(round, w)] == r.out.tasks[VerifyVote(round, w)];
      if Settled(r, heard, round, w) {
        var x :| (round, x) in heard && Stands(w, x) && (InTable(r.Ballots(round).quorums, x) || Contradicts(r.log, x.inner));
        assert InTable(r'.Ballots(round).quorums, x) || Finished(r'.log, round, x.inner.opNum) || Contradicts(r'.log, x.inner);
      }
    }
    forall w | VerifyVote(round, w) in r'.out.tasks ensures (round, w) in heard {
      assert r'.out.tasks[VerifyVote(round, w)] == r.out.tasks[VerifyVote(round, w)];
    }
  }

  // The waiting votes are drained

  /** The last waiting vote leaves the queue: verified, refused, or the replica stops. */
  lemma PoppedKept(r: Replica, r1: Replica, heard: Heard, round: Round, k: nat, v: SignedVote)
    requires RoundKept(r, heard, round) && k in r.Ballots(round).pending && r.Ballots(round).pending[k] != []
    requires v == r.Ballots(round).pending[k][|r.Ballots(round).pending[k]| - 1]
    requires
      var r0 := SetQueue(r, round, k, r.Ballots(round).pending[k][..|r.Ballots(round).pending[k]| - 1]);
      r1 == r0 || r1 == Submit(r0, VerifyVote(round, v))
    requires v.inner.viewNum == 0 ==> Accounted(r1, heard, round, v)
    ensures RoundKept(r1, heard, round)
  {
    hide Contradicts, Finished;
    var queue := r.Ballots(round).pending[k];
    assert v in queue && (round, v) in heard;
    assert queue == queue[..|queue| - 1] + [v];
    assert r1.Ballots(round).pending == r.Ballots(round).pending[k := queue[..|queue| - 1]];
    assert r1.Ballots(round).quorums == r.Ballots(round).quorums;
    forall w: SignedVote | (round, w) in heard && w.inner.viewNum == 0 && w.inner.replicaId != r.id && w != v
      ensures Accounted(r1, heard, round, w)
    {
      assert Accounted(r, heard, round, w);
      if Settled(r, heard, round, w) {
        assert Settled(r1, heard, round, w);
      }
    }
  }

  lemma SubmitKept(r: Replica, heard: Heard, round: Round, k: nat)
    requires RoundKept(r, heard, round) && r.viewNum == 0 && r.status == Running
    requires k in r.Ballots(round).pending && r.Ballots(round).pending[k] != []
    ensures
      var queue := r.Ballots(round).pending[k];
      var last := |queue| - 1;
      var r1 := SubmitVote(SetQueue(r, round, k, queue[..last]), round, queue[last]);
      r1.status == Running ==> RoundKept(r1, heard, round)
  {
    hide RoundKept, Settled;
    var queue := r.Ballots(round).pending[k];
    var last := |queue| - 1;
    var v := queue[last];
    var r0 := SetQueue(r, round, k, queue[..last]);
    var r1 := SubmitVote(r0, round, v);
    if r1.status == Running {
      PoppedKept(r, r1, heard, round, k, v);
    }
  }

  lemma SubmitRefused(r: Replica, round: Round, v: SignedVote)
    requires !Submittable(r, round, v.inner) && v.inner.viewNum <= r.viewNum
    ensures SubmitVote(r, round, v) == r
  {
  }

  lemma EmptyQueueKept(r: Replica, heard: Heard, round: Round, k: nat)
    requires RoundKept(r, heard, round) && k in r.Ballots(round).pending && r.Ballots(round).pending[k] == []
    ensures RoundKept(DropQueue(r, round, k), heard, round)
  {
    var r' := DropQueue(r, round, k);
    forall w: SignedVote | (round, w) in heard && w.inner.viewNum == 0 && w.inner.replicaId != r.id ensures Accounted(r', heard, round, w) {
      assert Accounted(r, heard, round, w);
      if Settled(r, heard, round, w) {
        assert Settled(r', heard, round, w);
      }
    }
  }

  lemma {:induction false} DrainKept(r: Replica, heard: Heard, round: Round, k: nat)
    requires RoundKept(r, heard, round) && r.viewNum == 0 && r.status == Running
    ensures Drain(r, round, k).status == Running ==> RoundKept(Drain(r, round, k), heard, round)
    decreases if k in r.Ballots(round).pending then 1 + |r.Ballots(round).pending[k]| else 0
  {
    hide RoundKept, Wanted, SubmitVote;
    var pending := r.Ballots(round).pending;
    if k in pending {
      if pending[k] == [] {
        EmptyQueueKept(r, heard, round, k);
      } else {
        var last := |pending[k]| - 1;
        var r1 := SubmitVote(SetQueue(r, round, k, pending[k][..last]), round, pending[k][last]);
        var v: SignedVote := pending[k][last];
        SubmitKept(r, heard, round, k);
        DrainAfter(r, round, k);
        if !Submittable(r, round, v.inner) && v.inner.viewNum <= r.viewNum {
          SameWanted(r, SetQueue(r, round, k, pending[k][..last]), round, v.inner);
          SubmitRefused(SetQueue(r, round, k, pending[k][..last]), round, v);
          DrainKept(r1, heard, round, k);
        }
      }
    }
  }

  lemma DrainStill(r: Replica, round: Round, other: Round, k: nat)
    requires round != other
    ensures Still(r, Drain(r, round, k), other)
  {
    DrainTasks(r, round, k);
  }

  // The other events

  lemma AcceptStill(r: Replica, p: SignedPrePrepare, batch: seq<Request>, round: Round)
    ensures Still(r, OnVerifiedPrePrepare(r, p, batch), round)
  {
    var r', k := OnVerifiedPrePrepare(r, p, batch), p.inner.opNum;
    forall w | InTable(r.Ballots(round).quorums, w)
      ensures InTable(r'.Ballots(round).quorums, w) || Contradicts(r'.log, w.inner)
    {
      RetainedTable(r.Ballots(round).quorums, k, p.inner.digest, w);
    }
  }

  lemma RetainedTable(quorums: map<nat, Table>, k: nat, digest: Digest, w: SignedVote)
    ensures InTable(Retain(quorums, k, digest), w) <==> InTable(quorums, w) && (w.inner.opNum == k ==> w.inner.digest == digest)
  {
  }

  lemma ProposeStill(r: Replica, p: SignedPrePrepare, batch: seq<Request>, round: Round)
    requires !SlotTaken(r.log, p.inner.opNum)
    ensures Still(r, OnSignedPrePrepare(r, p, batch), round)
  {
  }

  lemma RequestStill(c: Config, r: Replica, q: Request, round: Round)
    ensures Still(r, OnRequest(c, r, q), round)
  {
    hide Fresh;
  }

  lemma RecvPrePrepareStill(r: Replica, p: SignedPrePrepare, batch: seq<Request>, round: Round)
    ensures Still(r, OnRecvPrePrepare(r, p, batch), round)
  {
  }

  lemma AnswerStill(r: Replica, t: Task, round: Round)
    requires !t.VerifyVote? || t.round != round
    ensures Still(r, Answer(r, t), round)
  {
  }

  lemma BroadcastStill(r: Replica, m: Message, round: Round)
    ensures Still(r, Broadcast(r, m), round)
  {
  }

  lemma InsertStill(c: Config, r: Replica, round: Round, other: Round, v: SignedVote)
    requires round != other
    ensures Still(r, InsertVote(c, r, round, v), other)
  {
    if round.Preparing? {
      InsertPrepareLog(c, r, v);
    } else {
      InsertCommitLog(c, r, v);
      InsertCommitTasks(c, r, v);
    }
  }

  // All events together

  function HeardOf(e: Event): Heard {
    if e.Recv? && e.message.VoteMsg? then {(e.message.round, e.message.vote)} else {}
  }

  lemma HeardOther(r: Replica, heard: Heard, round: Round, other: Round, v: SignedVote)
    requires RoundKept(r, heard, other) && round != other
    ensures RoundKept(r, heard + {(round, v)}, other)
  {
    hide Accounted;
    HeardMore(r, heard, heard + {(round, v)}, other, None);
  }

  lemma RecvVoteVotes(r: Replica, heard: Heard, round: Round, other: Round, v: SignedVote)
    requires VotesKept(r, heard) && r.viewNum == 0 && round != other
    requires OnRecvVote(r, round, v).status == r.status == Running
    ensures VotesKept(OnRecvVote(r, round, v), heard + {(round, v)})
  {
    hide RoundKept, OnRecvVote, Still;
    ReceivedKept(r, heard, round, v);
    ReceivedStill(r, round, other, v);
    StillKept(r, OnRecvVote(r, round, v), heard, other);
    HeardOther(OnRecvVote(r, round, v), heard, round, other, v);
  }

  lemma SignedVoteVotes(c: Config, r: Replica, heard: Heard, round: Round, other: Round, v: SignedVote)
    requires VotesKept(r, heard) && r.viewNum == 0 && round != other && v.inner.replicaId == r.id
    requires OnSignedVote(c, r, round, v).status == r.status == Running
    ensures VotesKept(OnSignedVote(c, r, round, v), heard)
  {
    hide RoundKept, InsertVote, Still, CountsOne;
    var r1 := Broadcast(r, VoteMsg(round, v));
    BroadcastStill(r, VoteMsg(round, v), round);
    BroadcastStill(r, VoteMsg(round, v), other);
    StillKept(r, r1, heard, round);
    StillKept(r, r1, heard, other);
    if v.inner.viewNum == r.viewNum && r.log[v.inner.opNum].Votes(round) == map[] {
      var r2 := InsertVote(c, r1, round, v);
      InsertCounts(c, r1, round, v);
      OwnCountedKept(r1, r2, heard, round, v);
      InsertStill(c, r1, round, other, v);
      StillKept(r1, r2, heard, other);
    }
  }

  lemma VerifiedVoteVotes(c: Config, r: Replica, heard: Heard, round: Round, other: Round, v: SignedVote)
    requires VotesKept(r, heard) && r.viewNum == 0 && round != other && VerifyVote(round, v) in r.out.tasks
    requires v.signer == v.inner.replicaId && v.inner.viewNum == 0
    requires OnVerifiedVote(c, Answer(r, VerifyVote(round, v)), round, v).status == r.status == Running
    ensures VotesKept(OnVerifiedVote(c, Answer(r, VerifyVote(round, v)), round, v), heard)
  {
    hide RoundKept, InsertVote, Still, CountsOne, AllAccounted, OnlyHeard;
    var r0 := Answer(r, VerifyVote(round, v));
    var r1 := InsertVote(c, r0, round, v);
    var r2 := Drain(r1, round, v.inner.opNum);
    TaskHeard(r, heard, round, v);
    AnsweredKept(r, heard, round, v);
    AnswerStill(r, VerifyVote(round, v), other);
    StillKept(r, r0, heard, other);
    InsertCounts(c, r0, round, v);
    CountedKept(r0, r1, heard, round, v);
    InsertStill(c, r0, round, other, v);
    StillKept(r0, r1, heard, other);
    assert r1.viewNum == 0 by { InsertView(c, r0, round, v); }
    DrainKept(r1, heard, round, v.inner.opNum);
    DrainStill(r1, round, other, v.inner.opNum);
    StillKept(r1, r2, heard, other);
  }

  lemma TaskHeard(r: Replica, heard: Heard, round: Round, v: SignedVote)
    requires RoundKept(r, heard, round) && VerifyVote(round, v) in r.out.tasks
    ensures (round, v) in heard
  {
  }

  lemma InsertView(c: Config, r: Replica, round: Round, v: SignedVote)
    ensures InsertVote(c, r, round, v).viewNum == r.viewNum
  {
  }

  lemma StillBoth(r: Replica, r': Replica, heard: Heard)
    requires VotesKept(r, heard) && Still(r, r', Preparing) && Still(r, r', Committing)
    ensures VotesKept(r', heard)
  {
    hide RoundKept, Still;
    StillKept(r, r', heard, Preparing);
    StillKept(r, r', heard, Committing);
  }

  lemma VotesStep(c: Config, r: Replica, e: Event, heard: Heard)
    requires VotesKept(r, heard) && Local(c, r) && Enabled(c, r, e) && Handle(c, r, e).status == Running
    ensures VotesKept(Handle(c, r, e), heard + HeardOf(e))
  {
    hide VotesKept, Still, OnRequest, OnRecvPrePrepare, OnRecvVote, OnSignedPrePrepare, OnVerifiedPrePrepare, OnSignedVote, OnVerifiedVote,
         LogOk, BallotsOk, TokenInvariant, SentInLog, LogSent, NoOwnToVerify, TasksOk;
    var r' := Handle(c, r, e);
    assert !(e.Recv? && e.message.VoteMsg?) ==> heard + HeardOf(e) == heard;
    match e
    case Recv(RequestMsg(q)) =>
      RequestStill(c, r, q, Preparing);
      RequestStill(c, r, q, Committing);
      StillBoth(r, r', heard);
    case Recv(PrePrepareMsg(p, batch)) =>
      RecvPrePrepareStill(r, p, batch, Preparing);
      RecvPrePrepareStill(r, p, batch, Committing);
      StillBoth(r, r', heard);
    case Recv(VoteMsg(round, v)) => RecvVoteVotes(r, heard, round, if round.Preparing? then Committing else Preparing, v);
    case Done(t) => DoneVotes(c, r, t, heard);
  }

  lemma DoneVotes(c: Config, r: Replica, t: Task, heard: Heard)
    requires VotesKept(r, heard) && Local(c, r) && Enabled(c, r, Done(t)) && Handle(c, r, Done(t)).status == Running
    ensures VotesKept(Handle(c, r, Done(t)), heard)
  {
    hide VotesKept, Still, OnSignedPrePrepare, OnVerifiedPrePrepare, OnSignedVote, OnVerifiedVote, LogOk, BallotsOk, TokenInvariant,
         SentInLog, LogSent, NoOwnToVerify, TasksOk;
    var r0, r' := Answer(r, t), Handle(c, r, Done(t));
    TaskAt(r, t);
    if !t.VerifyVote? {
      AnswerStill(r, t, Preparing);
      AnswerStill(r, t, Committing);
      StillBoth(r, r0, heard);
    }
    match t
    case SignPrePrepare(w, k, batch) =>
      assert !SlotTaken(r.log, k);
      var p := SignedPrePrepare(PrePrepare(w, k, Sha256(batch)), r.id);
      ProposeStill(r0, p, batch, Preparing);
      ProposeStill(r0, p, batch, Committing);
      StillBoth(r0, r', heard);
    case VerifyPrePrepare(p, batch) =>
      AcceptStill(r0, p, batch, Preparing);
      AcceptStill(r0, p, batch, Committing);
      StillBoth(r0, r', heard);
    case SignVote(round, v) =>
      SignedVoteVotes(c, r0, heard, round, if round.Preparing? then Committing else Preparing, SignedVote(v, r.id));
    case VerifyVote(round, v) =>
      VerifiedVoteVotes(c, r, heard, round, if round.Preparing? then Committing else Preparing, v);
  }

  // Runs

  /** What replica i was handed while it was running. */
  ghost function HeardBy(u: Setup, actions: seq<Action>, i: nat): Heard {
    if actions == [] then {}
    else
      var before, a := actions[..|actions| - 1], actions[|actions| - 1];
      HeardBy(u, before, i) + if a.Act? && a.replica == i && Allowed(u, After(u, before), a) then HeardOf(a.event) else {}
  }

  lemma {:induction false} VotesRun(u: Setup, actions: seq<Action>, i: nat)
    requires u.c.Quorum() >= 2 && u.Correct(i) && After(u, actions).replicas[i].status == Running
    ensures VotesKept(After(u, actions).replicas[i], HeardBy(u, actions, i))
  {
    hide VotesKept, Local, Handle, Forgeable, HeardOf, InNetwork;
    if actions == [] {
      NothingHeard(i, u.app);
    } else {
      var n := |actions| - 1;
      var s, a := After(u, actions[..n]), actions[n];
      if a.Act? && a.replica == i && Allowed(u, s, a) {
        VotesRun(u, actions[..n], i);
        RunReliable(u, actions[..n]);
        assert Local(u.c, s.replicas[i]);
        VotesStep(u.c, s.replicas[i], a.event, HeardBy(u, actions[..n], i));
      } else {
        assert After(u, actions).replicas[i] == s.replicas[i];
        VotesRun(u, actions[..n], i);
        assert HeardBy(u, actions, i) == HeardBy(u, actions[..n], i);
      }
    }
  }

  lemma NothingHeard(i: nat, app: AppState)
    ensures VotesKept(NewReplica(i, app), {})
  {
  }

  /** In every run, a vote of another replica that a running replica was handed waits for the
      vote that is being verified, is itself being verified, or its voter is counted in the
      table of the slot, by this vote or another one; or the slot is finished, or its
      pre-prepare names another digest than the vote. */
  lemma VotesConserved(u: Setup, actions: seq<Action>, i: nat, round: Round, v: SignedVote)
    requires u.c.Quorum() >= 2 && u.Correct(i) && After(u, actions).replicas[i].status == Running
    requires (round, v) in HeardBy(u, actions, i) && v.inner.viewNum == 0 && v.inner.replicaId != i
    ensures Accounted(After(u, actions).replicas[i], HeardBy(u, actions, i), round, v)
  {
    hide Accounted, Local, HeardBy, After;
    VotesRun(u, actions, i);
    RunReliable(u, actions);
    assert After(u, actions).replicas[i].id == i;
  }

  // Single events

  /** A vote that meets an unanswered verification of its slot joins the votes waiting there,
      and nothing else changes. */
  lemma WaitingVoteJoins(c: Config, r: Replica, round: Round, v: SignedVote)
    requires Enabled(c, r, Recv(VoteMsg(round, v))) && v.inner.opNum in r.Ballots(round).pending
    ensures
      var r', k := Handle(c, r, Recv(VoteMsg(round, v))), v.inner.opNum;
      && k in r'.Ballots(round).pending
      && multiset(r'.Ballots(round).pending[k]) == multiset(r.Ballots(round).pending[k]) + multiset{v}
      && r'.Ballots(round).quorums == r.Ballots(round).quorums
      && r'.Ballots(round).pending - {k} == r.Ballots(round).pending - {k}
      && SetBallots(r', round, r.Ballots(round)) == r
  {
  }

  /** A verified vote takes its voter's place in the table of its slot, or in the log if it
      completes the quorum. */
  lemma VerifiedVoteIsCounted(c: Config, r: Replica, round: Round, v: SignedVote)
    requires Local(c, r) && Enabled(c, r, Done(VerifyVote(round, v)))
    requires Handle(c, r, Done(VerifyVote(round, v))).status == Running
    ensures
      var r', k, j := Handle(c, r, Done(VerifyVote(round, v))), v.inner.opNum, v.inner.replicaId;
      || InTable(r'.Ballots(round).quorums, v)
      || (k < |r'.log| && j in r'.log[k].Votes(round) && r'.log[k].Votes(round)[j] == v)
  {
    hide TokenInvariant, Proposals, LogOk, BallotsOk, TasksOk, InsertVote;
    TaskAt(r, VerifyVote(round, v));
    var r0 := Answer(r, VerifyVote(round, v));
    InsertTakes(c, r0, round, v);
  }

  lemma InsertTakes(c: Config, r: Replica, round: Round, v: SignedVote)
    requires InsertVote(c, r, round, v).status == r.status == Running
    ensures
      var r', k, j := InsertVote(c, r, round, v), v.inner.opNum, v.inner.replicaId;
      || InTable(r'.Ballots(round).quorums, v)
      || (k < |r'.log| && j in r'.log[k].Votes(round) && r'.log[k].Votes(round)[j] == v)
  {
    if round.Preparing? {
      InsertPrepareLog(c, r, v);
    } else {
      InsertCommitLog(c, r, v);
    }
    CountedHas(r, round, v);
  }

  /** When a pre-prepare is accepted, exactly the early votes for its digest stay. */
  lemma EarlyVotesFiltered(c: Config, r: Replica, p: SignedPrePrepare, batch: seq<Request>, round: Round, v: SignedVote)
    requires Local(c, r) && Enabled(c, r, Done(VerifyPrePrepare(p, batch)))
    requires !SlotTaken(r.log, p.inner.opNum)
    ensures
      var r' := Handle(c, r, Done(VerifyPrePrepare(p, batch)));
      && SlotTaken(r'.log, p.inner.opNum)
      && (InTable(r'.Ballots(round).quorums, v) <==>
            InTable(r.Ballots(round).quorums, v) && (v.inner.opNum == p.inner.opNum ==> v.inner.digest == p.inner.digest))
  {
    hide TokenInvariant, Proposals, LogOk, BallotsOk, TasksOk, Retain;
    TaskAt(r, VerifyPrePrepare(p, batch));
    RetainedTable(r.Ballots(round).quorums, p.inner.opNum, p.inner.digest, v);
  }

  /** The latest waiting vote that its slot still wants is verified next. */
  ghost predicate DrainedTo(queue: seq<SignedVote>, n: nat, r': Replica, round: Round, k: nat) {
    && n <= |queue|
    && (forall m: nat | n <= m < |queue| :: Finished(r'.log, round, k) || Contradicts(r'.log, queue[m].inner))
    && (if n == 0 then k !in r'.Ballots(round).pending
        else k in r'.Ballots(round).pending && r'.Ballots(round).pending[k] == queue[..n - 1]
             && VerifyVote(round, queue[n - 1]) in r'.out.tasks)
  }

  lemma DrainedEarlier(queue: seq<SignedVote>, n: nat, r': Replica, round: Round, k: nat)
    requires queue != [] && DrainedTo(queue[..|queue| - 1], n, r', round, k)
    requires Finished(r'.log, round, k) || Contradicts(r'.log, queue[|queue| - 1].inner)
    ensures DrainedTo(queue, n, r', round, k)
  {
    var shorter := queue[..|queue| - 1];
    assert n > 0 ==> shorter[..n - 1] == queue[..n - 1];
    forall m: nat | n <= m < |queue| ensures Finished(r'.log, round, k) || Contradicts(r'.log, queue[m].inner) {
      assert m < |shorter| ==> shorter[m] == queue[m];
    }
  }

  lemma {:induction false} DrainOrder(r: Replica, round: Round, k: nat) returns (n: nat)
    requires k in r.Ballots(round).pending && r.viewNum == 0 && r.status == Running
    requires forall j: nat | j < |r.Ballots(round).pending[k]| :: r.Ballots(round).pending[k][j].inner.opNum == k
    requires Drain(r, round, k).status == Running
    ensures DrainedTo(r.Ballots(round).pending[k], n, Drain(r, round, k), round, k)
    decreases |r.Ballots(round).pending[k]|
  {
    hide Wanted, DrainedTo, Finished, Contradicts, SubmitVote;
    var queue := r.Ballots(round).pending[k];
    if queue == [] {
      n := 0;
      DrainedOut(r, round, k);
    } else {
      var last := |queue| - 1;
      var v: SignedVote := queue[last];
      var r0 := SetQueue(r, round, k, queue[..last]);
      DrainAfter(r, round, k);
      SameWanted(r, r0, round, v.inner);
      if Submittable(r, round, v.inner) {
        n := |queue|;
        DrainedSubmits(r0, queue, round, k, v);
      } else {
        if v.inner.viewNum > r.viewNum { StopsOnView(r0, round, v); }
        n := DrainOrder(r0, round, k);
        RefusedByLog(r, round, v.inner);
        DrainedEarlier(queue, n, Drain(r, round, k), round, k);
      }
    }
  }

  lemma DrainedOut(r: Replica, round: Round, k: nat)
    requires k in r.Ballots(round).pending && r.Ballots(round).pending[k] == []
    ensures DrainedTo([], 0, Drain(r, round, k), round, k)
  {
  }

  lemma DrainedSubmits(r: Replica, queue: seq<SignedVote>, round: Round, k: nat, v: SignedVote)
    requires queue != [] && v == queue[|queue| - 1] && Submittable(r, round, v.inner)
    requires k in r.Ballots(round).pending && r.Ballots(round).pending[k] == queue[..|queue| - 1]
    ensures DrainedTo(queue, |queue|, SubmitVote(r, round, v), round, k)
  {
    hide Wanted;
  }

  lemma StopsOnView(r: Replica, round: Round, v: SignedVote)
    requires r.viewNum == 0 && v.inner.viewNum > r.viewNum
    ensures SubmitVote(r, round, v).status == Unimplemented
  {
  }

  lemma RefusedByLog(r: Replica, round: Round, v: Vote)
    requires !Wanted(r, round, v)
    ensures Finished(r.log, round, v.opNum) || Contradicts(r.log, v)
  {
  }

  /** After a verified vote was counted, its slot's waiting votes are taken up from the latest:
      those the slot has no use for go, the first one it wants is verified, the rest wait on. */
  lemma WaitingVotesInOrder(c: Config, r: Replica, round: Round, v: SignedVote) returns (n: nat)
    requires Local(c, r) && Enabled(c, r, Done(VerifyVote(round, v)))
    requires Handle(c, r, Done(VerifyVote(round, v))).status == Running
    ensures v.inner.opNum in r.Ballots(round).pending
    ensures DrainedTo(r.Ballots(round).pending[v.inner.opNum], n, Handle(c, r, Done(VerifyVote(round, v))), round, v.inner.opNum)
  {
    hide Proposals, LogOk, QuorumsOk, TasksOk, InsertVote, CountsOne, TokensBut, FewLate;
    TaskAt(r, VerifyVote(round, v));
    var r0, k := Answer(r, VerifyVote(round, v)), v.inner.opNum;
    TokenAnswered(r.out.tasks, r.Ballots(round), round, v);
    InsertCounts(c, r0, round, v);
    CountsQueues(r0, InsertVote(c, r0, round, v), round, v);
    InsertView(c, r0, round, v);
    QueueAt(c, r.Ballots(round), k);
    n := DrainOrder(InsertVote(c, r0, round, v), round, k);
  }

  lemma CountsQueues(r: Replica, r': Replica, round: Round, v: SignedVote)
    requires CountsOne(r, r', round, v)
    ensures r'.Ballots(round).pending == r.Ballots(round).pending
  {
  }
}
