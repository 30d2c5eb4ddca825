/** The life of slot 1 at one replica in a group of four with one fault, stage by stage. */
module PbftStages {
  import opened Wrappers
  import opened PbftTypes
  import opened PbftSpec
  import opened PbftLocal
  import opened PbftProposals
  import opened PbftGuards

  /** Nothing is executed yet; the slot, its open tables and the waiting commits are these. */
  ghost predicate Stage(r: Replica, i: nat, slot: Option<LogEntry>, pv: Table, cv: Table, waiting: map<nat, seq<SignedVote>>) {
    && r.id == i && r.viewNum == 0 && r.status == Running && r.commitNum == 0 && r.requests == []
    && r.prepares.pending == map[] && r.commits.pending == waiting
    && TableOf(r.prepares.quorums, 1) == pv && TableOf(r.commits.quorums, 1) == cv
    && (if slot.Some? then 1 < |r.log| && r.log[1] == slot.value else |r.log| <= 1)
    && (forall j: nat | j < |r.log| && j != 1 :: r.log[j].commits == map[])
  }

  function VoteBy(i: nat, digest: Digest): SignedVote {
    SignedVote(Vote(0, 1, digest, i), i)
  }

  function Proposal(k: nat, batch: seq<Request>): SignedPrePrepare {
    SignedPrePrepare(PrePrepare(0, k, Sha256(batch)), 0)
  }

  function Proposed(batch: seq<Request>): LogEntry {
    LogEntry(0, Some(Proposal(1, batch)), batch, map[], map[])
  }

  lemma NewStage(i: nat, app: AppState)
    ensures Stage(NewReplica(i, app), i, None, map[], map[], map[])
  {
  }

  lemma AcceptStage(r: Replica, i: nat, batch: seq<Request>, waiting: map<nat, seq<SignedVote>>)
    requires Stage(r, i, None, map[], map[], waiting)
    ensures
      var r' := OnVerifiedPrePrepare(r, Proposal(1, batch), batch);
      && Stage(r', i, Some(Proposed(batch)), map[], map[], waiting)
      && SignVote(Preparing, Vote(0, 1, Sha256(batch), i)) in r'.out.tasks
      && r'.out.sent == r.out.sent && r.out.tasks <= r'.out.tasks && r'.service == r.service
  {
  }

  lemma OwnPrepareStage(c: Config, r: Replica, i: nat, e: LogEntry, digest: Digest, waiting: map<nat, seq<SignedVote>>)
    requires c.Quorum() == 3 && Stage(r, i, Some(e), map[], map[], waiting) && e.prepares == map[]
    requires SignVote(Preparing, Vote(0, 1, digest, i)) in r.out.tasks
    ensures
      var t := SignVote(Preparing, Vote(0, 1, digest, i));
      var r' := OnDone(c, Answer(r, t), t);
      && Stage(r', i, Some(e), map[i := VoteBy(i, digest)], map[], waiting)
      && r'.out.sent == r.out.sent + {VoteMsg(Preparing, VoteBy(i, digest))}
      && r'.out.tasks == r.out.tasks - multiset{t} && r'.service == r.service
  {
  }

  lemma FirstPrepareStage(c: Config, r: Replica, i: nat, e: LogEntry, v: SignedVote)
    requires c.Quorum() == 3 && Stage(r, i, Some(e), map[], map[], map[]) && e.prepares == map[] && v.inner.opNum == 1
    ensures
      var r' := InsertPrepare(c, r, v);
      && Stage(r', i, Some(e), map[v.inner.replicaId := v], map[], map[])
      && r'.out == r.out && r'.log == r.log && r'.service == r.service && r'.opNum == r.opNum && !Finishes(c, r, v)
  {
  }

  lemma SecondPrepareStage(c: Config, r: Replica, i: nat, e: LogEntry, j: nat, w: SignedVote, v: SignedVote,
                           waiting: map<nat, seq<SignedVote>>)
    requires c.Quorum() == 3 && Stage(r, i, Some(e), map[j := w], map[], waiting) && e.prepares == map[]
    requires v.inner.opNum == 1 && v.inner.replicaId != j
    ensures
      var r' := InsertPrepare(c, r, v);
      && Stage(r', i, Some(e.(prepares := map[j := w, v.inner.replicaId := v])), map[], map[], waiting)
      && |r'.log| == |r.log| && r'.out.sent == r.out.sent && r.out.tasks <= r'.out.tasks
      && SignVote(Committing, Vote(0, 1, v.inner.digest, i)) in r'.out.tasks
      && r'.service == r.service && r'.opNum == r.opNum
  {
    assert |map[j := w, v.inner.replicaId := v]| == 2;
  }

  lemma OwnCommitStage(c: Config, r: Replica, i: nat, e: LogEntry, digest: Digest, waiting: map<nat, seq<SignedVote>>)
    requires c.Quorum() == 3 && Stage(r, i, Some(e), map[], map[], waiting) && e.commits == map[]
    requires SignVote(Committing, Vote(0, 1, digest, i)) in r.out.tasks
    ensures
      var t := SignVote(Committing, Vote(0, 1, digest, i));
      var r' := OnDone(c, Answer(r, t), t);
      && Stage(r', i, Some(e), map[], map[i := VoteBy(i, digest)], waiting)
      && r'.out.sent == r.out.sent + {VoteMsg(Committing, VoteBy(i, digest))}
      && r'.out.tasks == r.out.tasks - multiset{t} && |r'.log| == |r.log|
      && r'.service == r.service && r'.opNum == r.opNum
  {
  }

  lemma SecondCommitStage(c: Config, r: Replica, i: nat, e: LogEntry, j: nat, w: SignedVote, v: SignedVote,
                           waiting: map<nat, seq<SignedVote>>)
    requires c.Quorum() == 3 && Stage(r, i, Some(e), map[], map[j := w], waiting) && e.commits == map[]
    requires v.inner.opNum == 1 && v.inner.replicaId != j
    ensures
      var r' := InsertCommit(c, r, v);
      && Stage(r', i, Some(e), map[], map[j := w, v.inner.replicaId := v], waiting)
      && r'.out == r.out && r'.service == r.service && r'.opNum == r.opNum && |r'.log| == |r.log|
  {
    assert |map[j := w, v.inner.replicaId := v]| == 2;
  }

  /** The third commit: the slot's batch is executed. */
  lemma ThirdCommitStage(c: Config, r: Replica, i: nat, e: LogEntry, cv: Table, v: SignedVote)
    requires c.Quorum() == 3 && Stage(r, i, Some(e), map[], cv, map[]) && e.commits == map[] && e.prepares != map[]
    requires v.inner.opNum == 1 && v.inner.replicaId !in cv && |cv| == 2
    ensures
      var r' := InsertCommit(c, r, v);
      && r'.status == Running && r'.commitNum == 1 && r'.viewNum == 0 && r'.id == i && r'.requests == []
      && 1 < |r'.log| == |r.log| && r'.log[1].requests == e.requests
      && r'.commits.pending == map[] && r'.prepares.pending == map[]
      && r'.service == ExecuteBatch(c, r.id, 0, r.service, e.requests) && r'.opNum == r.opNum
  {
    var votes := cv[v.inner.replicaId := v];
    assert Counted(r, Committing, v) == votes;
    assert |votes| == 3;
    var r1 := DropTable(r, Committing, 1).(log := r.log[1 := e.(commits := votes)]);
    assert v.inner.replicaId in votes;
    assert NextCommitted(r1);
    var r2 := r1.(commitNum := 1, service := ExecuteBatch(c, r.id, 0, r.service, e.requests));
    assert !NextCommitted(r2);
    assert ExecuteCommitted(c, r1) == ExecuteCommitted(c, r2) == r2;
    assert InsertCommit(c, r, v) == CloseBatches(c, r2) == r2;
  }
}
