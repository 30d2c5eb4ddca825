/** Without either guard agreement fails, in the smallest group that tolerates a fault. */
module PbftCounterexamples {
  import opened Wrappers
  import opened PbftTypes
  import opened PbftSpec
  import opened PbftLocal
  import opened PbftProposals
  import opened PbftGuards
  import opened PbftSystem
  import opened PbftMacros
  import opened PbftStages

  function Put(s: System, i: nat, r: Replica): System
    requires i < |s.replicas|
  {
    s.(replicas := s.replicas[i := r])
  }

  /** Four replicas, one of them faulty. */
  function FourReplicas(execute: (AppState, Payload) -> (AppState, Payload), faulty: nat, app: AppState): Setup {
    Setup(Config(4, 1, execute), {faulty}, app)
  }

  /** A reachable state of the group, and which guards its run kept. */
  ghost predicate At(u: Setup, s: System, slots: bool, digests: bool) {
    |s.replicas| == u.c.numReplica == 4 && u.c.numFaulty == 1 && Reaches(u, s, slots, digests)
  }

  // One handler call at one replica

  lemma PlayEvent(u: Setup, s: System, i: nat, e: Event, slots: bool, digests: bool)
    requires At(u, s, slots, digests) && u.Correct(i) && Enabled(u.c, s.replicas[i], e)
    requires e.Recv? ==> InNetwork(u, s, e.message)
    requires slots ==> SlotGuard(u.c, s.replicas[i], e)
    requires digests ==> DigestGuard(u.c, s.replicas[i], e)
    ensures At(u, Put(s, i, Handle(u.c, s.replicas[i], e)), slots, digests)
  {
    hide Handle, SlotGuard, DigestGuard, Enabled;
    ReachesNext(u, s, Act(i, e), slots, digests);
  }

  lemma PlayInject(u: Setup, s: System, m: Message, slots: bool, digests: bool)
    requires At(u, s, slots, digests) && Forgeable(u, s, m)
    ensures At(u, s.(injected := s.injected + {m}), slots, digests)
  {
    hide Forgeable;
    ReachesNext(u, s, Inject(m), slots, digests);
  }

  lemma PlayAccept(u: Setup, s: System, i: nat, k: nat, batch: seq<Request>, slots: bool, digests: bool)
    requires At(u, s, slots, digests) && u.Correct(i)
    requires s.replicas[i].status == Running && s.replicas[i].viewNum == 0 && !SlotTaken(s.replicas[i].log, k)
    requires InNetwork(u, s, PrePrepareMsg(Proposal(k, batch), batch))
    ensures At(u, Put(s, i, OnVerifiedPrePrepare(s.replicas[i], Proposal(k, batch), batch)), slots, digests)
  {
    hide Handle, OnVerifiedPrePrepare;
    var r, p := s.replicas[i], Proposal(k, batch);
    AcceptPrePrepare(u.c, r, p, batch);
    var e1, e2 := Recv(PrePrepareMsg(p, batch)), Done(VerifyPrePrepare(p, batch));
    PlayEvent(u, s, i, e1, slots, digests);
    var s1 := Put(s, i, Handle(u.c, r, e1));
    PlayEvent(u, s1, i, e2, slots, digests);
    assert Put(s1, i, Handle(u.c, s1.replicas[i], e2)) == Put(s, i, OnVerifiedPrePrepare(r, p, batch));
  }

  lemma PlayVote(u: Setup, s: System, i: nat, round: Round, v: SignedVote, slots: bool, digests: bool)
    requires At(u, s, slots, digests) && u.Correct(i)
    requires s.replicas[i].status == Running && v.inner.opNum !in s.replicas[i].Ballots(round).pending
    requires Submittable(s.replicas[i], round, v.inner) && Answered(u.c, VerifyVote(round, v))
    requires InsertVote(u.c, s.replicas[i], round, v).status == Running
    requires InsertVote(u.c, s.replicas[i], round, v).Ballots(round).pending == s.replicas[i].Ballots(round).pending
    requires InNetwork(u, s, VoteMsg(round, v))
    requires slots && round.Preparing? && Finishes(u.c, s.replicas[i], v) ==> SlotTaken(s.replicas[i].log, v.inner.opNum)
    ensures At(u, Put(s, i, InsertVote(u.c, s.replicas[i], round, v)), slots, digests)
  {
    hide Handle, InsertVote, OnRecvVote;
    var r := s.replicas[i];
    CountVote(u.c, r, round, v);
    var e1, e2 := Recv(VoteMsg(round, v)), Done(VerifyVote(round, v));
    PlayEvent(u, s, i, e1, slots, digests);
    var s1 := Put(s, i, Handle(u.c, r, e1));
    assert Handle(u.c, r, e1).log == r.log && forall b :: Handle(u.c, r, e1).Ballots(b).quorums == r.Ballots(b).quorums by {
      ReceivedVote(u.c, r, round, v);
    }
    PlayEvent(u, s1, i, e2, slots, digests);
    assert Put(s1, i, Handle(u.c, s1.replicas[i], e2)) == Put(s, i, InsertVote(u.c, r, round, v));
  }

  lemma ReceivedVote(c: Config, r: Replica, round: Round, v: SignedVote)
    requires Enabled(c, r, Recv(VoteMsg(round, v)))
    ensures
      var r' := Handle(c, r, Recv(VoteMsg(round, v)));
      r'.log == r.log && forall b :: r'.Ballots(b).quorums == r.Ballots(b).quorums
  {
    hide Wanted;
  }

  lemma PlayOwn(u: Setup, s: System, i: nat, t: Task, slots: bool, digests: bool)
    requires At(u, s, slots, digests) && u.Correct(i) && s.replicas[i].status == Running
    requires t in s.replicas[i].out.tasks && (t.SignVote? || t.SignPrePrepare?)
    ensures At(u, Put(s, i, OnDone(u.c, Answer(s.replicas[i], t), t)), slots, digests)
  {
    hide OnDone;
    PlayEvent(u, s, i, Done(t), slots, digests);
  }

  // The stages of slot 1, played at replica i of the group

  /** Accept a pre-prepare for slot 1 and broadcast the prepare. */
  lemma PlayPrePrepared(u: Setup, s: System, i: nat, batch: seq<Request>, waiting: map<nat, seq<SignedVote>>, slots: bool, digests: bool)
    returns (s': System)
    requires At(u, s, slots, digests) && u.Correct(i) && Stage(s.replicas[i], i, None, map[], map[], waiting)
    requires InNetwork(u, s, PrePrepareMsg(Proposal(1, batch), batch))
    ensures At(u, s', slots, digests) && s' == Put(s, i, s'.replicas[i])
    ensures Stage(s'.replicas[i], i, Some(Proposed(batch)), map[i := VoteBy(i, Sha256(batch))], map[], waiting)
    ensures s.replicas[i].out.sent + {VoteMsg(Preparing, VoteBy(i, Sha256(batch)))} <= s'.replicas[i].out.sent
    ensures s.replicas[i].out.tasks <= s'.replicas[i].out.tasks && s.replicas[i].service == s'.replicas[i].service
  {
    hide OnDone, OnVerifiedPrePrepare, InNetwork, Reaches;
    var r := s.replicas[i];
    PlayAccept(u, s, i, 1, batch, slots, digests);
    AcceptStage(r, i, batch, waiting);
    var r1 := OnVerifiedPrePrepare(r, Proposal(1, batch), batch);
    var s1 := Put(s, i, r1);
    var t := SignVote(Preparing, Vote(0, 1, Sha256(batch), i));
    PlayOwn(u, s1, i, t, slots, digests);
    OwnPrepareStage(u.c, r1, i, Proposed(batch), Sha256(batch), waiting);
    s' := Put(s1, i, OnDone(u.c, Answer(r1, t), t));
    TaskKept(r, r1, t, i, batch);
  }

  lemma TaskKept(r: Replica, r1: Replica, t: Task, i: nat, batch: seq<Request>)
    requires r1 == OnVerifiedPrePrepare(r, Proposal(1, batch), batch)
    requires r.viewNum == 0 && r.id == i && !SlotTaken(r.log, 1) && t == SignVote(Preparing, Vote(0, 1, Sha256(batch), i))
    ensures r1.out.tasks - multiset{t} == r.out.tasks
  {
    assert r1.out.tasks == r.out.tasks + multiset{t};
  }

  /** A second prepare finishes the round; the commit is signed and broadcast. */
  lemma PlayPrepared(u: Setup, s: System, i: nat, e: LogEntry, j: nat, w: SignedVote, v: SignedVote,
                     waiting: map<nat, seq<SignedVote>>, slots: bool, digests: bool)
    returns (s': System)
    requires At(u, s, slots, digests) && u.Correct(i)
    requires Stage(s.replicas[i], i, Some(e), map[j := w], map[], waiting) && e.prepares == map[] && e.commits == map[]
    requires v == VoteBy(v.signer, v.inner.digest) && v.signer < 4 && v.signer != j && InNetwork(u, s, VoteMsg(Preparing, v))
    requires e.prePrepare.Some? ==> e.prePrepare.value.inner.digest == v.inner.digest
    requires slots ==> e.prePrepare.Some?
    ensures At(u, s', slots, digests) && s' == Put(s, i, s'.replicas[i])
    ensures
      var e' := e.(prepares := map[j := w, v.inner.replicaId := v]);
      Stage(s'.replicas[i], i, Some(e'), map[], map[i := VoteBy(i, v.inner.digest)], waiting)
    ensures s.replicas[i].out.sent + {VoteMsg(Committing, VoteBy(i, v.inner.digest))} <= s'.replicas[i].out.sent
    ensures s.replicas[i].service == s'.replicas[i].service && s.replicas[i].opNum == s'.replicas[i].opNum
    ensures |s.replicas[i].log| == |s'.replicas[i].log|
    ensures forall t <- s.replicas[i].out.tasks | t.VerifyVote? :: t in s'.replicas[i].out.tasks
  {
    hide OnDone, InNetwork, Reaches, InsertPrepare;
    var r := s.replicas[i];
    SecondPrepareStage(u.c, r, i, e, j, w, v, waiting);
    PlayVote(u, s, i, Preparing, v, slots, digests);
    var r1 := InsertPrepare(u.c, r, v);
    var s1 := Put(s, i, r1);
    var t := SignVote(Committing, Vote(0, 1, v.inner.digest, i));
    PlayOwn(u, s1, i, t, slots, digests);
    OwnCommitStage(u.c, r1, i, e.(prepares := map[j := w, v.inner.replicaId := v]), v.inner.digest, waiting);
    s' := Put(s1, i, OnDone(u.c, Answer(r1, t), t));
  }

  /** A replica has executed slot 1 with this batch. */
  ghost predicate ExecutedOne(r: Replica, i: nat, batch: seq<Request>) {
    r.id == i && r.commitNum == 1 && 1 < |r.log| && r.log[1].requests == batch
  }

  lemma PlayThirdCommit(u: Setup, s: System, i: nat, e: LogEntry, cv: Table, v: SignedVote, slots: bool, digests: bool)
    returns (s': System)
    requires At(u, s, slots, digests) && u.Correct(i)
    requires Stage(s.replicas[i], i, Some(e), map[], cv, map[]) && e.prepares != map[] && e.commits == map[] && |cv| == 2
    requires v == VoteBy(v.signer, v.inner.digest) && v.signer < 4 && v.signer !in cv && InNetwork(u, s, VoteMsg(Committing, v))
    requires e.prePrepare.Some? ==> e.prePrepare.value.inner.digest == v.inner.digest
    ensures At(u, s', slots, digests) && s' == Put(s, i, InsertCommit(u.c, s.replicas[i], v))
    ensures ExecutedOne(s'.replicas[i], i, e.requests)
  {
    hide InNetwork, Reaches, InsertCommit;
    ThirdCommitStage(u.c, s.replicas[i], i, e, cv, v);
    PlayVote(u, s, i, Committing, v, slots, digests);
    s' := Put(s, i, InsertCommit(u.c, s.replicas[i], v));
  }

  lemma PlaySecondCommit(u: Setup, s: System, i: nat, e: LogEntry, j: nat, w: SignedVote, v: SignedVote, slots: bool, digests: bool)
    returns (s': System)
    requires At(u, s, slots, digests) && u.Correct(i)
    requires Stage(s.replicas[i], i, Some(e), map[], map[j := w], map[]) && e.commits == map[]
    requires v == VoteBy(v.signer, v.inner.digest) && v.signer < 4 && v.signer != j && InNetwork(u, s, VoteMsg(Committing, v))
    requires e.prePrepare.Some? ==> e.prePrepare.value.inner.digest == v.inner.digest
    ensures At(u, s', slots, digests) && s' == Put(s, i, s'.replicas[i])
    ensures Stage(s'.replicas[i], i, Some(e), map[], map[j := w, v.inner.replicaId := v], map[])
    ensures s'.replicas[i].out == s.replicas[i].out && s'.replicas[i].service == s.replicas[i].service
    ensures s'.replicas[i].opNum == s.replicas[i].opNum && |s'.replicas[i].log| == |s.replicas[i].log|
  {
    hide InNetwork, Reaches, InsertCommit;
    SecondCommitStage(u.c, s.replicas[i], i, e, j, w, v, map[]);
    PlayVote(u, s, i, Committing, v, slots, digests);
    s' := Put(s, i, InsertCommit(u.c, s.replicas[i], v));
  }

  lemma PlayFirstPrepare(u: Setup, s: System, i: nat, e: LogEntry, v: SignedVote, slots: bool, digests: bool)
    returns (s': System)
    requires At(u, s, slots, digests) && u.Correct(i)
    requires Stage(s.replicas[i], i, Some(e), map[], map[], map[]) && e.prepares == map[]
    requires v == VoteBy(v.signer, v.inner.digest) && v.signer < 4 && InNetwork(u, s, VoteMsg(Preparing, v))
    requires e.prePrepare.Some? ==> e.prePrepare.value.inner.digest == v.inner.digest
    ensures At(u, s', slots, digests) && s' == Put(s, i, s'.replicas[i])
    ensures Stage(s'.replicas[i], i, Some(e), map[v.signer := v], map[], map[])
    ensures s'.replicas[i].out == s.replicas[i].out && s'.replicas[i].service == s.replicas[i].service
    ensures s'.replicas[i].opNum == s.replicas[i].opNum && |s'.replicas[i].log| == |s.replicas[i].log|
  {
    hide InNetwork, Reaches, InsertPrepare;
    FirstPrepareStage(u.c, s.replicas[i], i, e, v);
    PlayVote(u, s, i, Preparing, v, slots, digests);
    s' := Put(s, i, InsertPrepare(u.c, s.replicas[i], v));
  }

  /** From a first prepare to two commits, with votes of two other replicas. */
  lemma PlayToTwoCommits(u: Setup, s: System, i: nat, e: LogEntry, digest: Digest, a: nat, b: nat, slots: bool, digests: bool)
    returns (s': System)
    requires At(u, s, slots, digests) && u.Correct(i) && a < 4 && b < 4 && i != a && i != b && a != b
    requires Stage(s.replicas[i], i, Some(e), map[a := VoteBy(a, digest)], map[], map[]) && e.prepares == map[] && e.commits == map[]
    requires e.prePrepare.Some? ==> e.prePrepare.value.inner.digest == digest
    requires slots ==> e.prePrepare.Some?
    requires InNetwork(u, s, VoteMsg(Preparing, VoteBy(b, digest)))
    requires InNetwork(u, s, VoteMsg(Committing, VoteBy(a, digest)))
    ensures At(u, s', slots, digests) && s' == Put(s, i, s'.replicas[i])
    ensures
      var e' := e.(prepares := map[a := VoteBy(a, digest), b := VoteBy(b, digest)]);
      var cv := map[i := VoteBy(i, digest), a := VoteBy(a, digest)];
      Stage(s'.replicas[i], i, Some(e'), map[], cv, map[])
    ensures s.replicas[i].out.sent + {VoteMsg(Committing, VoteBy(i, digest))} <= s'.replicas[i].out.sent
    ensures s'.replicas[i].service == s.replicas[i].service && s'.replicas[i].opNum == s.replicas[i].opNum
    ensures |s'.replicas[i].log| == |s.replicas[i].log|
  {
    hide InNetwork, Reaches, Stage;
    var e' := e.(prepares := map[a := VoteBy(a, digest), b := VoteBy(b, digest)]);
    var s1 := PlayPrepared(u, s, i, e, a, VoteBy(a, digest), VoteBy(b, digest), map[], slots, digests);
    StillInNetwork(u, s, s1, i, VoteMsg(Committing, VoteBy(a, digest)));
    s' := PlaySecondCommit(u, s1, i, e', i, VoteBy(i, digest), VoteBy(a, digest), slots, digests);
  }

  /** And on to execution. */
  lemma PlayToExecution(u: Setup, s: System, i: nat, e: LogEntry, digest: Digest, a: nat, b: nat, slots: bool, digests: bool)
    returns (s': System)
    requires At(u, s, slots, digests) && u.Correct(i) && a < 4 && b < 4 && i != a && i != b && a != b
    requires Stage(s.replicas[i], i, Some(e), map[a := VoteBy(a, digest)], map[], map[]) && e.prepares == map[] && e.commits == map[]
    requires e.prePrepare.Some? ==> e.prePrepare.value.inner.digest == digest
    requires slots ==> e.prePrepare.Some?
    requires InNetwork(u, s, VoteMsg(Preparing, VoteBy(b, digest)))
    requires InNetwork(u, s, VoteMsg(Committing, VoteBy(a, digest)))
    requires InNetwork(u, s, VoteMsg(Committing, VoteBy(b, digest)))
    ensures At(u, s', slots, digests) && s' == Put(s, i, s'.replicas[i])
    ensures ExecutedOne(s'.replicas[i], i, e.requests)
    ensures s.replicas[i].out.sent <= s'.replicas[i].out.sent
    ensures
      var r, r' := s.replicas[i], s'.replicas[i];
      && r'.opNum == r.opNum && r'.service == ExecuteBatch(u.c, i, 0, r.service, e.requests)
      && r'.status == Running && r'.viewNum == 0 && r'.requests == [] && |r'.log| == |r.log|
  {
    hide InNetwork, Reaches, Stage, InsertCommit;
    var e' := e.(prepares := map[a := VoteBy(a, digest), b := VoteBy(b, digest)]);
    var cv := map[i := VoteBy(i, digest), a := VoteBy(a, digest)];
    assert |cv| == 2;
    var s1 := PlayToTwoCommits(u, s, i, e, digest, a, b, slots, digests);
    StillInNetwork(u, s, s1, i, VoteMsg(Committing, VoteBy(b, digest)));
    s' := PlayThirdCommit(u, s1, i, e', cv, VoteBy(b, digest), slots, digests);
    ThirdCommitStage(u.c, s1.replicas[i], i, e', cv, VoteBy(b, digest));
    InsertSendsNothing(u.c, s1.replicas[i], Committing, VoteBy(b, digest));
    assert s1.replicas[i].id == i by { StageId(s1.replicas[i], i, Some(e'), cv); }
  }

  lemma StageId(r: Replica, i: nat, slot: Option<LogEntry>, cv: Table)
    requires Stage(r, i, slot, map[], cv, map[])
    ensures r.id == i
  {
  }

  lemma StillInNetwork(u: Setup, s: System, s': System, i: nat, m: Message)
    requires |s.replicas| == |s'.replicas| == u.c.numReplica && i < |s.replicas| && s' == Put(s, i, s'.replicas[i])
    requires s.replicas[i].out.sent <= s'.replicas[i].out.sent && InNetwork(u, s, m)
    ensures InNetwork(u, s', m)
  {
    if m !in s.injected {
      var j: nat :| u.Correct(j) && m in s.replicas[j].out.sent;
      assert m in s'.replicas[j].out.sent;
    }
  }

  // Scenario 1: a slot prepared before its pre-prepare

  /** The primary accepts a request, closes a batch of one and broadcasts its pre-prepare. */
  lemma PlayPropose(u: Setup, s: System, q: Request, slots: bool, digests: bool) returns (s': System)
    requires At(u, s, slots, digests) && u.Correct(0) && InNetwork(u, s, RequestMsg(q))
    requires
      var r := s.replicas[0];
      && r.id == 0 && r.status == Running && r.viewNum == 0 && r.requests == [] && r.opNum == r.commitNum
      && |r.log| <= r.opNum + 1 && q.clientId !in r.service.replies
    ensures At(u, s', slots, digests) && s' == Put(s, 0, s'.replicas[0])
    ensures
      var r, r', k := s.replicas[0], s'.replicas[0], s.replicas[0].opNum + 1;
      var log := Grow(r.log, k);
      && r' == r.(opNum := k, log := log[k := log[k].(prePrepare := Some(Proposal(k, [q])), requests := [q])],
                  service := r'.service, out := r'.out)
      && r'.out.sent == r.out.sent + {PrePrepareMsg(Proposal(k, [q]), [q])}
      && r'.service.replies.Keys == r.service.replies.Keys + {q.clientId}
  {
    hide InNetwork, Reaches, OnRequest, OnDone;
    var r, k := s.replicas[0], s.replicas[0].opNum + 1;
    PlayEvent(u, s, 0, Recv(RequestMsg(q)), slots, digests);
    var r1 := OnRequest(u.c, r, q);
    var t := SignPrePrepare(0, k, [q]);
    ProposedRequest(u.c, r, q);
    PlayOwn(u, Put(s, 0, r1), 0, t, slots, digests);
    AnswerSubmit(r.(opNum := k, service := r1.service), t);
    SignedProposal(u.c, r.(opNum := k, service := r1.service), q);
    var r2 := OnDone(u.c, Answer(r1, t), t);
    s' := Put(s, 0, r2);
    assert Put(Put(s, 0, r1), 0, r2) == s';
  }

  lemma ProposedRequest(c: Config, r: Replica, q: Request)
    requires r.id == 0 && r.viewNum == 0 && r.requests == [] && r.opNum == r.commitNum
    requires q.clientId !in r.service.replies && c.numReplica > 0
    ensures
      var r' := OnRequest(c, r, q);
      && r' == Submit(r.(opNum := r.opNum + 1, service := r'.service), SignPrePrepare(0, r.opNum + 1, [q]))
      && r'.service.replies.Keys == r.service.replies.Keys + {q.clientId}
  {
    assert r.requests + [q] == [q] && [q][..1] == [q] && [q][1..] == [];
  }

  lemma SignedProposal(c: Config, r: Replica, q: Request)
    requires r.id == 0 && r.viewNum == 0 && |r.log| <= r.opNum
    ensures
      var k := r.opNum;
      var log := Grow(r.log, k);
      OnDone(c, r, SignPrePrepare(0, k, [q])) ==
        Broadcast(r.(log := log[k := log[k].(prePrepare := Some(Proposal(k, [q])), requests := [q])]),
                  PrePrepareMsg(Proposal(k, [q]), [q]))
  {
    assert Grow(r.log, r.opNum)[r.opNum] == EmptyEntry;
  }

  lemma AcceptSecond(r: Replica, i: nat, batch: seq<Request>)
    requires Stage(r, i, None, map[], map[], map[]) && r.log == []
    ensures Stage(OnVerifiedPrePrepare(r, Proposal(2, batch), batch), i, Some(EmptyEntry), map[], map[], map[])
  {
  }

  /** The group up to the point where replica 2 has committed to the batch of slot 1. */
  lemma SlotScenarioStart(u: Setup, q: Request, q2: Request, execute: (AppState, Payload) -> (AppState, Payload), app: AppState)
    returns (s: System)
    requires u == FourReplicas(execute, 3, app)
    ensures At(u, s, false, true)
    ensures
      var d := Sha256([q]);
      && RequestMsg(q2) in s.injected && VoteMsg(Preparing, VoteBy(3, d)) in s.injected
      && VoteMsg(Committing, VoteBy(3, d)) in s.injected
      && Stage(s.replicas[0], 0, Some(Proposed([q])), map[], map[], map[])
      && s.replicas[0].opNum == 1 && |s.replicas[0].log| == 2
      && s.replicas[0].service.replies.Keys == {q.clientId}
      && s.replicas[1] == NewReplica(1, app)
      && VoteMsg(Preparing, VoteBy(2, d)) in s.replicas[2].out.sent
      && VoteMsg(Committing, VoteBy(2, d)) in s.replicas[2].out.sent
  {
    hide Reaches, Stage;
    var d := Sha256([q]);
    ReachesStart(u, false, true);
    var s0 := Start(u);
    PlayInject(u, s0, RequestMsg(q), false, true);
    var s1 := System(s0.replicas, s0.injected + {RequestMsg(q)});
    PlayInject(u, s1, RequestMsg(q2), false, true);
    var s2 := System(s0.replicas, s1.injected + {RequestMsg(q2)});
    PlayInject(u, s2, VoteMsg(Preparing, VoteBy(3, d)), false, true);
    var s3 := System(s0.replicas, s2.injected + {VoteMsg(Preparing, VoteBy(3, d))});
    PlayInject(u, s3, VoteMsg(Committing, VoteBy(3, d)), false, true);
    var s4 := System(s0.replicas, s3.injected + {VoteMsg(Committing, VoteBy(3, d))});
    s := PlayPropose(u, s4, q, false, true);
    assert Stage(s.replicas[0], 0, Some(Proposed([q])), map[], map[], map[]) by { FirstProposalStage(s.replicas[0], q); }
    assert PrePrepareMsg(Proposal(1, [q]), [q]) in s.replicas[0].out.sent;
    var r0 := s.replicas[0];
    NewStage(2, app);
    s := PlayPrePrepared(u, s, 2, [q], map[], false, true);
    s := PlayPrepared(u, s, 2, Proposed([q]), 2, VoteBy(2, d), VoteBy(3, d), map[], false, true);
    assert s.replicas[0] == r0;
  }

  lemma FirstProposalStage(r: Replica, q: Request)
    requires r == NewReplica(0, r.service.app).(opNum := 1, service := r.service, out := r.out,
      log := [EmptyEntry, EmptyEntry.(prePrepare := Some(Proposal(1, [q])), requests := [q])])
    ensures Stage(r, 0, Some(Proposed([q])), map[], map[], map[])
  {
  }

  /** The second half: the primary executes slot 1; replica 1, which knows only the
      pre-prepare of slot 2, prepares, commits and executes slot 1 with nothing in it. */
  lemma SlotScenarioEnd(u: Setup, s: System, q: Request, q2: Request, execute: (AppState, Payload) -> (AppState, Payload), app: AppState)
    returns (s': System)
    requires u == FourReplicas(execute, 3, app) && q.clientId != q2.clientId
    requires At(u, s, false, true)
    requires
      var d := Sha256([q]);
      && RequestMsg(q2) in s.injected && VoteMsg(Preparing, VoteBy(3, d)) in s.injected
      && VoteMsg(Committing, VoteBy(3, d)) in s.injected
      && Stage(s.replicas[0], 0, Some(Proposed([q])), map[], map[], map[])
      && s.replicas[0].opNum == 1 && |s.replicas[0].log| == 2
      && s.replicas[0].service.replies.Keys == {q.clientId}
      && s.replicas[1] == NewReplica(1, app)
      && VoteMsg(Preparing, VoteBy(2, d)) in s.replicas[2].out.sent
      && VoteMsg(Committing, VoteBy(2, d)) in s.replicas[2].out.sent
    ensures At(u, s', false, true) && ExecutedOne(s'.replicas[0], 0, [q]) && ExecutedOne(s'.replicas[1], 1, [])
  {
    hide Reaches, Stage;
    var d := Sha256([q]);
    assert u.Correct(2);
    var s1 := PlayFirstPrepare(u, s, 0, Proposed([q]), VoteBy(2, d), false, true);
    assert VoteMsg(Committing, VoteBy(2, d)) in s1.replicas[2].out.sent;
    s1 := PlayToExecution(u, s1, 0, Proposed([q]), d, 2, 3, false, true);
    OneClient(u.c, s.replicas[0].service, q);
    s1 := PlayPropose(u, s1, q2, false, true);
    assert ExecutedOne(s1.replicas[0], 0, [q]);
    assert PrePrepareMsg(Proposal(2, [q2]), [q2]) in s1.replicas[0].out.sent;
    var r0 := s1.replicas[0];
    NewStage(1, app);
    AcceptSecond(s1.replicas[1], 1, [q2]);
    PlayAccept(u, s1, 1, 2, [q2], false, true);
    var s2 := Put(s1, 1, OnVerifiedPrePrepare(s1.replicas[1], Proposal(2, [q2]), [q2]));
    s2 := PlayFirstPrepare(u, s2, 1, EmptyEntry, VoteBy(2, d), false, true);
    s' := PlayToExecution(u, s2, 1, EmptyEntry, d, 2, 3, false, true);
    assert s'.replicas[0] == r0;
  }

  lemma OneClient(c: Config, s: Service, q: Request)
    requires s.replies.Keys == {q.clientId}
    ensures ExecuteBatch(c, 0, 0, s, [q]).replies.Keys == {q.clientId}
  {
    assert [q][1..] == [];
  }

  /** With a correct primary and the digest check in place, the missing slot check alone
      lets two correct replicas execute different batches in slot 1. */
  lemma SlotCheckIsNeeded(execute: (AppState, Payload) -> (AppState, Payload), app: AppState, q: Request, q2: Request)
    returns (actions: seq<Action>)
    requires q.clientId != q2.clientId
    ensures
      var u := FourReplicas(execute, 3, app);
      && RunKeeps(u, actions, false, true)
      && ExecutedOne(After(u, actions).replicas[0], 0, [q])
      && ExecutedOne(After(u, actions).replicas[1], 1, [])
  {
    hide Stage, RunKeeps;
    var u := FourReplicas(execute, 3, app);
    var s := SlotScenarioStart(u, q, q2, execute, app);
    s := SlotScenarioEnd(u, s, q, q2, execute, app);
    actions :| After(u, actions) == s && RunKeeps(u, actions, false, true);
  }
}
