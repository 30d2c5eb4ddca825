/** The second scenario: a commit that was early when it was handed to the worker is
    counted after the slot got a pre-prepare with another digest. */
module PbftLateVote {
  import opened Wrappers
  import opened PbftTypes
  import opened PbftSpec
  import opened PbftLocal
  import opened PbftProposals
  import opened PbftGuards
  import opened PbftSystem
  import opened PbftMacros
  import opened PbftStages
  import opened PbftCounterexamples

  ghost predicate FromFaulty(u: Setup, m: Message) {
    match m
    case RequestMsg(_) => true
    case PrePrepareMsg(p, _) => !u.Correct(p.signer)
    case VoteMsg(_, v) => !u.Correct(v.signer)
  }

  lemma {:induction false} PlayInjectAll(u: Setup, s: System, ms: seq<Message>, slots: bool, digests: bool)
    returns (s': System)
    requires At(u, s, slots, digests) && forall m <- ms :: FromFaulty(u, m)
    ensures At(u, s', slots, digests) && s'.replicas == s.replicas
    ensures s.injected <= s'.injected && forall m <- ms :: m in s'.injected
    decreases |ms|
  {
    hide Reaches;
    s' := s;
    if ms != [] {
      assert FromFaulty(u, ms[0]);
      PlayInject(u, s, ms[0], slots, digests);
      s' := PlayInjectAll(u, s.(injected := s.injected + {ms[0]}), ms[1..], slots, digests);
    }
  }

  /** A commit for a slot the replica knows nothing of goes to the worker. */
  lemma EarlyCommitStage(c: Config, r: Replica, i: nat, app: AppState, v: SignedVote)
    requires r == NewReplica(i, app) && v == VoteBy(v.signer, v.inner.digest)
    ensures
      var r' := Handle(c, r, Recv(VoteMsg(Committing, v)));
      && Stage(r', i, None, map[], map[], map[1 := []])
      && VerifyVote(Committing, v) in r'.out.tasks
  {
  }

  /** The late vote is counted whatever its digest, and the empty queue goes. */
  lemma LateCommitStage(c: Config, r: Replica, i: nat, e: LogEntry, w: SignedVote, v: SignedVote)
    requires c.Quorum() == 3 && Stage(r, i, Some(e), map[], map[i := w], map[1 := []]) && e.commits == map[]
    requires v == VoteBy(v.signer, v.inner.digest) && v.signer != i && v.signer < c.numReplica
    requires VerifyVote(Committing, v) in r.out.tasks
    ensures
      var r' := Handle(c, r, Done(VerifyVote(Committing, v)));
      Stage(r', i, Some(e), map[], map[i := w, v.signer := v], map[])
  {
    hide InsertCommit, Wanted;
    var r1 := Answer(r, VerifyVote(Committing, v));
    SecondCommitStage(c, r1, i, e, i, w, v, map[1 := []]);
    var r2 := InsertCommit(c, r1, v);
    assert r2.commits.pending - {1} == map[];
    assert Drain(r2, Committing, 1) == DropQueue(r2, Committing, 1);
  }

  ghost predicate FaultyMessages(s: System, batch: seq<Request>) {
    var d := Sha256(batch);
    && PrePrepareMsg(Proposal(1, batch), batch) in s.injected
    && VoteMsg(Preparing, VoteBy(0, d)) in s.injected
    && VoteMsg(Committing, VoteBy(0, d)) in s.injected
  }

  /** The faulty primary proposes and votes for two batches; replica 3 commits to the first. */
  lemma TwoProposals(u: Setup, q: Request, execute: (AppState, Payload) -> (AppState, Payload), app: AppState)
    returns (s: System)
    requires u == FourReplicas(execute, 0, app)
    ensures At(u, s, true, false) && FaultyMessages(s, [q]) && FaultyMessages(s, [])
    ensures s.replicas[1] == NewReplica(1, app) && s.replicas[2] == NewReplica(2, app)
    ensures VoteMsg(Committing, VoteBy(3, Sha256([q]))) in s.replicas[3].out.sent
  {
    hide Reaches, Stage;
    var d, d' := Sha256([q]), Sha256([]);
    ReachesStart(u, true, false);
    var ms := [PrePrepareMsg(Proposal(1, [q]), [q]), VoteMsg(Preparing, VoteBy(0, d)), VoteMsg(Committing, VoteBy(0, d)),
               PrePrepareMsg(Proposal(1, []), []), VoteMsg(Preparing, VoteBy(0, d')), VoteMsg(Committing, VoteBy(0, d'))];
    var s0 := PlayInjectAll(u, Start(u), ms, true, false);
    assert ms[0] in ms && ms[1] in ms && ms[2] in ms && ms[3] in ms && ms[4] in ms && ms[5] in ms;
    NewStage(3, app);
    s := PlayPrePrepared(u, s0, 3, [q], map[], true, false);
    s := PlayPrepared(u, s, 3, Proposed([q]), 3, VoteBy(3, d), VoteBy(0, d), map[], true, false);
  }

  /** Replica 2 gets replica 3's commit first, then the other proposal, and executes that. */
  lemma PlayLateVote(u: Setup, s: System, q: Request, execute: (AppState, Payload) -> (AppState, Payload), app: AppState)
    returns (s': System)
    requires u == FourReplicas(execute, 0, app) && At(u, s, true, false)
    requires s.replicas[2] == NewReplica(2, app) && FaultyMessages(s, [])
    requires VoteMsg(Committing, VoteBy(3, Sha256([q]))) in s.replicas[3].out.sent
    ensures At(u, s', true, false) && s' == Put(s, 2, s'.replicas[2]) && ExecutedOne(s'.replicas[2], 2, [])
  {
    hide Reaches, Stage, Handle;
    var d', late := Sha256([]), VoteBy(3, Sha256([q]));
    var e := Recv(VoteMsg(Committing, late));
    var r := s.replicas[2];
    assert u.Correct(3);
    PlayEvent(u, s, 2, e, true, false);
    EarlyCommitStage(u.c, r, 2, app, late);
    var s1 := Put(s, 2, Handle(u.c, r, e));
    var waiting: map<nat, seq<SignedVote>> := map[1 := []];
    s1 := PlayPrePrepared(u, s1, 2, [], waiting, true, false);
    s1 := PlayPrepared(u, s1, 2, Proposed([]), 2, VoteBy(2, d'), VoteBy(0, d'), waiting, true, false);
    var entry := Proposed([]).(prepares := map[2 := VoteBy(2, d'), 0 := VoteBy(0, d')]);
    StageRuns(s1.replicas[2], entry, VoteBy(2, d'), waiting);
    PlayEvent(u, s1, 2, Done(VerifyVote(Committing, late)), true, false);
    LateCommitStage(u.c, s1.replicas[2], 2, entry, VoteBy(2, d'), late);
    var s2 := Put(s1, 2, Handle(u.c, s1.replicas[2], Done(VerifyVote(Committing, late))));
    var cv := map[2 := VoteBy(2, d'), 3 := late];
    assert |cv| == 2;
    s' := PlayThirdCommit(u, s2, 2, entry, cv, VoteBy(0, d'), true, false);
  }

  lemma StageRuns(r: Replica, e: LogEntry, w: SignedVote, waiting: map<nat, seq<SignedVote>>)
    requires Stage(r, 2, Some(e), map[], map[2 := w], waiting)
    ensures r.status == Running
  {
  }

  /** Replica 1 follows the first proposal and executes it. */
  lemma PlayFirstProposal(u: Setup, s: System, q: Request, execute: (AppState, Payload) -> (AppState, Payload), app: AppState)
    returns (s': System)
    requires u == FourReplicas(execute, 0, app) && At(u, s, true, false)
    requires s.replicas[1] == NewReplica(1, app) && FaultyMessages(s, [q])
    requires VoteMsg(Committing, VoteBy(3, Sha256([q]))) in s.replicas[3].out.sent
    ensures At(u, s', true, false) && s' == Put(s, 1, s'.replicas[1]) && ExecutedOne(s'.replicas[1], 1, [q])
  {
    hide Reaches, Stage;
    var d := Sha256([q]);
    assert u.Correct(3);
    NewStage(1, app);
    var s1 := PlayPrePrepared(u, s, 1, [q], map[], true, false);
    s1 := PlayPrepared(u, s1, 1, Proposed([q]), 1, VoteBy(1, d), VoteBy(0, d), map[], true, false);
    var entry := Proposed([q]).(prepares := map[1 := VoteBy(1, d), 0 := VoteBy(0, d)]);
    assert VoteMsg(Committing, VoteBy(3, d)) in s1.replicas[3].out.sent;
    s1 := PlaySecondCommit(u, s1, 1, entry, 1, VoteBy(1, d), VoteBy(3, d), true, false);
    var cv := map[1 := VoteBy(1, d), 3 := VoteBy(3, d)];
    assert |cv| == 2;
    s' := PlayThirdCommit(u, s1, 1, entry, cv, VoteBy(0, d), true, false);
  }

  /** With every slot prepared only after its pre-prepare, the missing digest check alone
      lets a faulty primary make two correct replicas execute different batches in slot 1. */
  lemma DigestCheckIsNeeded(execute: (AppState, Payload) -> (AppState, Payload), app: AppState, q: Request)
    returns (actions: seq<Action>)
    ensures
      var u := FourReplicas(execute, 0, app);
      && RunKeeps(u, actions, true, false)
      && ExecutedOne(After(u, actions).replicas[1], 1, [q])
      && ExecutedOne(After(u, actions).replicas[2], 2, [])
  {
    hide Stage, RunKeeps;
    var u := FourReplicas(execute, 0, app);
    var s := TwoProposals(u, q, execute, app);
    var s1 := PlayLateVote(u, s, q, execute, app);
    assert s1.replicas[1] == s.replicas[1] && s1.replicas[3] == s.replicas[3] && s1.injected == s.injected;
    var s2 := PlayFirstProposal(u, s1, q, execute, app);
    assert s2.replicas[2] == s1.replicas[2];
    actions :| After(u, actions) == s2 && RunKeeps(u, actions, true, false);
  }
}
