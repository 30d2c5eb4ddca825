/** Agreement: in every run in which the guards hold whenever a verified vote is counted,
    correct replicas execute the same batches in the same order. */
module PbftAgreement {
  import opened PbftTypes
  import opened PbftSpec
  import opened PbftLocal
  import opened PbftProposals
  import opened PbftGuards
  import opened PbftExecution
  import opened PbftOrigins
  import opened PbftSystem

  /** The slot check always; the digest check only matters to backups of a faulty primary. */
  ghost predicate Guarded(u: Setup, s: System, a: Action)
    requires |s.replicas| == u.c.numReplica
  {
    Allowed(u, s, a) && a.Act? ==>
      && SlotGuard(u.c, s.replicas[a.replica], a.event)
      && (!u.Correct(0) ==> DigestGuard(u.c, s.replicas[a.replica], a.event))
  }

  ghost predicate GuardedRun(u: Setup, actions: seq<Action>) {
    forall k: nat | k < |actions| :: Guarded(u, After(u, actions[..k]), actions[k])
  }

  ghost function KnownVotes(u: Setup, s: System): iset<SignedVote>
    requires |s.replicas| == u.c.numReplica
  {
    iset v | KnownVote(u, s, v)
  }

  ghost predicate KnownProposal(u: Setup, s: System, p: SignedPrePrepare, batch: seq<Request>)
    requires |s.replicas| == u.c.numReplica
  {
    KnownPrePrepare(u, s, p) && InNetwork(u, s, PrePrepareMsg(p, batch))
  }

  ghost function KnownPrePrepares(u: Setup, s: System): iset<(SignedPrePrepare, seq<Request>)>
    requires |s.replicas| == u.c.numReplica
  {
    iset m: (SignedPrePrepare, seq<Request>) | KnownProposal(u, s, m.0, m.1)
  }

  ghost function Asked(u: Setup, s: System): iset<Request>
    requires |s.replicas| == u.c.numReplica
  {
    iset q | InNetwork(u, s, RequestMsg(q))
  }

  ghost predicate SoundReplica(u: Setup, s: System, r: Replica)
    requires |s.replicas| == u.c.numReplica
  {
    && SlotSound(r.log)
    && (!u.Correct(0) ==> DigestSound(r))
    && CommitsIn(r, KnownVotes(u, s))
    && PrePreparesIn(r, KnownPrePrepares(u, s))
    && ExecutionOk(u.c, u.app, r, Asked(u, s))
  }

  ghost predicate SoundSystem(u: Setup, s: System)
    requires |s.replicas| == u.c.numReplica
  {
    && Reliable(u, s)
    && forall i: nat | u.Correct(i) :: SoundReplica(u, s, s.replicas[i])
  }

  // Soundness is kept by every guarded step

  lemma KnowledgeGrows(u: Setup, s: System, a: Action)
    requires |s.replicas| == u.c.numReplica
    ensures KnownVotes(u, s) <= KnownVotes(u, Next(u, s, a))
    ensures KnownPrePrepares(u, s) <= KnownPrePrepares(u, Next(u, s, a))
    ensures Asked(u, s) <= Asked(u, Next(u, s, a))
  {
    hide Allowed, Handle;
    var s' := Next(u, s, a);
    forall v <- KnownVotes(u, s) ensures v in KnownVotes(u, s') {
      KnownStaysKnown(u, s, a, VoteMsg(Committing, v));
    }
    forall m <- KnownPrePrepares(u, s) ensures m in KnownPrePrepares(u, s') {
      KnownStaysKnown(u, s, a, PrePrepareMsg(m.0, m.1));
      NetworkStays(u, s, a, PrePrepareMsg(m.0, m.1));
    }
    forall q <- Asked(u, s) ensures q in Asked(u, s') {
      NetworkStays(u, s, a, RequestMsg(q));
    }
  }

  lemma NetworkStays(u: Setup, s: System, a: Action, m: Message)
    requires |s.replicas| == u.c.numReplica && InNetwork(u, s, m)
    ensures InNetwork(u, Next(u, s, a), m)
  {
    hide Allowed, Handle;
    SentStaysSent(u, s, a);
    if m !in s.injected {
      var i: nat :| u.Correct(i) && m in s.replicas[i].out.sent;
      assert m in Next(u, s, a).replicas[i].out.sent;
    }
  }

  lemma SoundWithMore(u: Setup, s: System, s': System, r: Replica)
    requires |s.replicas| == |s'.replicas| == u.c.numReplica && SoundReplica(u, s, r)
    requires KnownVotes(u, s) <= KnownVotes(u, s')
    requires KnownPrePrepares(u, s) <= KnownPrePrepares(u, s')
    requires Asked(u, s) <= Asked(u, s')
    ensures SoundReplica(u, s', r)
  {
    hide SlotSound, DigestSound, CommitsIn, KnownVotes, KnownPrePrepares, Asked, CacheOk;
    CommitsInMore(r, KnownVotes(u, s), KnownVotes(u, s'));
    SentOkMore(u.c, u.app, r.id, r.service.sent, Executed(r.log, r.commitNum), Asked(u, s), Asked(u, s'));
  }

  lemma SentOkMore(c: Config, app: AppState, id: nat, sent: set<(Addr, Reply)>, done: seq<Request>,
                   asked: iset<Request>, asked': iset<Request>)
    requires SentOk(c, app, id, sent, done, asked) && asked <= asked'
    ensures SentOk(c, app, id, sent, done, asked')
  {
    hide Answers;
    forall m <- sent ensures exists q :: AskedFrom(asked', q, m.0) && Answers(c, app, id, done, q, m.1) {
      var q :| AskedFrom(asked, q, m.0) && Answers(c, app, id, done, q, m.1);
      assert AskedFrom(asked', q, m.0);
    }
  }

  lemma SoundActor(u: Setup, s: System, i: nat, e: Event)
    requires |s.replicas| == u.c.numReplica && SoundSystem(u, s) && Allowed(u, s, Act(i, e)) && Guarded(u, s, Act(i, e))
    requires SoundReplica(u, Next(u, s, Act(i, e)), s.replicas[i])
    ensures SoundReplica(u, Next(u, s, Act(i, e)), Handle(u.c, s.replicas[i], e))
  {
    hide Local, SlotSound, DigestSound, CommitsIn, PrePreparesIn, ExecutionOk, Handle, SlotGuard, DigestGuard, Forgeable;
    var s', r := Next(u, s, Act(i, e)), s.replicas[i];
    var r' := Handle(u.c, r, e);
    assert s'.replicas[i] == r';
    SlotSoundExact(u.c, r, e);
    if !u.Correct(0) {
      assert r.id == i;
      DigestSoundExact(u.c, r, e);
    }
    OwnAreKnown(u, s, i, e);
    CommitsInStep(u.c, r, e, KnownVotes(u, s'));
    PrePreparesInStep(u.c, r, e, KnownPrePrepares(u, s'));
    KnowledgeGrows(u, s, Act(i, e));
    ExecutionStep(u.c, u.app, r, e, Asked(u, s'));
  }

  lemma OwnAreKnown(u: Setup, s: System, i: nat, e: Event)
    requires |s.replicas| == u.c.numReplica && Genuine(u, s) && Allowed(u, s, Act(i, e))
    ensures
      var s', r' := Next(u, s, Act(i, e)), Handle(u.c, s.replicas[i], e);
      && (forall v :: VoteMsg(Committing, v) in r'.out.sent ==> v in KnownVotes(u, s'))
      && (forall v :: e == Recv(VoteMsg(Committing, v)) ==> v in KnownVotes(u, s'))
      && (forall p, batch :: PrePrepareMsg(p, batch) in r'.out.sent ==> (p, batch) in KnownPrePrepares(u, s'))
      && (forall p, batch :: e == Recv(PrePrepareMsg(p, batch)) ==> (p, batch) in KnownPrePrepares(u, s'))
  {
    hide Handle, Enabled, Forgeable;
    var s', r := Next(u, s, Act(i, e)), s.replicas[i];
    var r' := Handle(u.c, r, e);
    HandleSendsOwn(u.c, r, e);
    assert s'.replicas[i] == r' && OwnMessages(r);
    if e.Recv? {
      NetworkIsKnown(u, s, e.message);
      KnownStaysKnown(u, s, Act(i, e), e.message);
      NetworkStays(u, s, Act(i, e), e.message);
    }
  }

  lemma SoundStep(u: Setup, s: System, a: Action)
    requires |s.replicas| == u.c.numReplica && SoundSystem(u, s) && Guarded(u, s, a) && u.c.Quorum() >= 2
    ensures SoundSystem(u, Next(u, s, a))
  {
    hide SoundReplica, Guarded, Reliable, Handle;
    var s' := Next(u, s, a);
    ReliableStep(u, s, a);
    KnowledgeGrows(u, s, a);
    forall i: nat | u.Correct(i) ensures SoundReplica(u, s', s'.replicas[i]) {
      SoundWithMore(u, s, s', s.replicas[i]);
      if Allowed(u, s, a) && a.Act? && a.replica == i {
        SoundActor(u, s, i, a.event);
      }
    }
  }

  lemma StartSound(u: Setup)
    ensures SoundSystem(u, Start(u))
  {
    StartReliable(u);
  }

  lemma {:induction false} RunSound(u: Setup, actions: seq<Action>)
    requires u.c.Quorum() >= 2 && GuardedRun(u, actions)
    ensures SoundSystem(u, After(u, actions))
  {
    hide SoundSystem, Guarded;
    if actions == [] {
      StartSound(u);
    } else {
      var n := |actions| - 1;
      GuardedPrefix(u, actions, n);
      RunSound(u, actions[..n]);
      SoundStep(u, After(u, actions[..n]), actions[n]);
    }
  }

  // Two quorums meet in a correct replica

  lemma {:induction false} BoundedSet(a: set<nat>, n: nat)
    requires forall i <- a :: i < n
    ensures |a| <= n
  {
    if n > 0 {
      BoundedSet(a - {n - 1}, n - 1);
    } else {
      assert a == {};
    }
  }

  lemma SmallerSet(a: set<nat>, b: set<nat>)
    requires a <= b
    ensures |a| <= |b|
  {
    assert b == a + (b - a);
  }

  lemma QuorumsMeet(u: Setup, a: set<nat>, b: set<nat>) returns (q: nat)
    requires u.Valid()
    requires forall i <- a + b :: i < u.c.numReplica
    requires |a| >= u.c.Quorum() && |b| >= u.c.Quorum()
    ensures q in a && q in b && u.Correct(q)
  {
    assert |a + b| + |a * b| == |a| + |b|;
    BoundedSet(a + b, u.c.numReplica);
    var common := a * b;
    if common <= u.faulty { SmallerSet(common, u.faulty); }
    q :| q in common && q !in u.faulty;
  }

  /** Slot k is executed at a correct replica: it has a pre-prepare, and a quorum of commits. */
  lemma ExecutedSlot(u: Setup, s: System, i: nat, k: nat)
    requires |s.replicas| == u.c.numReplica && SoundSystem(u, s) && u.Correct(i)
    requires 1 <= k <= s.replicas[i].commitNum
    ensures
      var r := s.replicas[i];
      && k < |r.log| && SlotTaken(r.log, k) && EntryOk(u.c, r.log[k], k)
      && |r.log[k].commits| >= u.c.Quorum()
      && (r.log[k].prePrepare.value, r.log[k].requests) in KnownPrePrepares(u, s)
      && VotesIn(r.log[k].commits, KnownVotes(u, s))
      && (!u.Correct(0) ==> DigestSound(r))
  {
    var r := s.replicas[i];
    hide ServiceOk, KnownPrePrepares, KnownVotes, DigestSound, VotesIn, Genuine, BallotsOk, TasksOk, Proposals;
    assert SoundReplica(u, s, r) && Local(u.c, r);
    assert r.log[k].commits != map[];
    EntryAt(u.c, r.log, k);
  }

  lemma CommittedDigest(u: Setup, s: System, i: nat, k: nat, q: nat)
    requires |s.replicas| == u.c.numReplica && SoundSystem(u, s) && u.Correct(i) && u.Correct(q) && !u.Correct(0)
    requires 1 <= k <= s.replicas[i].commitNum && k < |s.replicas[i].log|
    requires q in s.replicas[i].log[k].commits && SlotTaken(s.replicas[i].log, k)
    ensures Accepts(s.replicas[q].log, k, s.replicas[i].log[k].prePrepare.value.inner.digest)
  {
    hide ServiceOk, Genuine, BallotsOk, TasksOk, Proposals, CommitsIn, PrePreparesIn;
    var r := s.replicas[i];
    ExecutedSlot(u, s, i, k);
    var v := r.log[k].commits[q];
    assert VoteOf(u.c, v, k, q);
    assert v in KnownVotes(u, s);
    assert SlotAgrees(r.log, r.commits.quorums, k);
    assert SoundReplica(u, s, s.replicas[q]);
    var round :| VoteMsg(round, v) in s.replicas[q].out.sent;
  }

  lemma SameBatch(u: Setup, s: System, i: nat, j: nat, k: nat)
    requires |s.replicas| == u.c.numReplica && SoundSystem(u, s) && u.Valid() && u.Correct(i) && u.Correct(j)
    requires 1 <= k <= s.replicas[i].commitNum && k <= s.replicas[j].commitNum
    ensures k < |s.replicas[i].log| && k < |s.replicas[j].log|
    ensures s.replicas[i].log[k].requests == s.replicas[j].log[k].requests
  {
    hide SoundSystem, Setup.Valid;
    ExecutedSlot(u, s, i, k);
    ExecutedSlot(u, s, j, k);
    if u.Correct(0) {
      PrimaryDigest(u, s, i, k);
      PrimaryDigest(u, s, j, k);
    } else {
      var commitsI, commitsJ := s.replicas[i].log[k].commits, s.replicas[j].log[k].commits;
      VotersInGroup(u, commitsI, k);
      VotersInGroup(u, commitsJ, k);
      var q := QuorumsMeet(u, commitsI.Keys, commitsJ.Keys);
      CommittedDigest(u, s, i, k, q);
      CommittedDigest(u, s, j, k, q);
    }
  }

  lemma VotersInGroup(u: Setup, votes: Table, k: nat)
    requires TableOk(u.c, votes, k)
    ensures forall i <- votes.Keys :: i < u.c.numReplica
    ensures |votes.Keys| == |votes|
  {
    forall i <- votes.Keys ensures i < u.c.numReplica { assert VoteOf(u.c, votes[i], k, i); }
  }

  /** A correct primary sends one pre-prepare per slot. */
  lemma PrimaryDigest(u: Setup, s: System, i: nat, k: nat)
    requires |s.replicas| == u.c.numReplica && SoundSystem(u, s) && u.Correct(i) && u.Correct(0)
    requires 1 <= k <= s.replicas[i].commitNum
    requires k < |s.replicas[i].log| && SlotTaken(s.replicas[i].log, k)
    ensures k < |s.replicas[0].log| && s.replicas[0].log[k].prePrepare == s.replicas[i].log[k].prePrepare
  {
    hide ServiceOk, BallotsOk, TasksOk, CommitsIn, LogSent, UnsignedOk, NoOwnToVerify;
    ExecutedSlot(u, s, i, k);
    var p := s.replicas[i].log[k].prePrepare.value;
    assert KnownProposal(u, s, p, s.replicas[i].log[k].requests) && p.signer == 0;
    var batch :| PrePrepareMsg(p, batch) in s.replicas[0].out.sent;
    assert Local(u.c, s.replicas[0]) && s.replicas[0].id == 0;
    assert InLog(s.replicas[0].log, p, batch);
  }

  // The theorems

  /** What a replica has executed; commitNum is a slot of the log unless it is 0. */
  function History(r: Replica): seq<Request> {
    if r.commitNum < |r.log| then Executed(r.log, r.commitNum) else []
  }

  /** Agreement: two correct replicas that executed slot k executed the same batch. */
  lemma Agreement(u: Setup, actions: seq<Action>, i: nat, j: nat, k: nat)
    requires u.Valid() && GuardedRun(u, actions) && u.Correct(i) && u.Correct(j)
    requires 1 <= k <= After(u, actions).replicas[i].commitNum && k <= After(u, actions).replicas[j].commitNum
    ensures
      var ri, rj := After(u, actions).replicas[i], After(u, actions).replicas[j];
      k < |ri.log| && k < |rj.log| && ri.log[k].requests == rj.log[k].requests
  {
    hide SoundSystem;
    RunSound(u, actions);
    SameBatch(u, After(u, actions), i, j, k);
  }

  lemma {:induction false} SamePrefix(u: Setup, s: System, i: nat, j: nat, n: nat)
    requires |s.replicas| == u.c.numReplica && SoundSystem(u, s) && u.Valid() && u.Correct(i) && u.Correct(j)
    requires n <= s.replicas[i].commitNum && n <= s.replicas[j].commitNum
    requires n == 0 || (n < |s.replicas[i].log| && n < |s.replicas[j].log|)
    ensures Executed(s.replicas[i].log, n) == Executed(s.replicas[j].log, n)
  {
    hide SoundSystem, Setup.Valid;
    if n > 0 {
      SameBatch(u, s, i, j, n);
      SamePrefix(u, s, i, j, n - 1);
    }
  }

  lemma {:induction false} PrefixOfLonger(log: seq<LogEntry>, m: nat, n: nat)
    requires m <= n && (n == 0 || n < |log|)
    ensures Executed(log, m) <= Executed(log, n)
  {
    if m < n { PrefixOfLonger(log, m, n - 1); }
  }

  /** Prefix execution: the application of a correct replica is the reference run on what
      it executed, and of two correct replicas one executed a prefix of the other. */
  lemma PrefixExecution(u: Setup, actions: seq<Action>, i: nat, j: nat)
    requires u.Valid() && GuardedRun(u, actions) && u.Correct(i) && u.Correct(j)
    requires After(u, actions).replicas[i].commitNum <= After(u, actions).replicas[j].commitNum
    ensures
      var ri, rj := After(u, actions).replicas[i], After(u, actions).replicas[j];
      && History(ri) <= History(rj)
      && ri.service.app == RunApp(u.c, u.app, History(ri))
      && (ri.commitNum == rj.commitNum ==> ri.service.app == rj.service.app)
  {
    hide SlotSound, DigestSound, CommitsIn, PrePreparesIn, Reliable, CacheOk, SentOk, KnownVotes, KnownPrePrepares, Asked;
    RunSound(u, actions);
    var s := After(u, actions);
    var ri, rj := s.replicas[i], s.replicas[j];
    assert SoundReplica(u, s, ri) && SoundReplica(u, s, rj);
    SamePrefix(u, s, i, j, ri.commitNum);
    PrefixOfLonger(rj.log, ri.commitNum, rj.commitNum);
  }

  /** Every request a correct replica executed was answered at the address it names, with the
      result of executing it in its place, and the cache holds a reply to its number, or knows
      a higher one of the same client. */
  lemma ExecutedIsAnswered(u: Setup, actions: seq<Action>, i: nat, p: nat)
    requires u.c.Quorum() >= 2 && GuardedRun(u, actions) && u.Correct(i)
    requires p < |History(After(u, actions).replicas[i])|
    ensures
      var r := After(u, actions).replicas[i];
      var q := History(r)[p];
      && (q.clientAddr, Reply(q.seqNum, ResultAt(u.c, u.app, History(r), p), 0, i)) in r.service.sent
      && q.clientId in r.service.replies && q.seqNum <= r.service.replies[q.clientId].seqNum
      && (q.seqNum == r.service.replies[q.clientId].seqNum ==> r.service.replies[q.clientId].reply.Some?)
  {
    hide SlotSound, DigestSound, CommitsIn, PrePreparesIn, CacheOk, SentOk, Local, ResultAt, Asked;
    RunSound(u, actions);
    var s := After(u, actions);
    assert SoundReplica(u, s, s.replicas[i]) && s.replicas[i].id == i;
    assert History(s.replicas[i])[p] in History(s.replicas[i]);
  }

  lemma {:induction false} HistoryStep(u: Setup, s: System, a: Action, i: nat)
    requires |s.replicas| == u.c.numReplica && SoundSystem(u, s) && SoundSystem(u, Next(u, s, a)) && u.Correct(i)
    ensures
      var r, r' := s.replicas[i], Next(u, s, a).replicas[i];
      && CommittedUpTo(r.log, r.commitNum) && CommittedUpTo(r'.log, r'.commitNum)
      && History(r) <= History(r')
  {
    hide DigestSound, CommitsIn, PrePreparesIn, ServiceOk, SlotSound, KnownVotes, KnownPrePrepares, Asked, Genuine,
         LogOk, BallotsOk, TasksOk, Proposals, Handle, InNetwork;
    var r, r' := s.replicas[i], Next(u, s, a).replicas[i];
    assert SoundReplica(u, s, r) && SoundReplica(u, Next(u, s, a), r') && Local(u.c, r);
    if Allowed(u, s, a) && a.Act? && a.replica == i {
      LogOnlyGrows(u.c, r, a.event);
      CommittedAreTaken(u.c, r.log, r.commitNum);
      ExecutedStays(r.log, r'.log, r.commitNum);
      PrefixOfLonger(r'.log, r.commitNum, r'.commitNum);
    }
  }

  /** Executed slots never change: the history of a replica only grows along a run. */
  lemma {:induction false} HistoryOnlyGrows(u: Setup, actions: seq<Action>, n: nat, i: nat)
    requires u.c.Quorum() >= 2 && GuardedRun(u, actions) && u.Correct(i) && n <= |actions|
    ensures
      var r, r' := After(u, actions[..n]).replicas[i], After(u, actions).replicas[i];
      History(r) <= History(r')
    decreases |actions|
  {
    hide SoundSystem, GuardedRun, Next, History;
    if n == |actions| {
      assert actions[..n] == actions;
    } else {
      var m := |actions| - 1;
      GuardedPrefix(u, actions, m);
      assert actions[..m][..n] == actions[..n];
      HistoryOnlyGrows(u, actions[..m], n, i);
      RunSound(u, actions[..m]);
      RunSound(u, actions);
      HistoryStep(u, After(u, actions[..m]), actions[m], i);
    }
  }

  lemma SoundBounds(u: Setup, s: System, i: nat)
    requires |s.replicas| == u.c.numReplica && SoundSystem(u, s) && u.Correct(i)
    ensures CommittedUpTo(s.replicas[i].log, s.replicas[i].commitNum)
  {
    assert SoundReplica(u, s, s.replicas[i]);
  }

  lemma GuardedPrefix(u: Setup, actions: seq<Action>, n: nat)
    requires GuardedRun(u, actions) && n <= |actions|
    ensures GuardedRun(u, actions[..n])
  {
    forall k: nat | k < n ensures Guarded(u, After(u, actions[..n][..k]), actions[..n][k]) {
      assert actions[..n][..k] == actions[..k];
    }
  }
}
