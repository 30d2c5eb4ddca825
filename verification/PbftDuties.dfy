/** What a correct replica owes the group: it verifies every pre-prepare it can use, passes on
    every slot it proposes, and votes in each round of each slot it knows. */
module PbftDuties {
  import opened Wrappers
  import opened PbftTypes
  import opened PbftSpec
  import opened PbftLocal
  import opened PbftTokens
  import opened PbftProposals
  import opened PbftStep
  import opened PbftGuards
  import opened PbftSystem
  import opened PbftVotes

  type Offers = set<(SignedPrePrepare, seq<Request>)>

  function OfferOf(e: Event): Offers {
    if e.Recv? && e.message.PrePrepareMsg? then {(e.message.prePrepare, e.message.requests)} else {}
  }

  /** The vote was broadcast with the replica's signature, or waits for it. */
  ghost predicate Given(r: Replica, round: Round, v: Vote) {
    SignVote(round, v) in r.out.tasks || VoteMsg(round, SignedVote(v, r.id)) in r.out.sent
  }

  /** A pre-prepare that was received is being verified, unless its slot is taken. */
  ghost predicate Considered(r: Replica, offers: Offers) {
    forall p, batch | (p, batch) in offers && p.inner.viewNum == 0 ::
      VerifyPrePrepare(p, batch) in r.out.tasks || SlotTaken(r.log, p.inner.opNum)
  }

  ghost predicate PreparesGiven(r: Replica) {
    r.id != 0 ==> forall k: nat | SlotTaken(r.log, k) ::
      Given(r, Preparing, Vote(0, k, r.log[k].prePrepare.value.inner.digest, r.id))
  }

  /** The commit for a prepared slot, with the digest of one of the prepares. */
  ghost predicate CommitGiven(r: Replica, k: nat)
    requires k < |r.log|
  {
    exists j <- r.log[k].prepares :: Given(r, Committing, Vote(0, k, r.log[k].prepares[j].inner.digest, r.id))
  }

  ghost predicate CommitsGiven(r: Replica) {
    forall k: nat | k < |r.log| && r.log[k].prepares != map[] :: CommitGiven(r, k)
  }

  ghost predicate Dutiful(r: Replica, offers: Offers) {
    Considered(r, offers) && PreparesGiven(r) && CommitsGiven(r)
  }

  // Events that take on no duty

  ghost predicate Unburdened(r: Replica, r': Replica) {
    && r'.id == r.id && r.out.sent <= r'.out.sent && |r.log| <= |r'.log|
    && (forall k: nat | k < |r.log| :: r'.log[k].prePrepare == r.log[k].prePrepare && r'.log[k].prepares == r.log[k].prepares)
    && (forall k: nat | |r.log| <= k < |r'.log| :: r'.log[k].prePrepare.None? && r'.log[k].prepares == map[])
    && (forall t <- r.out.tasks | t.SignVote? || t.VerifyPrePrepare? :: t in r'.out.tasks)
  }

  lemma UnburdenedGiven(r: Replica, r': Replica, round: Round, v: Vote)
    requires Unburdened(r, r') && Given(r, round, v)
    ensures Given(r', round, v)
  {
  }

  lemma UnburdenedCommits(r: Replica, r': Replica)
    requires Unburdened(r, r') && CommitsGiven(r)
    ensures CommitsGiven(r')
  {
    hide Given, Unburdened;
    forall k: nat | k < |r'.log| && r'.log[k].prepares != map[] ensures CommitGiven(r', k) {
      assert k < |r.log| && r'.log[k].prepares == r.log[k].prepares by { assert Unburdened(r, r'); SamePrepares(r, r', k); }
      assert CommitGiven(r, k);
      var j :| j in r.log[k].prepares && Given(r, Committing, Vote(0, k, r.log[k].prepares[j].inner.digest, r.id));
      UnburdenedGiven(r, r', Committing, Vote(0, k, r.log[k].prepares[j].inner.digest, r.id));
      assert r'.id == r.id by { SamePrepares(r, r', k); }
    }
  }

  lemma SamePrepares(r: Replica, r': Replica, k: nat)
    requires Unburdened(r, r') && k < |r'.log| && r'.log[k].prepares != map[]
    ensures k < |r.log| && r'.log[k].prepares == r.log[k].prepares && r'.id == r.id
  {
  }

  lemma UnburdenedDutiful(r: Replica, r': Replica, offers: Offers)
    requires Dutiful(r, offers) && Unburdened(r, r')
    ensures Dutiful(r', offers)
  {
    hide Given, CommitsGiven, CommitGiven;
    UnburdenedCommits(r, r');
    forall k: nat | SlotTaken(r'.log, k) && r'.id != 0
      ensures Given(r', Preparing, Vote(0, k, r'.log[k].prePrepare.value.inner.digest, r'.id))
    {
      assert SlotTaken(r.log, k);
      UnburdenedGiven(r, r', Preparing, Vote(0, k, r.log[k].prePrepare.value.inner.digest, r.id));
    }
  }

  lemma RequestUnburdened(c: Config, r: Replica, q: Request)
    ensures Unburdened(r, OnRequest(c, r, q))
  {
    hide Fresh;
  }

  lemma RecvVoteUnburdened(r: Replica, round: Round, v: SignedVote)
    ensures Unburdened(r, OnRecvVote(r, round, v))
  {
    hide Wanted;
  }

  lemma DrainUnburdened(r: Replica, round: Round, k: nat)
    ensures Unburdened(r, Drain(r, round, k))
  {
    DrainTasks(r, round, k);
    var r' := Drain(r, round, k);
    forall t <- r.out.tasks | t.SignVote? || t.VerifyPrePrepare? ensures t in r'.out.tasks {
      assert r'.out.tasks[t] == r.out.tasks[t];
    }
  }

  lemma AnswerUnburdened(r: Replica, t: Task)
    requires !t.SignVote? && !t.VerifyPrePrepare?
    ensures Unburdened(r, Answer(r, t))
  {
  }

  lemma CommitUnburdened(c: Config, r: Replica, v: SignedVote)
    ensures Unburdened(r, InsertCommit(c, r, v))
  {
    hide InsertCommit, Counted;
    var r' := InsertCommit(c, r, v);
    InsertCommitLog(c, r, v);
    InsertCommitRest(c, r, v);
    InsertCommitTasks(c, r, v);
    forall t <- r.out.tasks | t.SignVote? || t.VerifyPrePrepare? ensures t in r'.out.tasks {
      assert r'.out.tasks[t] == r.out.tasks[t];
    }
  }

  // Events that do

  lemma OfferConsidered(r: Replica, offers: Offers, p: SignedPrePrepare, batch: seq<Request>)
    requires Dutiful(r, offers) && r.viewNum == 0
    ensures Dutiful(OnRecvPrePrepare(r, p, batch), offers + {(p, batch)})
  {
    hide Considered, PreparesGiven, CommitsGiven;
    var r' := OnRecvPrePrepare(r, p, batch);
    UnburdenedDutiful(r, r', offers);
    ConsideredMore(r', offers, p, batch);
  }

  lemma ConsideredMore(r: Replica, offers: Offers, p: SignedPrePrepare, batch: seq<Request>)
    requires Considered(r, offers)
    requires p.inner.viewNum == 0 ==> VerifyPrePrepare(p, batch) in r.out.tasks || SlotTaken(r.log, p.inner.opNum)
    ensures Considered(r, offers + {(p, batch)})
  {
  }

  /** The primary's own proposal: it owes no prepare. */
  lemma ProposedDutiful(r: Replica, offers: Offers, p: SignedPrePrepare, batch: seq<Request>)
    requires Dutiful(r, offers) && r.id == 0
    ensures Dutiful(OnSignedPrePrepare(r, p, batch), offers)
  {
    hide Given, CommitGiven;
    var r' := OnSignedPrePrepare(r, p, batch);
    forall q, b | (q, b) in offers && q.inner.viewNum == 0
      ensures VerifyPrePrepare(q, b) in r'.out.tasks || SlotTaken(r'.log, q.inner.opNum) {}
    forall k: nat | k < |r'.log| && r'.log[k].prepares != map[] ensures CommitGiven(r', k) {
      assert CommitGiven(r, k);
      SameCommit(r, r', k);
    }
  }

  lemma SameCommit(r: Replica, r': Replica, k: nat)
    requires k < |r.log| && k < |r'.log| && r'.log[k].prepares == r.log[k].prepares && r'.id == r.id && CommitGiven(r, k)
    requires r.out.sent <= r'.out.sent && forall t <- r.out.tasks | t.SignVote? :: t in r'.out.tasks
    ensures CommitGiven(r', k)
  {
    var j :| j in r.log[k].prepares && Given(r, Committing, Vote(0, k, r.log[k].prepares[j].inner.digest, r.id));
    assert Given(r', Committing, Vote(0, k, r'.log[k].prepares[j].inner.digest, r'.id));
  }

  /** All that accepting a verified pre-prepare does. */
  ghost predicate Accepting(r: Replica, r': Replica, p: SignedPrePrepare, batch: seq<Request>) {
    && r'.id == r.id && r'.out.sent == r.out.sent && |r.log| <= |r'.log|
    && (forall t <- r.out.tasks | t != VerifyPrePrepare(p, batch) :: t in r'.out.tasks)
    && (forall k: nat | SlotTaken(r.log, k) :: r'.log[k].prePrepare == r.log[k].prePrepare)
    && (forall k: nat | SlotTaken(r'.log, k) && !SlotTaken(r.log, k) ::
          && k == p.inner.opNum && r'.log[k].prePrepare == Some(p)
          && SignVote(Preparing, Vote(r.viewNum, k, p.inner.digest, r.id)) in r'.out.tasks)
    && (forall k: nat | k < |r'.log| && r'.log[k].prepares != map[] :: k < |r.log| && r'.log[k].prepares == r.log[k].prepares)
    && SlotTaken(r'.log, p.inner.opNum)
  }

  lemma VerifiedAccepts(r: Replica, p: SignedPrePrepare, batch: seq<Request>)
    requires p.inner.viewNum == r.viewNum
    ensures Accepting(r, OnVerifiedPrePrepare(Answer(r, VerifyPrePrepare(p, batch)), p, batch), p, batch)
  {
    hide Retain;
  }

  lemma AcceptedConsidered(r: Replica, r': Replica, offers: Offers, p: SignedPrePrepare, batch: seq<Request>)
    requires Considered(r, offers) && Accepting(r, r', p, batch)
    ensures Considered(r', offers)
  {
    forall q, b | (q, b) in offers && q.inner.viewNum == 0
      ensures VerifyPrePrepare(q, b) in r'.out.tasks || SlotTaken(r'.log, q.inner.opNum)
    {
      if SlotTaken(r.log, q.inner.opNum) {
        assert r'.log[q.inner.opNum].prePrepare.Some?;
      }
    }
  }

  lemma AcceptedPrepares(r: Replica, r': Replica, p: SignedPrePrepare, batch: seq<Request>)
    requires PreparesGiven(r) && Accepting(r, r', p, batch) && r.viewNum == 0
    ensures PreparesGiven(r')
  {
    forall k: nat | SlotTaken(r'.log, k) && r'.id != 0
      ensures Given(r', Preparing, Vote(0, k, r'.log[k].prePrepare.value.inner.digest, r'.id))
    {
      if SlotTaken(r.log, k) {
        assert Given(r, Preparing, Vote(0, k, r.log[k].prePrepare.value.inner.digest, r.id));
      }
    }
  }

  lemma AcceptedCommits(r: Replica, r': Replica, p: SignedPrePrepare, batch: seq<Request>)
    requires CommitsGiven(r) && Accepting(r, r', p, batch)
    ensures CommitsGiven(r')
  {
    hide CommitGiven;
    forall k: nat | k < |r'.log| && r'.log[k].prepares != map[] ensures CommitGiven(r', k) {
      assert CommitGiven(r, k);
      SameCommit(r, r', k);
    }
  }

  /** A verified pre-prepare takes its slot, and a prepare for it is signed. */
  lemma AcceptedDutiful(r: Replica, offers: Offers, p: SignedPrePrepare, batch: seq<Request>)
    requires Dutiful(r, offers) && p.inner.viewNum == r.viewNum == 0
    ensures Dutiful(OnVerifiedPrePrepare(Answer(r, VerifyPrePrepare(p, batch)), p, batch), offers)
  {
    hide Considered, PreparesGiven, CommitsGiven, Accepting, OnVerifiedPrePrepare;
    var r' := OnVerifiedPrePrepare(Answer(r, VerifyPrePrepare(p, batch)), p, batch);
    VerifiedAccepts(r, p, batch);
    AcceptedConsidered(r, r', offers, p, batch);
    AcceptedPrepares(r, r', p, batch);
    AcceptedCommits(r, r', p, batch);
  }

  lemma StillGiven(r: Replica, r': Replica, round: Round, v: Vote)
    requires Given(r, round, v) && r'.id == r.id && r.out.sent <= r'.out.sent
    requires forall t <- r.out.tasks | t.SignVote? :: t in r'.out.tasks
    ensures Given(r', round, v)
  {
  }

  /** The own vote is broadcast in the moment it comes back signed. */
  lemma SignedDutiful(r: Replica, offers: Offers, round: Round, v: Vote)
    requires Dutiful(r, offers)
    ensures Dutiful(Broadcast(Answer(r, SignVote(round, v)), VoteMsg(round, SignedVote(v, r.id))), offers)
  {
    var r' := Broadcast(Answer(r, SignVote(round, v)), VoteMsg(round, SignedVote(v, r.id)));
    forall other: Round, w: Vote | Given(r, other, w) ensures Given(r', other, w) {}
    forall k: nat | k < |r'.log| && r'.log[k].prepares != map[] ensures CommitGiven(r', k) {
      assert CommitGiven(r, k);
    }
  }

  /** The prepare that completes its quorum has a commit signed. */
  lemma PrepareDutiful(c: Config, r: Replica, offers: Offers, v: SignedVote)
    requires Dutiful(r, offers) && r.viewNum == 0
    ensures Dutiful(InsertPrepare(c, r, v), offers)
  {
    hide Given, CommitGiven, Counted;
    var r', k := InsertPrepare(c, r, v), v.inner.opNum;
    InsertPrepareLog(c, r, v);
    if Finishes(c, r, v) {
      PreparedCommits(c, r, v);
      forall q, b | (q, b) in offers && q.inner.viewNum == 0
        ensures VerifyPrePrepare(q, b) in r'.out.tasks || SlotTaken(r'.log, q.inner.opNum) {}
      forall j: nat | SlotTaken(r'.log, j) && r'.id != 0
        ensures Given(r', Preparing, Vote(0, j, r'.log[j].prePrepare.value.inner.digest, r'.id))
      {
        assert SlotTaken(r.log, j);
        StillGiven(r, r', Preparing, Vote(0, j, r.log[j].prePrepare.value.inner.digest, r.id));
      }
      forall j: nat | j < |r'.log| && r'.log[j].prepares != map[] ensures CommitGiven(r', j) {
        if j != k {
          assert CommitGiven(r, j);
          SameCommit(r, r', j);
        }
      }
    } else {
      UnburdenedDutiful(r, r', offers);
    }
  }

  lemma PreparedCommits(c: Config, r: Replica, v: SignedVote)
    requires Finishes(c, r, v) && r.viewNum == 0
    ensures
      var r', k := InsertPrepare(c, r, v), v.inner.opNum;
      && r'.id == r.id && r'.out.sent == r.out.sent && (forall t <- r.out.tasks :: t in r'.out.tasks)
      && k < |r'.log| && CommitGiven(r', k)
  {
    CountedHas(r, Preparing, v);
    hide Counted;
    var r', k := InsertPrepare(c, r, v), v.inner.opNum;
    InsertPrepareLog(c, r, v);
    assert r'.log[k].prepares[v.inner.replicaId] == v;
    assert Given(r', Committing, Vote(0, k, v.inner.digest, r'.id));
  }

  lemma InsertDutiful(c: Config, r: Replica, offers: Offers, round: Round, v: SignedVote)
    requires Dutiful(r, offers) && r.viewNum == 0
    ensures Dutiful(InsertVote(c, r, round, v), offers)
  {
    hide Dutiful, InsertPrepare, InsertCommit, Unburdened;
    if round.Preparing? {
      PrepareDutiful(c, r, offers, v);
    } else {
      CommitUnburdened(c, r, v);
      UnburdenedDutiful(r, InsertCommit(c, r, v), offers);
    }
  }

  lemma DutyStep(c: Config, r: Replica, e: Event, offers: Offers)
    requires Dutiful(r, offers) && Local(c, r) && Enabled(c, r, e)
    ensures Dutiful(Handle(c, r, e), offers + OfferOf(e))
  {
    hide Dutiful, Unburdened, OnRequest, OnRecvPrePrepare, OnRecvVote, OnSignedPrePrepare, OnVerifiedPrePrepare, InsertVote,
         LogOk, BallotsOk, TokenInvariant, Proposals, TasksOk;
    var r' := Handle(c, r, e);
    assert !(e.Recv? && e.message.PrePrepareMsg?) ==> offers + OfferOf(e) == offers;
    match e
    case Recv(RequestMsg(q)) => RequestUnburdened(c, r, q); UnburdenedDutiful(r, r', offers);
    case Recv(PrePrepareMsg(p, batch)) => OfferConsidered(r, offers, p, batch);
    case Recv(VoteMsg(round, v)) => RecvVoteUnburdened(r, round, v); UnburdenedDutiful(r, r', offers);
    case Done(t) => DutyDone(c, r, t, offers);
  }

  lemma DutyDone(c: Config, r: Replica, t: Task, offers: Offers)
    requires Dutiful(r, offers) && Local(c, r) && Enabled(c, r, Done(t))
    ensures Dutiful(Handle(c, r, Done(t)), offers)
  {
    hide Dutiful, Unburdened, OnSignedPrePrepare, OnVerifiedPrePrepare, InsertVote,
         LogOk, BallotsOk, TokenInvariant, Proposals, TasksOk;
    var r0, r' := Answer(r, t), Handle(c, r, Done(t));
    TaskAt(r, t);
    if !t.SignVote? && !t.VerifyPrePrepare? {
      AnswerUnburdened(r, t);
      UnburdenedDutiful(r, r0, offers);
    }
    match t
    case SignPrePrepare(w, k, batch) =>
      ProposedDutiful(r0, offers, SignedPrePrepare(PrePrepare(w, k, Sha256(batch)), r.id), batch);
    case VerifyPrePrepare(p, batch) => AcceptedDutiful(r, offers, p, batch);
    case SignVote(round, v) =>
      SignedDutiful(r, offers, round, v);
      var r1 := Broadcast(r0, VoteMsg(round, SignedVote(v, r.id)));
      InsertDutiful(c, r1, offers, round, SignedVote(v, r.id));
    case VerifyVote(round, v) =>
      var r1 := InsertVote(c, r0, round, v);
      InsertDutiful(c, r0, offers, round, v);
      DrainUnburdened(r1, round, v.inner.opNum);
      UnburdenedDutiful(r1, Drain(r1, round, v.inner.opNum), offers);
  }

  // Runs

  /** The pre-prepares that replica i was handed. */
  ghost function OffersTo(u: Setup, actions: seq<Action>, i: nat): Offers {
    if actions == [] then {}
    else
      var before, a := actions[..|actions| - 1], actions[|actions| - 1];
      OffersTo(u, before, i) + if a.Act? && a.replica == i && Allowed(u, After(u, before), a) then OfferOf(a.event) else {}
  }

  lemma {:induction false} DutyRun(u: Setup, actions: seq<Action>, i: nat)
    requires u.c.Quorum() >= 2 && u.Correct(i)
    ensures Dutiful(After(u, actions).replicas[i], OffersTo(u, actions, i))
  {
    hide Dutiful, Local, Handle, Forgeable, OfferOf, InNetwork;
    if actions == [] {
      NothingOwed(i, u.app);
    } else {
      var n := |actions| - 1;
      var s, a := After(u, actions[..n]), actions[n];
      DutyRun(u, actions[..n], i);
      if a.Act? && a.replica == i && Allowed(u, s, a) {
        RunReliable(u, actions[..n]);
        assert Local(u.c, s.replicas[i]);
        DutyStep(u.c, s.replicas[i], a.event, OffersTo(u, actions[..n], i));
      } else {
        assert After(u, actions).replicas[i] == s.replicas[i];
        assert OffersTo(u, actions, i) == OffersTo(u, actions[..n], i);
      }
    }
  }

  lemma NothingOwed(i: nat, app: AppState)
    ensures Dutiful(NewReplica(i, app), {})
  {
  }

  /** In every run, and with any other replicas faulty, a correct replica forgets nothing: each
      pre-prepare of the view that it was handed is being verified or its slot is taken. */
  lemma PrePreparesConsidered(u: Setup, actions: seq<Action>, i: nat, p: SignedPrePrepare, batch: seq<Request>)
    requires u.c.Quorum() >= 2 && u.Correct(i) && (p, batch) in OffersTo(u, actions, i) && p.inner.viewNum == 0
    ensures
      var r := After(u, actions).replicas[i];
      VerifyPrePrepare(p, batch) in r.out.tasks || SlotTaken(r.log, p.inner.opNum)
  {
    hide PreparesGiven, CommitsGiven, After, OffersTo;
    DutyRun(u, actions, i);
  }

  /** A slot of the log was passed on: the primary has sent its pre-prepare and its batch, and
      each backup has sent the prepare for its digest, or waits for the signature. */
  lemma KnownSlotsAreVoiced(u: Setup, actions: seq<Action>, i: nat, k: nat)
    requires u.c.Quorum() >= 2 && u.Correct(i) && SlotTaken(After(u, actions).replicas[i].log, k)
    ensures
      var r := After(u, actions).replicas[i];
      if i == 0 then
        PrePrepareMsg(r.log[k].prePrepare.value, r.log[k].requests) in r.out.sent
      else
        var v := Vote(0, k, r.log[k].prePrepare.value.inner.digest, i);
        SignVote(Preparing, v) in r.out.tasks || VoteMsg(Preparing, SignedVote(v, i)) in r.out.sent
  {
    hide Considered, CommitsGiven, After, OffersTo, Shaped, TokenInvariant;
    DutyRun(u, actions, i);
    RunReliable(u, actions);
    var r := After(u, actions).replicas[i];
    assert Local(u.c, r) && r.id == i;
    assert i != 0 ==> Given(r, Preparing, Vote(0, k, r.log[k].prePrepare.value.inner.digest, r.id));
  }

  /** A prepared slot is voted for again: the commit, for the digest of one of its prepares,
      was sent or waits for its signature. */
  lemma PreparedSlotsAreVoiced(u: Setup, actions: seq<Action>, i: nat, k: nat) returns (v: Vote, j: nat)
    requires u.c.Quorum() >= 2 && u.Correct(i) && k < |After(u, actions).replicas[i].log|
    requires After(u, actions).replicas[i].log[k].prepares != map[]
    ensures
      var r := After(u, actions).replicas[i];
      && j in r.log[k].prepares && v == Vote(0, k, r.log[k].prepares[j].inner.digest, i)
      && (SignVote(Committing, v) in r.out.tasks || VoteMsg(Committing, SignedVote(v, i)) in r.out.sent)
  {
    hide Considered, PreparesGiven, After, OffersTo, Local;
    DutyRun(u, actions, i);
    RunReliable(u, actions);
    var r := After(u, actions).replicas[i];
    assert r.id == i && CommitGiven(r, k);
    j :| j in r.log[k].prepares && Given(r, Committing, Vote(0, k, r.log[k].prepares[j].inner.digest, r.id));
    v := Vote(0, k, r.log[k].prepares[j].inner.digest, i);
  }
}
