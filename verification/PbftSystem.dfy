/** A replica group in one view: n replicas, some of them faulty, and a network that
    loses, repeats and reorders messages.  Faulty parties send what they like; of what a
    correct replica has signed they can only repeat the signed values, under any label. */
module PbftSystem {
  import opened Wrappers
  import opened PbftTypes
  import opened PbftSpec
  import opened PbftLocal
  import opened PbftTokens
  import opened PbftProposals
  import opened PbftStep

  datatype Setup = Setup(c: Config, faulty: set<nat>, app: AppState)
  {
    /** At most f of n >= 3f + 1 replicas are faulty, and n - f is two or more. */
    ghost predicate Valid() {
      c.Valid() && |faulty| <= c.numFaulty && c.Quorum() >= 2
    }

    ghost predicate Correct(i: nat) {
      i < c.numReplica && i !in faulty
    }
  }

  datatype System = System(replicas: seq<Replica>, injected: set<Message>)

  /** A faulty party sends a message, or a correct replica handles an event. */
  datatype Action = Inject(message: Message) | Act(replica: nat, event: Event)

  function Start(u: Setup): (s: System)
    ensures |s.replicas| == u.c.numReplica
  {
    System(seq(u.c.numReplica, i requires 0 <= i => NewReplica(i, u.app)), {})
  }

  ghost predicate InNetwork(u: Setup, s: System, m: Message)
    requires |s.replicas| == u.c.numReplica
  {
    m in s.injected || exists i: nat :: u.Correct(i) && m in s.replicas[i].out.sent
  }

  /** Requests carry no signature.  The signature of a pre-prepare does not cover the
      requests that travel with it.  A prepare and a commit have the same fields and are
      signed without a mark of their kind, so either can be sent on as the other. */
  ghost predicate Forgeable(u: Setup, s: System, m: Message)
    requires |s.replicas| == u.c.numReplica
  {
    match m
    case RequestMsg(_) => true
    case PrePrepareMsg(p, _) =>
      !u.Correct(p.signer) || exists requests :: InNetwork(u, s, PrePrepareMsg(p, requests))
    case VoteMsg(_, v) =>
      !u.Correct(v.signer) || exists round :: InNetwork(u, s, VoteMsg(round, v))
  }

  ghost predicate Allowed(u: Setup, s: System, a: Action)
    requires |s.replicas| == u.c.numReplica
  {
    match a
    case Inject(m) => Forgeable(u, s, m)
    case Act(i, e) =>
      u.Correct(i) && Enabled(u.c, s.replicas[i], e) && (e.Recv? ==> InNetwork(u, s, e.message))
  }

  /** An action that is not allowed does nothing, so every list of actions is a run. */
  ghost function Next(u: Setup, s: System, a: Action): (s': System)
    requires |s.replicas| == u.c.numReplica
    ensures |s'.replicas| == u.c.numReplica
  {
    if !Allowed(u, s, a) then s
    else match a
      case Inject(m) => s.(injected := s.injected + {m})
      case Act(i, e) => s.(replicas := s.replicas[i := Handle(u.c, s.replicas[i], e)])
  }

  ghost function After(u: Setup, actions: seq<Action>): (s: System)
    ensures |s.replicas| == u.c.numReplica
  {
    if actions == [] then Start(u)
    else Next(u, After(u, actions[..|actions| - 1]), actions[|actions| - 1])
  }

  // Every value with the signature of a correct replica was sent by that replica

  ghost predicate KnownPrePrepare(u: Setup, s: System, p: SignedPrePrepare)
    requires |s.replicas| == u.c.numReplica
  {
    u.Correct(p.signer) ==> exists batch :: PrePrepareMsg(p, batch) in s.replicas[p.signer].out.sent
  }

  ghost predicate KnownVote(u: Setup, s: System, v: SignedVote)
    requires |s.replicas| == u.c.numReplica
  {
    u.Correct(v.signer) ==> exists round :: VoteMsg(round, v) in s.replicas[v.signer].out.sent
  }

  ghost predicate KnownMessage(u: Setup, s: System, m: Message)
    requires |s.replicas| == u.c.numReplica
  {
    match m
    case RequestMsg(_) => true
    case PrePrepareMsg(p, _) => KnownPrePrepare(u, s, p)
    case VoteMsg(_, v) => KnownVote(u, s, v)
  }

  /** A correct replica signs with its own key what it broadcasts, and asks for nothing. */
  ghost predicate OwnMessages(r: Replica) {
    && (forall q :: RequestMsg(q) !in r.out.sent)
    && (forall p, batch :: PrePrepareMsg(p, batch) in r.out.sent ==> p.signer == r.id)
    && (forall round, v :: VoteMsg(round, v) in r.out.sent ==> v.signer == r.id)
  }

  ghost predicate Genuine(u: Setup, s: System)
    requires |s.replicas| == u.c.numReplica
  {
    && (forall m <- s.injected :: KnownMessage(u, s, m))
    && (forall i: nat | u.Correct(i) :: s.replicas[i].id == i && OwnMessages(s.replicas[i]))
  }

  ghost predicate Reliable(u: Setup, s: System)
    requires |s.replicas| == u.c.numReplica
  {
    && Genuine(u, s)
    && (forall i: nat | u.Correct(i) :: Local(u.c, s.replicas[i]))
  }

  /** What a replica has sent stays sent, and new messages carry its own signature. */
  ghost predicate SendsOwn(r: Replica, r': Replica) {
    && r'.id == r.id && r.out.sent <= r'.out.sent
    && (forall q :: RequestMsg(q) in r'.out.sent ==> RequestMsg(q) in r.out.sent)
    && (forall p, batch :: PrePrepareMsg(p, batch) in r'.out.sent - r.out.sent ==> p.signer == r.id)
    && (forall round, v :: VoteMsg(round, v) in r'.out.sent - r.out.sent ==> v.signer == r.id)
  }

  lemma SendsNothing(r: Replica, r': Replica)
    requires r'.id == r.id && r'.out.sent == r.out.sent
    ensures SendsOwn(r, r')
  {
  }

  lemma SendsOne(r: Replica, r': Replica, m: Message)
    requires r'.id == r.id && r'.out.sent == r.out.sent + {m}
    requires
      match m
      case RequestMsg(_) => false
      case PrePrepareMsg(p, _) => p.signer == r.id
      case VoteMsg(_, v) => v.signer == r.id
    ensures SendsOwn(r, r')
  {
  }

  lemma HandleSendsOwn(c: Config, r: Replica, e: Event)
    requires Enabled(c, r, e)
    ensures SendsOwn(r, Handle(c, r, e))
  {
    hide SendsOwn, InsertVote, OnRequest, OnRecvVote, OnRecvPrePrepare, OnVerifiedPrePrepare;
    var r' := Handle(c, r, e);
    match e
    case Recv(RequestMsg(q)) => RequestSendsNothing(c, r, q); SendsNothing(r, r');
    case Recv(PrePrepareMsg(p, batch)) => PrePrepareSendsNothing(r, p, batch); SendsNothing(r, r');
    case Recv(VoteMsg(round, v)) => RecvVoteSendsNothing(r, round, v); SendsNothing(r, r');
    case Done(SignPrePrepare(w, k, batch)) =>
      var m := PrePrepareMsg(SignedPrePrepare(PrePrepare(w, k, Sha256(batch)), r.id), batch);
      if r'.out.sent == r.out.sent { SendsNothing(r, r'); } else { SendsOne(r, r', m); }
    case Done(VerifyPrePrepare(p, batch)) =>
      PrePrepareSendsNothing(Answer(r, e.task), p, batch);
      SendsNothing(r, r');
    case Done(SignVote(round, v)) =>
      var m := VoteMsg(round, SignedVote(v, r.id));
      InsertSendsNothing(c, Broadcast(Answer(r, e.task), m), round, m.vote);
      if r'.out.sent == r.out.sent { SendsNothing(r, r'); } else { SendsOne(r, r', m); }
    case Done(VerifyVote(round, v)) =>
      InsertSendsNothing(c, Answer(r, e.task), round, v);
      SendsNothing(r, r');
  }

  lemma RequestSendsNothing(c: Config, r: Replica, q: Request)
    ensures OnRequest(c, r, q).out.sent == r.out.sent && OnRequest(c, r, q).id == r.id
  {
    hide Fresh;
  }

  lemma PrePrepareSendsNothing(r: Replica, p: SignedPrePrepare, batch: seq<Request>)
    ensures OnRecvPrePrepare(r, p, batch).out.sent == r.out.sent && OnRecvPrePrepare(r, p, batch).id == r.id
    ensures OnVerifiedPrePrepare(r, p, batch).out.sent == r.out.sent && OnVerifiedPrePrepare(r, p, batch).id == r.id
  {
    hide Retain;
  }

  lemma RecvVoteSendsNothing(r: Replica, round: Round, v: SignedVote)
    ensures OnRecvVote(r, round, v).out.sent == r.out.sent && OnRecvVote(r, round, v).id == r.id
  {
    hide Wanted;
  }

  lemma InsertSendsNothing(c: Config, r: Replica, round: Round, v: SignedVote)
    ensures InsertVote(c, r, round, v).out.sent == r.out.sent && InsertVote(c, r, round, v).id == r.id
  {
  }

  lemma KnownStaysKnown(u: Setup, s: System, a: Action, m: Message)
    requires |s.replicas| == u.c.numReplica && KnownMessage(u, s, m)
    ensures KnownMessage(u, Next(u, s, a), m)
  {
    hide Handle, Enabled;
    SentStaysSent(u, s, a);
  }

  lemma SentStaysSent(u: Setup, s: System, a: Action)
    requires |s.replicas| == u.c.numReplica
    ensures forall i: nat | u.Correct(i) :: s.replicas[i].out.sent <= Next(u, s, a).replicas[i].out.sent
  {
    if Allowed(u, s, a) && a.Act? {
      HandleSendsOwn(u.c, s.replicas[a.replica], a.event);
    }
  }

  lemma NetworkIsKnown(u: Setup, s: System, m: Message)
    requires |s.replicas| == u.c.numReplica && Genuine(u, s) && InNetwork(u, s, m)
    ensures KnownMessage(u, s, m)
  {
  }

  lemma ReliableStep(u: Setup, s: System, a: Action)
    requires |s.replicas| == u.c.numReplica && Reliable(u, s) && u.c.Quorum() >= 2
    ensures Reliable(u, Next(u, s, a))
  {
    hide Local, Handle, KnownMessage, Forgeable;
    var s' := Next(u, s, a);
    if Allowed(u, s, a) {
      forall m <- s.injected ensures KnownMessage(u, s', m) { KnownStaysKnown(u, s, a, m); }
      if a.Inject? {
        InjectedIsKnown(u, s, a.message);
        KnownStaysKnown(u, s, a, a.message);
      } else {
        var r := s.replicas[a.replica];
        HandleSendsOwn(u.c, r, a.event);
        if a.event.Recv? {
          NetworkIsKnown(u, s, a.event.message);
          KnownIsUnforged(u, s, a.replica, a.event.message);
        }
        LocalStep(u.c, r, a.event);
      }
    }
  }

  lemma KnownIsUnforged(u: Setup, s: System, i: nat, m: Message)
    requires |s.replicas| == u.c.numReplica && u.Correct(i) && s.replicas[i].id == i
    requires KnownMessage(u, s, m)
    ensures Unforged(s.replicas[i], Recv(m))
  {
  }

  lemma InjectedIsKnown(u: Setup, s: System, m: Message)
    requires |s.replicas| == u.c.numReplica && Genuine(u, s) && Forgeable(u, s, m)
    ensures KnownMessage(u, s, m)
  {
    match m
    case RequestMsg(_) =>
    case PrePrepareMsg(p, _) =>
      if u.Correct(p.signer) {
        var batch :| InNetwork(u, s, PrePrepareMsg(p, batch));
        NetworkIsKnown(u, s, PrePrepareMsg(p, batch));
      }
    case VoteMsg(_, v) =>
      if u.Correct(v.signer) {
        var round :| InNetwork(u, s, VoteMsg(round, v));
        NetworkIsKnown(u, s, VoteMsg(round, v));
      }
  }

  lemma StartReliable(u: Setup)
    ensures Reliable(u, Start(u))
  {
    forall i: nat | u.Correct(i) 
      ensures Start(u).replicas[i].id == i && Local(u.c, Start(u).replicas[i]) && OwnMessages(Start(u).replicas[i])
    {
      NewReplicaLocal(u.c, i, u.app);
    }
  }

  lemma NewReplicaLocal(c: Config, id: nat, app: AppState)
    requires id < c.numReplica
    ensures Local(c, NewReplica(id, app)) && OwnMessages(NewReplica(id, app))
  {
    var r := NewReplica(id, app);
    forall k: nat, round: Round ensures TokenOf(r.out.tasks, r.Ballots(round), round, k) {}
  }

  lemma {:induction false} RunReliable(u: Setup, actions: seq<Action>)
    requires u.c.Quorum() >= 2
    ensures Reliable(u, After(u, actions))
  {
    if actions == [] {
      StartReliable(u);
    } else {
      RunReliable(u, actions[..|actions| - 1]);
      ReliableStep(u, After(u, actions[..|actions| - 1]), actions[|actions| - 1]);
    }
  }

  /** In no run does an assertion of a correct replica fail, with one exception: that a slot
      is prepared only once takes quorums of three votes or more. */
  lemma NoAssertionFails(u: Setup, actions: seq<Action>, i: nat)
    requires u.c.Quorum() >= 2 && u.Correct(i)
    ensures After(u, actions).replicas[i].status != AssertionFailed
    ensures u.c.Quorum() >= 3 ==> After(u, actions).replicas[i].status != PreparedTwice
  {
    hide Shaped, TokenInvariant, Proposals;
    RunReliable(u, actions);
    assert Local(u.c, After(u, actions).replicas[i]);
  }

  /** In every run, a running replica has a queue of waiting votes for a slot exactly when
      one verification is unanswered, and then it is one only; a finished slot can meet
      one late vote at most. */
  lemma OneVerificationAtATime(u: Setup, actions: seq<Action>, i: nat, round: Round, k: nat)
    requires u.c.Quorum() >= 2 && u.Correct(i)
    requires After(u, actions).replicas[i].status == Running
    ensures
      var r := After(u, actions).replicas[i];
      && (k in r.Ballots(round).pending ==> OneUnanswered(r.out.tasks, round, k))
      && (k !in r.Ballots(round).pending ==> NoneUnanswered(r.out.tasks, round, k))
      && (k < |r.log| && r.log[k].Votes(round) != map[] ==> LateVotes(r.Ballots(round), k) <= 1)
  {
    hide Shaped, Proposals, OneUnanswered, NoneUnanswered, LateVotes;
    RunReliable(u, actions);
    var r := After(u, actions).replicas[i];
    assert Local(u.c, r);
    assert RoundOk(r, round);
    assert TokenOf(r.out.tasks, r.Ballots(round), round, k);
  }
}
