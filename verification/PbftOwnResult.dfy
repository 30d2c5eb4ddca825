/** Whose result a client gets: its own operation's, unless somebody else voices a request
    with its number and its id or address. */
module PbftOwnResult {
  import opened Wrappers
  import opened PbftTypes
  import opened PbftSpec
  import opened PbftLocal
  import opened PbftTokens
  import opened PbftProposals
  import opened PbftGuards
  import opened PbftExecution
  import opened PbftSystem
  import opened PbftOrigins
  import opened PbftAgreement
  import opened PbftPrimary
  import opened PbftClient

  // Where executed requests come from

  /** A pre-prepare that a replica of view 0 may accept has come with this request. */
  ghost predicate CarriedBy(u: Setup, s: System, q: Request, p: SignedPrePrepare, batch: seq<Request>)
    requires |s.replicas| == u.c.numReplica
  {
    && InNetwork(u, s, PrePrepareMsg(p, batch)) && q in batch
    && p.inner.viewNum == 0 && Answered(u.c, VerifyPrePrepare(p, batch))
  }

  /** Somebody sent the request, or a faulty primary proposed it unasked. */
  ghost predicate Voiced(u: Setup, s: System, q: Request)
    requires |s.replicas| == u.c.numReplica
  {
    || InNetwork(u, s, RequestMsg(q))
    || (!u.Correct(0) && exists p, batch :: CarriedBy(u, s, q, p, batch))
  }

  lemma {:induction false} AcceptedAreAsked(u: Setup, actions: seq<Action>, q: Request)
    requires u.Correct(0) && q in Accepted(u, actions)
    ensures InNetwork(u, After(u, actions), RequestMsg(q))
  {
    hide InNetwork, Handle, Enabled, Forgeable, Fresh, IsPrimary, Next;
    var before, a := actions[..|actions| - 1], actions[|actions| - 1];
    if q in Accepted(u, before) {
      AcceptedAreAsked(u, before, q);
    }
    NetworkStays(u, After(u, before), a, RequestMsg(q));
  }

  lemma {:induction false} BatchInFlatten(batches: seq<seq<Request>>, k: nat, q: Request)
    requires k < |batches| && q in batches[k]
    ensures q in Flatten(batches)
  {
    if k < |batches| - 1 {
      BatchInFlatten(batches[..|batches| - 1], k, q);
    }
  }

  /** A slot in the log holds the batch proposed for it, all of it accepted. */
  lemma SlotIsBatch(r: Replica, accepted: seq<Request>, batches: seq<seq<Request>>, k: nat, q: Request)
    requires InOrder(r, accepted, batches) && LogSent(r) && UnsignedOk(r.out.tasks, r.log, r.opNum)
    requires SlotTaken(r.log, k) && q in r.log[k].requests
    ensures q in accepted
  {
    hide SeqsRise, Noted, Flatten;
    assert ProposedWith(r, (k - 1) + 1, batches[k - 1]);
    BatchInFlatten(batches, k - 1, q);
  }

  lemma PrimaryProposals(u: Setup, s: System)
    requires |s.replicas| == u.c.numReplica && Reliable(u, s) && u.Correct(0)
    ensures LogSent(s.replicas[0]) && UnsignedOk(s.replicas[0].out.tasks, s.replicas[0].log, s.replicas[0].opNum)
  {
    hide Shaped, TokenInvariant, NoOwnToVerify, SentInLog, LogSent, UnsignedOk;
    ReliableAt(u, s, 0);
  }

  /** A correct primary's log holds what it accepted. */
  lemma PrimarySlotAsked(u: Setup, actions: seq<Action>, k: nat, q: Request)
    requires u.c.Quorum() >= 2 && u.Correct(0)
    requires SlotTaken(After(u, actions).replicas[0].log, k) && q in After(u, actions).replicas[0].log[k].requests
    ensures InNetwork(u, After(u, actions), RequestMsg(q))
  {
    hide Reliable, InNetwork, InOrder, LogSent, UnsignedOk, Accepted, After;
    var batches := CorrectPrimaryIsFifo(u, actions);
    RunReliable(u, actions);
    PrimaryProposals(u, After(u, actions));
    SlotIsBatch(After(u, actions).replicas[0], Accepted(u, actions), batches, k, q);
    AcceptedAreAsked(u, actions, q);
  }

  lemma SlotVoiced(u: Setup, actions: seq<Action>, i: nat, k: nat, q: Request)
    requires u.c.Quorum() >= 2 && GuardedRun(u, actions) && u.Correct(i)
    requires 1 <= k <= After(u, actions).replicas[i].commitNum
    requires k < |After(u, actions).replicas[i].log| && q in After(u, actions).replicas[i].log[k].requests
    ensures Voiced(u, After(u, actions), q)
  {
    hide SoundSystem, InNetwork, KnownVotes, VotesIn, DigestSound, KnownPrePrepare;
    RunSound(u, actions);
    var s := After(u, actions);
    var entry := s.replicas[i].log[k];
    ExecutedSlot(u, s, i, k);
    if u.Correct(0) {
      PrimaryDigest(u, s, i, k);
      PrimaryEntry(u, s, k);
      PrimarySlotAsked(u, actions, k, q);
    } else {
      var p := entry.prePrepare.value;
      assert KnownProposal(u, s, p, entry.requests);
      assert 0 % u.c.numReplica == 0;
      assert CarriedBy(u, s, q, p, entry.requests);
    }
  }

  lemma PrimaryEntry(u: Setup, s: System, k: nat)
    requires |s.replicas| == u.c.numReplica && SoundSystem(u, s) && u.Correct(0) && k < |s.replicas[0].log|
    ensures EntryOk(u.c, s.replicas[0].log[k], k)
  {
    hide TokenInvariant, Proposals, BallotsOk, TasksOk, SoundReplica, Genuine;
    assert Local(u.c, s.replicas[0]);
    EntryAt(u.c, s.replicas[0].log, k);
  }

  lemma {:induction false} SlotsVoiced(u: Setup, actions: seq<Action>, i: nat, n: nat, q: Request)
    requires u.c.Quorum() >= 2 && GuardedRun(u, actions) && u.Correct(i)
    requires n <= After(u, actions).replicas[i].commitNum && (n == 0 || n < |After(u, actions).replicas[i].log|)
    requires q in Executed(After(u, actions).replicas[i].log, n)
    ensures Voiced(u, After(u, actions), q)
  {
    hide GuardedRun, Voiced, After;
    if n > 0 {
      if q in After(u, actions).replicas[i].log[n].requests {
        SlotVoiced(u, actions, i, n, q);
      } else {
        SlotsVoiced(u, actions, i, n - 1, q);
      }
    }
  }

  /** Nothing is executed that nobody voiced. */
  lemma ExecutedIsVoiced(u: Setup, actions: seq<Action>, i: nat, q: Request)
    requires u.c.Quorum() >= 2 && GuardedRun(u, actions) && u.Correct(i)
    requires q in History(After(u, actions).replicas[i])
    ensures Voiced(u, After(u, actions), q)
  {
    hide GuardedRun, Voiced, After;
    SlotsVoiced(u, actions, i, After(u, actions).replicas[i].commitNum, q);
  }

  // The client's own result

  /** Nobody but the client has voiced a request with the number k + 1 and the id or the
      address of the client. */
  ghost predicate OwnOnly(u: Setup, w: World, k: nat)
    requires |w.group.replicas| == u.c.numReplica && k < |w.client.requests|
  {
    forall q: Request |
      && Voiced(u, w.group, q) && q.seqNum == k + 1
      && (q.clientId == w.client.id || q.clientAddr == w.client.addr) :: q == w.client.requests[k].1
  }

  /** The k-th result handed up is that of the k-th request the client sent, wherever it was
      executed, provided that nobody else used its number with its id or address. */
  lemma OwnResult(u: Setup, id: nat, addr: Addr, actions: seq<WorldAction>, k: nat)
    returns (j: nat, p: nat)
    requires u.Valid() && GuardedRun(u, GroupActions(u, id, addr, actions))
    requires
      var client := WorldAfter(u, id, addr, actions).client;
      k < |client.upcalls| && k < |client.requests|
    requires OwnOnly(u, WorldAfter(u, id, addr, actions), k)
    ensures u.Correct(j)
    ensures
      var w := WorldAfter(u, id, addr, actions);
      && ComputedAt(u, w.group, j, p, addr, w.client.upcalls[k])
      && forall i: nat | u.Correct(i) && p < |History(w.group.replicas[i])| ::
           && ComputedAt(u, w.group, i, p, addr, w.client.upcalls[k])
           && History(w.group.replicas[i])[p] == w.client.requests[k].1
  {
    hide ClientOk, GuardedRun, Setup.Valid, Voiced, InNetwork, AskedFrom, History, ResultAt, OwnOnly, InSequence, After,
         WorldAfter, GroupActions, Asked;
    ValidBounds(u);
    var w := WorldAfter(u, id, addr, actions);
    j, p := ClientResult(u, id, addr, actions, k);
    ClientRun(u, id, addr, actions);
    ClientOrder(u, w);
    GroupRunsAlone(u, id, addr, actions);
    var q := History(w.group.replicas[j])[p];
    ExecutedIsVoiced(u, GroupActions(u, id, addr, actions), j, q);
    NamesTheClient(u, w, k, q);
  }

  lemma ClientOrder(u: Setup, w: World)
    requires |w.group.replicas| == u.c.numReplica && ClientOk(u, w)
    ensures InSequence(w.client)
    ensures forall k: nat | k < |w.client.upcalls| :: w.client.upcalls[k].seqNum == k + 1
  {
  }

  /** A request answered at the client's address is the client's, or a foreign one that
      names it. */
  lemma NamesTheClient(u: Setup, w: World, k: nat, q: Request)
    requires |w.group.replicas| == u.c.numReplica && InSequence(w.client)
    requires k < |w.client.requests| && OwnOnly(u, w, k)
    requires Voiced(u, w.group, q) && q.seqNum == k + 1 && AskedFrom(Asked(u, w.group), q, w.client.addr)
    ensures q == w.client.requests[k].1
  {
    hide InNetwork;
    assert OwnRequest(w.client, k + 1, w.client.requests[k].1);
    if q.clientAddr != w.client.addr {
      var q': Request :| q' in Asked(u, w.group) && q'.clientId == q.clientId && q'.seqNum == q.seqNum && q'.clientAddr == w.client.addr;
      assert Voiced(u, w.group, q');
    }
  }
}
