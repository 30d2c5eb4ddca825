/** What a correct primary does with the requests it accepts: it proposes each of them
    once, in the order of acceptance, and never runs far ahead of execution. */
module PbftPrimary {
  import opened Wrappers
  import opened PbftTypes
  import opened PbftSpec
  import opened PbftLocal
  import opened PbftTokens
  import opened PbftProposals
  import opened PbftStep
  import opened PbftGuards
  import opened PbftExecution
  import opened PbftSystem

  /** The request an event makes the replica accept, if any. */
  function AcceptedBy(c: Config, r: Replica, e: Event): seq<Request> {
    if e.Recv? && e.message.RequestMsg? && Fresh(r.service.replies, e.message.request) && IsPrimary(c, r)
    then [e.message.request]
    else []
  }

  /** All requests replica 0 has accepted in a run, oldest first. */
  ghost function Accepted(u: Setup, actions: seq<Action>): seq<Request>
    requires u.Correct(0)
  {
    if actions == [] then []
    else
      var before, a := actions[..|actions| - 1], actions[|actions| - 1];
      var s := After(u, before);
      Accepted(u, before) +
      if a.Act? && a.replica == 0 && Allowed(u, s, a) then AcceptedBy(u.c, s.replicas[0], a.event) else []
  }

  function Flatten(batches: seq<seq<Request>>): seq<Request> {
    if batches == [] then [] else Flatten(batches[..|batches| - 1]) + batches[|batches| - 1]
  }

  /** Slot k is proposed with this batch: it waits for its signature or is in the log. */
  ghost predicate ProposedWith(r: Replica, k: nat, batch: seq<Request>) {
    || SignPrePrepare(0, k, batch) in r.out.tasks
    || (SlotTaken(r.log, k) && r.log[k].requests == batch)
  }

  ghost predicate ProposedBatches(r: Replica, batches: seq<seq<Request>>) {
    && |batches| == r.opNum
    && forall k: nat | k < |batches| :: ProposedWith(r, k + 1, batches[k]) && 1 <= |batches[k]| <= 100
  }

  ghost predicate SeqsRise(accepted: seq<Request>) {
    forall i: nat, j: nat | i < j < |accepted| && accepted[i].clientId == accepted[j].clientId ::
      accepted[i].seqNum < accepted[j].seqNum
  }

  ghost predicate Noted(replies: map<nat, CachedReply>, accepted: seq<Request>) {
    forall q <- accepted :: q.clientId in replies && q.seqNum <= replies[q.clientId].seqNum
  }

  /** The order of proposals, and how far they are ahead of execution. */
  ghost predicate InOrder(r: Replica, accepted: seq<Request>, batches: seq<seq<Request>>) {
    && ProposedBatches(r, batches)
    && accepted == Flatten(batches) + r.requests
    && SeqsRise(accepted)
    && Noted(r.service.replies, accepted)
    && r.opNum <= r.commitNum + 2
    && (r.requests != [] ==> r.opNum > r.commitNum)
  }

  ghost predicate RepliesGrow(replies: map<nat, CachedReply>, replies': map<nat, CachedReply>) {
    forall i <- replies :: i in replies' && replies[i].seqNum <= replies'[i].seqNum
  }

  /** A handler that neither accepts, proposes nor executes. */
  ghost predicate QueueIdle(r: Replica, r': Replica) {
    && r'.opNum == r.opNum && r'.commitNum == r.commitNum && r'.requests == r.requests
    && (forall t: Task | t.SignPrePrepare? :: r'.out.tasks[t] == r.out.tasks[t])
    && Extends(r.log, r'.log)
    && RepliesGrow(r.service.replies, r'.service.replies)
  }

  lemma NotedMore(replies: map<nat, CachedReply>, replies': map<nat, CachedReply>, accepted: seq<Request>)
    requires Noted(replies, accepted) && RepliesGrow(replies, replies')
    ensures Noted(replies', accepted)
  {
  }

  lemma IdleInOrder(r: Replica, r': Replica, accepted: seq<Request>, batches: seq<seq<Request>>)
    requires InOrder(r, accepted, batches) && QueueIdle(r, r')
    ensures InOrder(r', accepted, batches)
  {
    hide SeqsRise, Noted;
    NotedMore(r.service.replies, r'.service.replies, accepted);
    forall k: nat | k < |batches| ensures ProposedWith(r', k + 1, batches[k]) {
      assert ProposedWith(r, k + 1, batches[k]);
      assert r'.out.tasks[SignPrePrepare(0, k + 1, batches[k])] == r.out.tasks[SignPrePrepare(0, k + 1, batches[k])];
    }
  }

  lemma FlattenSnoc(batches: seq<seq<Request>>, batch: seq<Request>)
    ensures Flatten(batches + [batch]) == Flatten(batches) + batch
  {
    assert (batches + [batch])[..|batches|] == batches;
  }

  /** The parts of InOrder that closing a batch needs and keeps. */
  ghost predicate QueueInOrder(r: Replica, accepted: seq<Request>, batches: seq<seq<Request>>) {
    ProposedBatches(r, batches) && accepted == Flatten(batches) + r.requests
  }

  function FirstBatch(r: Replica): seq<Request> {
    r.requests[..if |r.requests| < MAX_BATCH then |r.requests| else MAX_BATCH]
  }

  lemma FlattenMoves(accepted: seq<Request>, flat: seq<Request>, r: Replica, rest: seq<Request>)
    requires accepted == flat + r.requests && r.requests == FirstBatch(r) + rest
    ensures accepted == (flat + FirstBatch(r)) + rest
  {
    hide FirstBatch;
  }

  lemma CloseBatchInOrder(c: Config, r: Replica, accepted: seq<Request>, batches: seq<seq<Request>>)
    requires QueueInOrder(r, accepted, batches) && IsPrimary(c, r) && r.requests != [] && r.viewNum == 0
    ensures QueueInOrder(CloseBatch(c, r), accepted, batches + [FirstBatch(r)])
  {
    hide Flatten;
    var r', batch := CloseBatch(c, r), FirstBatch(r);
    FlattenSnoc(batches, batch);
    FlattenMoves(accepted, Flatten(batches), r, r'.requests);
    forall k: nat | k < |batches| ensures ProposedWith(r', k + 1, batches[k]) {
      assert ProposedWith(r, k + 1, batches[k]);
    }
    assert ProposedWith(r', r'.opNum, batch);
  }

  lemma CloseBatchesInOrder(c: Config, r: Replica, accepted: seq<Request>, batches: seq<seq<Request>>)
    returns (batches': seq<seq<Request>>)
    requires QueueInOrder(r, accepted, batches) && IsPrimary(c, r) && r.viewNum == 0
    requires r.opNum <= r.commitNum + CONCURRENT_PRE_PREPARES + 1
    ensures
      var r' := CloseBatches(c, r);
      && QueueInOrder(r', accepted, batches')
      && r'.opNum <= r'.commitNum + CONCURRENT_PRE_PREPARES + 1
      && (r'.requests != [] ==> r'.opNum > r'.commitNum)
    decreases |r.requests|
  {
    hide QueueInOrder;
    if r.requests != [] && r.opNum <= r.commitNum + CONCURRENT_PRE_PREPARES {
      CloseBatchInOrder(c, r, accepted, batches);
      batches' := CloseBatchesInOrder(c, CloseBatch(c, r), accepted, batches + [FirstBatch(r)]);
    } else {
      batches' := batches;
    }
  }

  lemma {:induction false} ExecuteGrowsReplies(c: Config, id: nat, viewNum: nat, s: Service, batch: seq<Request>)
    ensures RepliesGrow(s.replies, ExecuteBatch(c, id, viewNum, s, batch).replies)
    decreases |batch|
  {
    if batch != [] {
      ExecuteGrowsReplies(c, id, viewNum, ExecuteRequest(c, id, viewNum, s, batch[0]), batch[1..]);
    }
  }

  lemma {:induction false} ExecuteCommittedGrowsReplies(c: Config, r: Replica)
    ensures RepliesGrow(r.service.replies, ExecuteCommitted(c, r).service.replies)
    decreases |r.log| - r.commitNum
  {
    if NextCommitted(r) {
      var batch := r.log[r.commitNum + 1].requests;
      ExecuteGrowsReplies(c, r.id, r.viewNum, r.service, batch);
      ExecuteCommittedGrowsReplies(c, r.(commitNum := r.commitNum + 1,
                                         service := ExecuteBatch(c, r.id, r.viewNum, r.service, batch)));
    }
  }

  lemma InsertCommitInOrder(c: Config, r: Replica, v: SignedVote, accepted: seq<Request>, batches: seq<seq<Request>>)
    returns (batches': seq<seq<Request>>)
    requires InOrder(r, accepted, batches) && IsPrimary(c, r) && r.viewNum == 0
    ensures InOrder(InsertCommit(c, r, v), accepted, batches')
  {
    hide SeqsRise, Noted;
    var k, votes := v.inner.opNum, Counted(r, Committing, v);
    if Commits(c, r, v) {
      var r1 := DropTable(r, Committing, k).(log := r.log[k := r.log[k].(commits := votes)]);
      IdleInOrder(r, r1, accepted, batches);
      var r2 := ExecuteCommitted(c, r1);
      ExecuteCommittedGrowsReplies(c, r1);
      NotedMore(r1.service.replies, r2.service.replies, accepted);
      assert QueueInOrder(r2, accepted, batches) by { ServiceIrrelevant(r1, r2, accepted, batches); }
      batches' := CloseBatchesInOrder(c, r2, accepted, batches);
    } else {
      IdleInOrder(r, InsertCommit(c, r, v), accepted, batches);
      batches' := batches;
    }
  }

  lemma ServiceIrrelevant(r: Replica, r': Replica, accepted: seq<Request>, batches: seq<seq<Request>>)
    requires QueueInOrder(r, accepted, batches) && r' == r.(service := r'.service, commitNum := r'.commitNum)
    ensures QueueInOrder(r', accepted, batches)
  {
    forall k: nat | k < |batches| ensures ProposedWith(r', k + 1, batches[k]) {
      assert ProposedWith(r, k + 1, batches[k]);
    }
  }

  lemma InsertInOrder(c: Config, r: Replica, round: Round, v: SignedVote, accepted: seq<Request>, batches: seq<seq<Request>>)
    returns (batches': seq<seq<Request>>)
    requires InOrder(r, accepted, batches) && IsPrimary(c, r) && r.viewNum == 0
    ensures InOrder(InsertVote(c, r, round, v), accepted, batches')
  {
    if round.Preparing? {
      hide InOrder;
      IdleInOrder(r, InsertPrepare(c, r, v), accepted, batches);
      batches' := batches;
    } else {
      hide InOrder, InsertCommit;
      batches' := InsertCommitInOrder(c, r, v, accepted, batches);
    }
  }

  lemma RequestInOrder(c: Config, r: Replica, q: Request, accepted: seq<Request>, batches: seq<seq<Request>>)
    returns (batches': seq<seq<Request>>)
    requires InOrder(r, accepted, batches) && IsPrimary(c, r) && r.viewNum == 0
    ensures InOrder(OnRequest(c, r, q), accepted + AcceptedBy(c, r, Recv(RequestMsg(q))), batches')
  {
    if Fresh(r.service.replies, q) {
      var noted := r.service.(replies := r.service.replies[q.clientId := CachedReply(q.seqNum, None)]);
      var queued := r.(service := noted, requests := r.requests + [q]);
      var more := accepted + [q];
      AcceptedRises(r.service.replies, noted.replies, accepted, q);
      assert Flatten(batches) + queued.requests == more;
      forall k: nat | k < |batches| ensures ProposedWith(queued, k + 1, batches[k]) {
        assert ProposedWith(r, k + 1, batches[k]);
      }
      assert QueueInOrder(queued, more, batches);
      if queued.opNum < queued.commitNum + CONCURRENT_PRE_PREPARES {
        assert r.requests == [];
        CloseBatchInOrder(c, queued, more, batches);
        batches' := batches + [FirstBatch(queued)];
      } else {
        batches' := batches;
      }
    } else {
      assert accepted + [] == accepted;
      IdleInOrder(r, OnRequest(c, r, q), accepted, batches);
      batches' := batches;
    }
  }

  lemma AcceptedRises(replies: map<nat, CachedReply>, replies': map<nat, CachedReply>, accepted: seq<Request>, q: Request)
    requires SeqsRise(accepted) && Noted(replies, accepted) && Fresh(replies, q)
    requires replies' == replies[q.clientId := CachedReply(q.seqNum, None)]
    ensures SeqsRise(accepted + [q]) && Noted(replies', accepted + [q])
  {
    forall i: nat | i < |accepted| && accepted[i].clientId == q.clientId ensures accepted[i].seqNum < q.seqNum {
      assert accepted[i] in accepted;
    }
  }

  lemma SignPrePrepareInOrder(c: Config, r: Replica, t: Task, accepted: seq<Request>, batches: seq<seq<Request>>)
    requires InOrder(r, accepted, batches) && Local(c, r) && r.id == 0
    requires t.SignPrePrepare? && t in r.out.tasks
    ensures InOrder(OnDone(c, Answer(r, t), t), accepted, batches)
  {
    hide SeqsRise, Noted, LogOk, BallotsOk, TokenInvariant, SentInLog, LogSent, NoOwnToVerify;
    TaskAt(r, t);
    var r' := OnDone(c, Answer(r, t), t);
    assert !SlotTaken(r.log, t.opNum);
    assert SlotTaken(r'.log, t.opNum) && r'.log[t.opNum].requests == t.requests;
    forall k: nat | k < |batches| ensures ProposedWith(r', k + 1, batches[k]) {
      assert ProposedWith(r, k + 1, batches[k]);
    }
  }

  lemma PrimaryStep(c: Config, r: Replica, e: Event, accepted: seq<Request>, batches: seq<seq<Request>>)
    returns (batches': seq<seq<Request>>)
    requires InOrder(r, accepted, batches) && Local(c, r) && r.id == 0 && Enabled(c, r, e)
    ensures InOrder(Handle(c, r, e), accepted + AcceptedBy(c, r, e), batches')
  {
    hide InOrder, LogOk, BallotsOk, TokenInvariant, SentInLog, LogSent, UnsignedOk, TasksOk, OnRequest, InsertVote,
         OnRecvVote, AcceptedBy, OnSignedPrePrepare, Wanted, RepliesGrow, Extends;
    PrimaryIsZero(c, r);
    batches' := batches;
    match e
    case Recv(RequestMsg(q)) =>
      batches' := RequestInOrder(c, r, q, accepted, batches);
    case Recv(PrePrepareMsg(p, batch)) =>
      NothingAccepted(c, r, e, accepted);
      SameExtends(r.log, r.log);
      RepliesSame(r.service.replies);
      IdleInOrder(r, OnRecvPrePrepare(r, p, batch), accepted, batches);
    case Recv(VoteMsg(round, v)) =>
      NothingAccepted(c, r, e, accepted);
      RecvVoteQueueIdle(r, round, v);
      IdleInOrder(r, OnRecvVote(r, round, v), accepted, batches);
    case Done(t) =>
      NothingAccepted(c, r, e, accepted);
      TaskAt(r, t);
      batches' := PrimaryDone(c, r, t, accepted, batches);
  }

  lemma NothingAccepted(c: Config, r: Replica, e: Event, accepted: seq<Request>)
    requires !(e.Recv? && e.message.RequestMsg?)
    ensures accepted + AcceptedBy(c, r, e) == accepted
  {
  }

  lemma RepliesSame(replies: map<nat, CachedReply>)
    ensures RepliesGrow(replies, replies)
  {
  }

  lemma RecvVoteQueueIdle(r: Replica, round: Round, v: SignedVote)
    ensures QueueIdle(r, OnRecvVote(r, round, v))
  {
    hide Wanted;
  }

  lemma DrainQueueIdle(r: Replica, round: Round, k: nat)
    ensures QueueIdle(r, Drain(r, round, k))
  {
    DrainTasks(r, round, k);
  }

  lemma AnswerQueueIdle(r: Replica, t: Task)
    requires !t.SignPrePrepare?
    ensures QueueIdle(r, Answer(r, t))
  {
  }

  lemma BroadcastQueueIdle(r: Replica, m: Message)
    ensures QueueIdle(r, Broadcast(r, m)) && forall why :: QueueIdle(r, Stop(Broadcast(r, m), why))
  {
  }

  lemma PrimaryDone(c: Config, r: Replica, t: Task, accepted: seq<Request>, batches: seq<seq<Request>>)
    returns (batches': seq<seq<Request>>)
    requires InOrder(r, accepted, batches) && Local(c, r) && r.id == 0 && Enabled(c, r, Done(t)) && TaskOk(r.id, r.log, t)
    requires IsPrimary(c, r) && r.viewNum == 0
    ensures InOrder(OnDone(c, Answer(r, t), t), accepted, batches')
  {
    hide InOrder, Shaped, TokenInvariant, SentInLog, LogSent, UnsignedOk, InsertVote, OnSignedPrePrepare, QueueIdle;
    batches' := batches;
    var r0 := Answer(r, t);
    if !t.SignPrePrepare? {
      AnswerQueueIdle(r, t);
      IdleInOrder(r, r0, accepted, batches);
    }
    match t
    case SignPrePrepare(w, k, batch) =>
      SignPrePrepareInOrder(c, r, t, accepted, batches);
    case VerifyPrePrepare(p, batch) =>
      assert false;
    case SignVote(round, v) =>
      var r1 := Broadcast(r0, VoteMsg(round, SignedVote(v, r.id)));
      BroadcastQueueIdle(r0, VoteMsg(round, SignedVote(v, r.id)));
      IdleInOrder(r0, r1, accepted, batches);
      if r.log[v.opNum].Votes(round) == map[] {
        batches' := InsertInOrder(c, r1, round, SignedVote(v, r.id), accepted, batches);
      }
    case VerifyVote(round, v) =>
      batches' := InsertInOrder(c, r0, round, v, accepted, batches);
      var r1 := InsertVote(c, r0, round, v);
      DrainQueueIdle(r1, round, v.inner.opNum);
      IdleInOrder(r1, Drain(r1, round, v.inner.opNum), accepted, batches');
  }

  /** In every run of the code as it stands, whatever the other replicas do, a correct
      primary's accepted requests are its batches 1 to opNum one after the other and then
      its queue; each client's numbers rise; at most two slots are ahead of execution, and
      nothing waits while no slot is. */
  lemma {:induction false} CorrectPrimaryIsFifo(u: Setup, actions: seq<Action>) returns (batches: seq<seq<Request>>)
    requires u.c.Quorum() >= 2 && u.Correct(0)
    ensures InOrder(After(u, actions).replicas[0], Accepted(u, actions), batches)
  {
    hide InOrder, Reliable, Handle, Forgeable;
    if actions == [] {
      batches := [];
      assert InOrder(Start(u).replicas[0], [], []) by { StartInOrder(u); }
    } else {
      var n := |actions| - 1;
      batches := CorrectPrimaryIsFifo(u, actions[..n]);
      RunReliable(u, actions[..n]);
      var s, a := After(u, actions[..n]), actions[n];
      if a.Act? && a.replica == 0 && Allowed(u, s, a) {
        assert Local(u.c, s.replicas[0]) && s.replicas[0].id == 0 by { ReliableAt(u, s, 0); }
        batches := PrimaryStep(u.c, s.replicas[0], a.event, Accepted(u, actions[..n]), batches);
      } else {
        assert Accepted(u, actions) == Accepted(u, actions[..n]);
        assert After(u, actions).replicas[0] == s.replicas[0];
      }
    }
  }

  lemma ReliableAt(u: Setup, s: System, i: nat)
    requires |s.replicas| == u.c.numReplica && Reliable(u, s) && u.Correct(i)
    ensures Local(u.c, s.replicas[i]) && s.replicas[i].id == i
  {
    hide Local;
  }

  lemma StartInOrder(u: Setup)
    requires u.Correct(0)
    ensures InOrder(Start(u).replicas[0], [], [])
  {
  }

  /** No request is proposed twice: equal client and number means the same position. */
  lemma NoRequestTwice(u: Setup, actions: seq<Action>, i: nat, j: nat)
    requires u.c.Quorum() >= 2 && u.Correct(0)
    requires i < |Accepted(u, actions)| && j < |Accepted(u, actions)|
    requires Accepted(u, actions)[i].clientId == Accepted(u, actions)[j].clientId
    requires Accepted(u, actions)[i].seqNum == Accepted(u, actions)[j].seqNum
    ensures i == j
  {
    var batches := CorrectPrimaryIsFifo(u, actions);
  }
}
