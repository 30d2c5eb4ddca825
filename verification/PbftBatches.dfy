/** How a correct primary takes requests into batches, and which requests it takes. */
module PbftBatches {
  import opened Wrappers
  import opened PbftTypes
  import opened PbftSpec
  import opened PbftLocal
  import opened PbftTokens
  import opened PbftProposals
  import opened PbftStep
  import opened PbftGuards
  import opened PbftExecution
  import opened PbftSystem
  import opened PbftPrimary

  // A batch takes all there is, up to 100

  /** Every batch is full, or the last one and leaves nothing behind. */
  predicate TakeAll(batches: seq<seq<Request>>, rest: seq<Request>) {
    forall i: nat | i < |batches| :: |batches[i]| == 100 || (1 <= |batches[i]| < 100 && i == |batches| - 1 && rest == [])
  }

  /** These batches are proposed next, in order, and are the front of the queue. */
  ghost predicate Takes(r: Replica, queue: seq<Request>, batches: seq<seq<Request>>, r': Replica) {
    && r'.opNum == r.opNum + |batches|
    && (forall i: nat | i < |batches| :: SignPrePrepare(0, r.opNum + 1 + i, batches[i]) in r'.out.tasks)
    && queue == Flatten(batches) + r'.requests
    && TakeAll(batches, r'.requests)
  }

  lemma NoneTaken(r: Replica, r': Replica)
    requires r'.opNum == r.opNum && r'.requests == r.requests
    ensures Takes(r, r.requests, [], r')
  {
  }

  lemma OneTaken(c: Config, r: Replica)
    requires IsPrimary(c, r) && r.requests != [] && r.viewNum == 0
    ensures Takes(r, r.requests, [FirstBatch(r)], CloseBatch(c, r))
  {
    FlattenSnoc([], FirstBatch(r));
  }

  lemma {:induction false} FlattenAppend(a: seq<seq<Request>>, b: seq<seq<Request>>)
    ensures Flatten(a + b) == Flatten(a) + Flatten(b)
    decreases |b|
  {
    if b == [] {
      assert a + b == a;
    } else {
      assert (a + b)[..|a + b| - 1] == a + b[..|b| - 1];
      FlattenAppend(a, b[..|b| - 1]);
      var x, y, z := Flatten(a), Flatten(b[..|b| - 1]), b[|b| - 1];
      assert x + y + z == x + (y + z);
    }
  }

  lemma {:induction false} CloseTakes(c: Config, r: Replica) returns (batches: seq<seq<Request>>)
    requires IsPrimary(c, r) && r.viewNum == 0
    ensures Takes(r, r.requests, batches, CloseBatches(c, r))
    ensures CloseBatches(c, r).requests == [] || CloseBatches(c, r).opNum >= CloseBatches(c, r).commitNum + 2
    decreases |r.requests|
  {
    if r.requests != [] && r.opNum <= r.commitNum + 1 {
      var r1 := CloseBatch(c, r);
      var first := FirstBatch(r);
      OneTaken(c, r);
      var rest := CloseTakes(c, r1);
      batches := [first] + rest;
      TakenTwo(c, r, r1, first, rest, CloseBatches(c, r));
    } else {
      batches := [];
      NoneTaken(r, r);
    }
  }

  lemma TakenTwo(c: Config, r: Replica, r1: Replica, first: seq<Request>, rest: seq<seq<Request>>, r2: Replica)
    requires Takes(r, r.requests, [first], r1) && Takes(r1, r1.requests, rest, r2)
    requires r2.out.tasks == CloseBatches(c, r1).out.tasks
    ensures Takes(r, r.requests, [first] + rest, r2)
  {
    hide Flatten, TakeAll;
    FlattenAppend([first], rest);
    var all := [first] + rest;
    forall i: nat | i < |all| ensures SignPrePrepare(0, r.opNum + 1 + i, all[i]) in r2.out.tasks {
      if i == 0 {
        assert [first][0] == first;
        ClosingKeepsTasks(c, r1, SignPrePrepare(0, r.opNum + 1, first));
      } else {
        assert all[i] == rest[i - 1];
      }
    }
    AllTaken(first, r1.requests, rest, r2.requests);
  }

  lemma AllTaken(first: seq<Request>, queue: seq<Request>, rest: seq<seq<Request>>, left: seq<Request>)
    requires TakeAll([first], queue) && TakeAll(rest, left) && queue == Flatten(rest) + left
    ensures TakeAll([first] + rest, left)
  {
    hide Flatten;
    var all := [first] + rest;
    assert [first][0] == first;
    NothingLeft(rest, left);
    assert forall i: nat | 0 < i < |all| :: all[i] == rest[i - 1];
  }

  lemma NothingLeft(batches: seq<seq<Request>>, rest: seq<Request>)
    requires forall i: nat | i < |batches| :: |batches[i]| >= 1
    ensures Flatten(batches) + rest == [] ==> batches == [] && rest == []
  {
  }

  lemma {:induction false} ClosingKeepsTasks(c: Config, r: Replica, t: Task)
    requires t in r.out.tasks
    ensures t in CloseBatches(c, r).out.tasks
    decreases |r.requests|
  {
    if IsPrimary(c, r) && r.requests != [] && r.opNum <= r.commitNum + CONCURRENT_PRE_PREPARES {
      ClosingKeepsTasks(c, CloseBatch(c, r), t);
    }
  }

  lemma InsertTakes(c: Config, r: Replica, round: Round, v: SignedVote) returns (batches: seq<seq<Request>>)
    requires IsPrimary(c, r) && r.viewNum == 0
    ensures
      var r' := InsertVote(c, r, round, v);
      Takes(r, r.requests, batches, r') && (r'.commitNum > r.commitNum ==> r'.requests == [] || r'.opNum >= r'.commitNum + 2)
  {
    hide Takes;
    var k, votes := v.inner.opNum, Counted(r, Committing, v);
    if round.Committing? && Commits(c, r, v) {
      var r1 := DropTable(r, Committing, k).(log := r.log[k := r.log[k].(commits := votes)]);
      batches := CloseTakes(c, ExecuteCommitted(c, r1));
      TakesFrom(r, ExecuteCommitted(c, r1), r.requests, batches, InsertVote(c, r, round, v));
    } else {
      batches := [];
      NoneTaken(r, InsertVote(c, r, round, v));
    }
  }

  lemma TakesFrom(r: Replica, r1: Replica, queue: seq<Request>, batches: seq<seq<Request>>, r': Replica)
    requires Takes(r1, queue, batches, r') && r1.opNum == r.opNum
    ensures Takes(r, queue, batches, r')
  {
  }

  lemma TakesTo(r: Replica, queue: seq<Request>, batches: seq<seq<Request>>, r1: Replica, r2: Replica)
    requires Takes(r, queue, batches, r1) && r2.opNum == r1.opNum && r2.requests == r1.requests
    requires forall t: Task | t.SignPrePrepare? :: r2.out.tasks[t] == r1.out.tasks[t]
    ensures Takes(r, queue, batches, r2)
  {
    hide Flatten, TakeAll;
    forall i: nat | i < |batches| ensures SignPrePrepare(0, r.opNum + 1 + i, batches[i]) in r2.out.tasks {
      assert r2.out.tasks[SignPrePrepare(0, r.opNum + 1 + i, batches[i])] == r1.out.tasks[SignPrePrepare(0, r.opNum + 1 + i, batches[i])];
    }
  }

  lemma RequestTakes(c: Config, r: Replica, q: Request) returns (batches: seq<seq<Request>>)
    requires IsPrimary(c, r) && r.viewNum == 0
    ensures Takes(r, r.requests + AcceptedBy(c, r, Recv(RequestMsg(q))), batches, OnRequest(c, r, q))
    ensures OnRequest(c, r, q).commitNum == r.commitNum
  {
    hide Takes;
    batches := [];
    if Fresh(r.service.replies, q) {
      var noted := r.service.(replies := r.service.replies[q.clientId := CachedReply(q.seqNum, None)]);
      var queued := r.(service := noted, requests := r.requests + [q]);
      if queued.opNum < queued.commitNum + CONCURRENT_PRE_PREPARES {
        OneTaken(c, queued);
        batches := [FirstBatch(queued)];
        TakesFrom(r, queued, queued.requests, batches, OnRequest(c, r, q));
      } else {
        NoneTaken(queued, OnRequest(c, r, q));
        TakesFrom(r, queued, queued.requests, batches, OnRequest(c, r, q));
      }
    } else {
      assert r.requests + [] == r.requests;
      NoneTaken(r, OnRequest(c, r, q));
    }
  }

  lemma DoneTakes(c: Config, r: Replica, t: Task) returns (batches: seq<seq<Request>>)
    requires Local(c, r) && r.id == 0 && Enabled(c, r, Done(t)) && IsPrimary(c, r) && r.viewNum == 0
    ensures
      var r' := Handle(c, r, Done(t));
      Takes(r, r.requests, batches, r') && (r'.commitNum > r.commitNum ==> r'.requests == [] || r'.opNum >= r'.commitNum + 2)
  {
    hide Takes, LogOk, BallotsOk, TokenInvariant, Proposals, TasksOk, InsertVote, Retain;
    var r', r0 := Handle(c, r, Done(t)), Answer(r, t);
    match t
    case SignPrePrepare(w, k, batch) => batches := []; NoneTaken(r, r');
    case VerifyPrePrepare(p, batch) => batches := []; NoneTaken(r, r');
    case SignVote(round, v) =>
      var r1 := Broadcast(r0, VoteMsg(round, SignedVote(v, r.id)));
      if r'.requests == r.requests && r'.opNum == r.opNum && r'.commitNum == r.commitNum {
        batches := [];
        NoneTaken(r, r');
      } else {
        batches := InsertTakes(c, r1, round, SignedVote(v, r.id));
        TakesFrom(r, r1, r.requests, batches, r');
      }
    case VerifyVote(round, v) =>
      TaskAt(r, t);
      var r1 := InsertVote(c, r0, round, v);
      batches := InsertTakes(c, r0, round, v);
      DrainTasks(r1, round, v.inner.opNum);
      TakesFrom(r, r0, r.requests, batches, r1);
      TakesTo(r, r.requests, batches, r1, Drain(r1, round, v.inner.opNum));
  }

  /** At every event, what a correct primary proposes is the front of its queue in batches of
      100, only the last one smaller, and then nothing is left; after it has executed a slot,
      two slots are in flight or nothing waits. */
  lemma BatchesTakeAll(c: Config, r: Replica, e: Event) returns (batches: seq<seq<Request>>)
    requires Local(c, r) && r.id == 0 && Enabled(c, r, e)
    ensures
      var r' := Handle(c, r, e);
      && Takes(r, r.requests + AcceptedBy(c, r, e), batches, r')
      && (r'.commitNum > r.commitNum ==> r'.requests == [] || r'.opNum >= r'.commitNum + 2)
  {
    hide Takes, OnRequest, OnRecvVote, OnDone, LogOk, BallotsOk, TokenInvariant, Proposals, TasksOk, AcceptedBy;
    PrimaryIsZero(c, r);
    batches := [];
    if !(e.Recv? && e.message.RequestMsg?) {
      NothingAccepted(c, r, e, r.requests);
    }
    match e
    case Recv(RequestMsg(q)) => batches := RequestTakes(c, r, q);
    case Recv(PrePrepareMsg(p, batch)) => NoneTaken(r, OnRecvPrePrepare(r, p, batch));
    case Recv(VoteMsg(round, v)) =>
      RecvVoteQueueIdle(r, round, v);
      NoneTaken(r, OnRecvVote(r, round, v));
    case Done(t) => batches := DoneTakes(c, r, t);
  }

  // Which requests a correct primary accepts

  /** All it knows of requests comes from accepted ones. */
  ghost predicate FromAccepted(r: Replica, accepted: seq<Request>) {
    && (forall q <- r.requests :: q in accepted)
    && (forall t <- r.out.tasks | t.SignPrePrepare? :: forall q <- t.requests :: q in accepted)
    && (forall k: nat, q | k < |r.log| && q in r.log[k].requests :: q in accepted)
    && NotedFrom(r.service.replies, accepted)
  }

  ghost predicate NotedFrom(replies: map<nat, CachedReply>, accepted: seq<Request>) {
    forall id <- replies :: exists q <- accepted :: q.clientId == id && q.seqNum == replies[id].seqNum
  }

  /** An event that executes nothing and learns of no request. */
  ghost predicate LearnsNone(r: Replica, r': Replica) {
    && (forall q <- r'.requests :: q in r.requests)
    && (forall t: Task | t.SignPrePrepare? && t in r'.out.tasks ::
          t in r.out.tasks || forall q <- t.requests :: q in r.requests)
    && (forall k: nat, q | k < |r'.log| && q in r'.log[k].requests :: k < |r.log| && q in r.log[k].requests)
    && r'.service.replies == r.service.replies
  }

  lemma LearnsNoneKeeps(r: Replica, r': Replica, accepted: seq<Request>)
    requires FromAccepted(r, accepted) && LearnsNone(r, r')
    ensures FromAccepted(r', accepted)
  {
    hide NotedFrom;
  }

  lemma {:induction false} ExecuteBatchNotes(c: Config, id: nat, s: Service, batch: seq<Request>, accepted: seq<Request>)
    requires NotedFrom(s.replies, accepted) && forall q <- batch :: q in accepted
    ensures NotedFrom(ExecuteBatch(c, id, 0, s, batch).replies, accepted)
    decreases |batch|
  {
    if batch != [] {
      assert batch[0] in batch;
      ExecuteBatchNotes(c, id, ExecuteRequest(c, id, 0, s, batch[0]), batch[1..], accepted);
    }
  }

  lemma {:induction false} ExecuteNotes(c: Config, r: Replica, accepted: seq<Request>)
    requires FromAccepted(r, accepted) && r.viewNum == 0
    ensures FromAccepted(ExecuteCommitted(c, r), accepted)
    decreases |r.log| - r.commitNum
  {
    hide NotedFrom;
    if NextCommitted(r) {
      var batch := r.log[r.commitNum + 1].requests;
      ExecuteBatchNotes(c, r.id, r.service, batch, accepted);
      ExecuteNotes(c, r.(commitNum := r.commitNum + 1, service := ExecuteBatch(c, r.id, r.viewNum, r.service, batch)), accepted);
    }
  }

  lemma {:induction false} CloseLearnsNone(c: Config, r: Replica)
    ensures LearnsNone(r, CloseBatches(c, r))
    decreases |r.requests|
  {
    if IsPrimary(c, r) && r.requests != [] && r.opNum <= r.commitNum + CONCURRENT_PRE_PREPARES {
      CloseLearnsNone(c, CloseBatch(c, r));
    }
  }

  lemma InsertFrom(c: Config, r: Replica, round: Round, v: SignedVote, accepted: seq<Request>)
    requires FromAccepted(r, accepted) && r.viewNum == 0
    ensures FromAccepted(InsertVote(c, r, round, v), accepted)
  {
    hide FromAccepted;
    var k, votes := v.inner.opNum, Counted(r, Committing, v);
    if round.Committing? && Commits(c, r, v) {
      var r1 := DropTable(r, Committing, k).(log := r.log[k := r.log[k].(commits := votes)]);
      LearnsNoneKeeps(r, r1, accepted);
      ExecuteNotes(c, r1, accepted);
      CloseLearnsNone(c, ExecuteCommitted(c, r1));
      LearnsNoneKeeps(ExecuteCommitted(c, r1), InsertVote(c, r, round, v), accepted);
    } else {
      LearnsNoneKeeps(r, InsertVote(c, r, round, v), accepted);
    }
  }

  lemma RequestFrom(c: Config, r: Replica, q: Request, accepted: seq<Request>)
    requires FromAccepted(r, accepted) && IsPrimary(c, r)
    ensures FromAccepted(OnRequest(c, r, q), accepted + AcceptedBy(c, r, Recv(RequestMsg(q))))
  {
    if Fresh(r.service.replies, q) {
      var more := accepted + [q];
      var replies := r.service.replies[q.clientId := CachedReply(q.seqNum, None)];
      assert more[|accepted|] == q;
      forall id <- replies ensures exists p <- more :: p.clientId == id && p.seqNum == replies[id].seqNum {
        if id == q.clientId {
          assert q in more;
        } else {
          var p :| p in accepted && p.clientId == id && p.seqNum == r.service.replies[id].seqNum;
          assert p in more;
        }
      }
    } else {
      assert accepted + [] == accepted;
    }
  }

  lemma DoneFrom(c: Config, r: Replica, t: Task, accepted: seq<Request>)
    requires FromAccepted(r, accepted) && Local(c, r) && r.id == 0 && Enabled(c, r, Done(t)) && r.viewNum == 0
    ensures FromAccepted(Handle(c, r, Done(t)), accepted)
  {
    hide FromAccepted, LogOk, BallotsOk, TokenInvariant, SentInLog, LogSent, UnsignedOk, TasksOk, InsertVote, LearnsNone;
    var r', r0 := Handle(c, r, Done(t)), Answer(r, t);
    AnswerLearnsNone(r, t);
    LearnsNoneKeeps(r, r0, accepted);
    match t
    case SignPrePrepare(w, k, batch) => SignedFrom(r, r0, t, accepted);
    case VerifyPrePrepare(p, batch) =>
      TaskAt(r, t);
      assert false;
    case SignVote(round, v) =>
      var r1 := Broadcast(r0, VoteMsg(round, SignedVote(v, r.id)));
      BroadcastLearnsNone(r0, VoteMsg(round, SignedVote(v, r.id)));
      LearnsNoneKeeps(r0, r1, accepted);
      LearnsNoneKeeps(r0, Stop(r1, AssertionFailed), accepted);
      InsertFrom(c, r1, round, SignedVote(v, r.id), accepted);
    case VerifyVote(round, v) =>
      var r1 := InsertVote(c, r0, round, v);
      InsertFrom(c, r0, round, v, accepted);
      DrainLearnsNone(r1, round, v.inner.opNum);
      LearnsNoneKeeps(r1, Drain(r1, round, v.inner.opNum), accepted);
  }

  lemma AnswerLearnsNone(r: Replica, t: Task)
    ensures LearnsNone(r, Answer(r, t))
  {
  }

  lemma BroadcastLearnsNone(r: Replica, m: Message)
    ensures LearnsNone(r, Broadcast(r, m)) && LearnsNone(r, Stop(Broadcast(r, m), AssertionFailed))
  {
  }

  lemma DrainLearnsNone(r: Replica, round: Round, k: nat)
    ensures LearnsNone(r, Drain(r, round, k))
  {
    DrainTasks(r, round, k);
    var r' := Drain(r, round, k);
    forall t: Task | t.SignPrePrepare? && t in r'.out.tasks ensures t in r.out.tasks {
      assert r'.out.tasks[t] == r.out.tasks[t];
    }
  }

  lemma SignedFrom(r: Replica, r0: Replica, t: Task, accepted: seq<Request>)
    requires FromAccepted(r, accepted) && FromAccepted(r0, accepted) && t in r.out.tasks && t.SignPrePrepare? && r0 == Answer(r, t)
    ensures
      var p := SignedPrePrepare(PrePrepare(t.viewNum, t.opNum, Sha256(t.requests)), r.id);
      FromAccepted(OnSignedPrePrepare(r0, p, t.requests), accepted)
  {
    hide NotedFrom;
  }

  lemma AcceptedStep(c: Config, r: Replica, e: Event, accepted: seq<Request>)
    requires FromAccepted(r, accepted) && Local(c, r) && r.id == 0 && Enabled(c, r, e)
    ensures FromAccepted(Handle(c, r, e), accepted + AcceptedBy(c, r, e))
  {
    hide FromAccepted, OnRequest, OnRecvVote, OnDone, LogOk, BallotsOk, TokenInvariant, Proposals, TasksOk, AcceptedBy, LearnsNone;
    PrimaryIsZero(c, r);
    if !(e.Recv? && e.message.RequestMsg?) {
      NothingAccepted(c, r, e, accepted);
    }
    match e
    case Recv(RequestMsg(q)) => RequestFrom(c, r, q, accepted);
    case Recv(PrePrepareMsg(p, batch)) =>
      RecvPrePrepareLearnsNone(r, p, batch);
      LearnsNoneKeeps(r, OnRecvPrePrepare(r, p, batch), accepted);
    case Recv(VoteMsg(round, v)) =>
      RecvVoteLearnsNone(r, round, v);
      LearnsNoneKeeps(r, OnRecvVote(r, round, v), accepted);
    case Done(t) => DoneFrom(c, r, t, accepted);
  }

  lemma RecvPrePrepareLearnsNone(r: Replica, p: SignedPrePrepare, batch: seq<Request>)
    ensures LearnsNone(r, OnRecvPrePrepare(r, p, batch))
  {
  }

  lemma RecvVoteLearnsNone(r: Replica, round: Round, v: SignedVote)
    ensures LearnsNone(r, OnRecvVote(r, round, v))
  {
    hide Wanted;
  }

  lemma {:induction false} AcceptedRun(u: Setup, actions: seq<Action>)
    requires u.c.Quorum() >= 2 && u.Correct(0)
    ensures FromAccepted(After(u, actions).replicas[0], Accepted(u, actions))
  {
    hide FromAccepted, Reliable, Handle, Forgeable;
    if actions == [] {
      NothingKnown(u.app);
    } else {
      var n := |actions| - 1;
      AcceptedRun(u, actions[..n]);
      RunReliable(u, actions[..n]);
      var s, a := After(u, actions[..n]), actions[n];
      if a.Act? && a.replica == 0 && Allowed(u, s, a) {
        assert Local(u.c, s.replicas[0]) && s.replicas[0].id == 0 by { ReliableAt(u, s, 0); }
        AcceptedStep(u.c, s.replicas[0], a.event, Accepted(u, actions[..n]));
      } else {
        assert Accepted(u, actions) == Accepted(u, actions[..n]);
        assert After(u, actions).replicas[0] == s.replicas[0];
      }
    }
  }

  lemma NothingKnown(app: AppState)
    ensures FromAccepted(NewReplica(0, app), [])
  {
  }

  /** A correct primary accepts a request exactly if it accepted none of the same client with
      the same number or a higher one before. */
  lemma AcceptedIffNewer(u: Setup, actions: seq<Action>, q: Request)
    requires u.c.Quorum() >= 2 && u.Correct(0) && Allowed(u, After(u, actions), Act(0, Recv(RequestMsg(q))))
    ensures
      Accepted(u, actions + [Act(0, Recv(RequestMsg(q)))]) == Accepted(u, actions) + [q] <==>
        forall p <- Accepted(u, actions) | p.clientId == q.clientId :: p.seqNum < q.seqNum
  {
    hide Reliable, Handle, Forgeable, SeqsRise, ProposedBatches, InNetwork;
    var a := Act(0, Recv(RequestMsg(q)));
    var r, accepted := After(u, actions).replicas[0], Accepted(u, actions);
    var batches := CorrectPrimaryIsFifo(u, actions);
    AcceptedRun(u, actions);
    RunReliable(u, actions);
    ReliableAt(u, After(u, actions), 0);
    assert IsPrimary(u.c, r) by { PrimaryIsPrimary(u.c, r); }
    assert (actions + [a])[..|actions|] == actions;
    assert Accepted(u, actions + [a]) == accepted + AcceptedBy(u.c, r, a.event);
    assert Fresh(r.service.replies, q) <==> forall p <- accepted | p.clientId == q.clientId :: p.seqNum < q.seqNum by {
      FreshIsNewest(r.service.replies, accepted, q);
    }
  }

  lemma PrimaryIsPrimary(c: Config, r: Replica)
    requires Local(c, r) && r.id == 0
    ensures IsPrimary(c, r)
  {
    hide LogOk, BallotsOk, TasksOk, TokenInvariant, Proposals;
    PrimaryIsZero(c, r);
  }

  lemma FreshIsNewest(replies: map<nat, CachedReply>, accepted: seq<Request>, q: Request)
    requires Noted(replies, accepted) && NotedFrom(replies, accepted)
    ensures Fresh(replies, q) <==> forall p <- accepted | p.clientId == q.clientId :: p.seqNum < q.seqNum
  {
    if q.clientId in replies {
      var p :| p in accepted && p.clientId == q.clientId && p.seqNum == replies[q.clientId].seqNum;
    }
  }
}
