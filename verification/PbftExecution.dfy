/** What a replica has executed, and what it has answered. */
module PbftExecution {
  import opened Wrappers
  import opened PbftTypes
  import opened PbftSpec
  import opened PbftLocal
  import opened PbftTokens
  import opened PbftProposals
  import opened PbftGuards

  // The reference: one application fed with one list of requests

  function RunApp(c: Config, app: AppState, requests: seq<Request>): AppState {
    if requests == [] then app else RunApp(c, c.execute(app, requests[0].op).0, requests[1..])
  }

  function ResultAt(c: Config, app: AppState, requests: seq<Request>, p: nat): Payload
    requires p < |requests|
  {
    c.execute(RunApp(c, app, requests[..p]), requests[p].op).1
  }

  /** The requests of slots 1 to n, in order. */
  function Executed(log: seq<LogEntry>, n: nat): seq<Request>
    requires n == 0 || n < |log|
  {
    if n == 0 then [] else Executed(log, n - 1) + log[n].requests
  }

  lemma RunAppSplit(c: Config, app: AppState, xs: seq<Request>, ys: seq<Request>)
    ensures RunApp(c, app, xs + ys) == RunApp(c, RunApp(c, app, xs), ys)
  {
    if xs == [] {
      assert xs + ys == ys;
    } else {
      assert (xs + ys)[1..] == xs[1..] + ys;
      RunAppSplit(c, c.execute(app, xs[0].op).0, xs[1..], ys);
    }
  }

  // The service

  /** The reply is the reference's answer to request q. */
  ghost predicate Answers(c: Config, app: AppState, id: nat, done: seq<Request>, q: Request, reply: Reply) {
    exists p: nat :: AnswersAt(c, app, id, done, p, q, reply)
  }

  ghost predicate AnswersAt(c: Config, app: AppState, id: nat, done: seq<Request>, p: nat, q: Request, reply: Reply) {
    p < |done| && done[p] == q && reply == Reply(q.seqNum, ResultAt(c, app, done, p), 0, id)
  }

  /** Address a asked for q: it is the address in q, or the one in a repetition of q. */
  ghost predicate AskedFrom(asked: iset<Request>, q: Request, a: Addr) {
    a == q.clientAddr ||
    exists q' :: q' in asked && q'.clientId == q.clientId && q'.seqNum == q.seqNum && q'.clientAddr == a
  }

  ghost predicate CacheOk(c: Config, app: AppState, id: nat, replies: map<nat, CachedReply>, done: seq<Request>) {
    forall i <- replies | replies[i].reply.Some? ::
      exists q: Request :: q.clientId == i && q.seqNum == replies[i].seqNum && Answers(c, app, id, done, q, replies[i].reply.value)
  }

  ghost predicate SentOk(c: Config, app: AppState, id: nat, sent: set<(Addr, Reply)>, done: seq<Request>, asked: iset<Request>) {
    forall m <- sent :: exists q :: AskedFrom(asked, q, m.0) && Answers(c, app, id, done, q, m.1)
  }

  /** Every executed request was answered, at its address. */
  ghost predicate AllReplied(c: Config, app: AppState, id: nat, sent: set<(Addr, Reply)>, done: seq<Request>) {
    forall p: nat | p < |done| :: (done[p].clientAddr, Reply(done[p].seqNum, ResultAt(c, app, done, p), 0, id)) in sent
  }

  /** The cache knows a client's number as high as any executed, and its reply if it is that one. */
  ghost predicate CacheKnows(replies: map<nat, CachedReply>, done: seq<Request>) {
    forall q <- done ::
      && q.clientId in replies && q.seqNum <= replies[q.clientId].seqNum
      && (q.seqNum == replies[q.clientId].seqNum ==> replies[q.clientId].reply.Some?)
  }

  ghost predicate ServiceOk(c: Config, app: AppState, id: nat, s: Service, done: seq<Request>, asked: iset<Request>) {
    && s.app == RunApp(c, app, done)
    && CacheOk(c, app, id, s.replies, done)
    && SentOk(c, app, id, s.sent, done, asked)
    && AllReplied(c, app, id, s.sent, done) && CacheKnows(s.replies, done)
  }

  lemma AnswersMore(c: Config, app: AppState, id: nat, done: seq<Request>, more: seq<Request>, q: Request, reply: Reply)
    requires Answers(c, app, id, done, q, reply)
    ensures Answers(c, app, id, done + more, q, reply)
  {
    var p: nat :| AnswersAt(c, app, id, done, p, q, reply);
    assert (done + more)[..p] == done[..p];
    assert AnswersAt(c, app, id, done + more, p, q, reply);
  }

  lemma ExecuteRequestOk(c: Config, app: AppState, id: nat, s: Service, done: seq<Request>, asked: iset<Request>, q: Request)
    requires ServiceOk(c, app, id, s, done, asked)
    ensures ServiceOk(c, app, id, ExecuteRequest(c, id, 0, s, q), done + [q], asked)
  {
    hide Answers, AllReplied, CacheKnows;
    var s' := ExecuteRequest(c, id, 0, s, q);
    ReplyMore(c, app, id, s, done, q);
    var reply := Reply(q.seqNum, c.execute(s.app, q.op).1, 0, id);
    NewAnswer(c, app, id, done, q);
    RunAppSplit(c, app, done, [q]);
    forall m <- s'.sent ensures exists q' :: AskedFrom(asked, q', m.0) && Answers(c, app, id, done + [q], q', m.1) {
      if m in s.sent {
        var q' :| AskedFrom(asked, q', m.0) && Answers(c, app, id, done, q', m.1);
        AnswersMore(c, app, id, done, [q], q', m.1);
      } else {
        assert AskedFrom(asked, q, m.0) && Answers(c, app, id, done + [q], q, m.1);
      }
    }
    forall i <- s'.replies | s'.replies[i].reply.Some?
      ensures exists q': Request :: q'.clientId == i && q'.seqNum == s'.replies[i].seqNum
                           && Answers(c, app, id, done + [q], q', s'.replies[i].reply.value)
    {
      if i in s.replies && s'.replies[i] == s.replies[i] {
        var q': Request :| q'.clientId == i && q'.seqNum == s.replies[i].seqNum && Answers(c, app, id, done, q', s.replies[i].reply.value);
        AnswersMore(c, app, id, done, [q], q', s.replies[i].reply.value);
      } else {
        assert Answers(c, app, id, done + [q], q, s'.replies[i].reply.value);
      }
    }
  }

  lemma ReplyMore(c: Config, app: AppState, id: nat, s: Service, done: seq<Request>, q: Request)
    requires s.app == RunApp(c, app, done) && AllReplied(c, app, id, s.sent, done) && CacheKnows(s.replies, done)
    ensures
      var s' := ExecuteRequest(c, id, 0, s, q);
      AllReplied(c, app, id, s'.sent, done + [q]) && CacheKnows(s'.replies, done + [q])
  {
    var more := done + [q];
    forall p: nat | p < |more|
      ensures (more[p].clientAddr, Reply(more[p].seqNum, ResultAt(c, app, more, p), 0, id)) in ExecuteRequest(c, id, 0, s, q).sent
    {
      assert more[..p] == done[..p];
      assert p == |done| ==> done[..p] == done;
    }
  }

  lemma NewAnswer(c: Config, app: AppState, id: nat, done: seq<Request>, q: Request)
    ensures Answers(c, app, id, done + [q], q, Reply(q.seqNum, c.execute(RunApp(c, app, done), q.op).1, 0, id))
  {
    assert (done + [q])[..|done|] == done;
    assert AnswersAt(c, app, id, done + [q], |done|, q, Reply(q.seqNum, c.execute(RunApp(c, app, done), q.op).1, 0, id));
  }

  lemma ExecuteBatchOk(c: Config, app: AppState, id: nat, s: Service, done: seq<Request>, asked: iset<Request>, batch: seq<Request>)
    requires ServiceOk(c, app, id, s, done, asked)
    ensures ServiceOk(c, app, id, ExecuteBatch(c, id, 0, s, batch), done + batch, asked)
    decreases |batch|
  {
    hide ServiceOk;
    if batch == [] {
      assert done + batch == done;
    } else {
      ExecuteRequestOk(c, app, id, s, done, asked, batch[0]);
      ExecuteBatchOk(c, app, id, ExecuteRequest(c, id, 0, s, batch[0]), done + [batch[0]], asked, batch[1..]);
      assert done + [batch[0]] + batch[1..] == done + batch;
    }
  }

  // The replica

  ghost predicate CommittedUpTo(log: seq<LogEntry>, n: nat) {
    && (n == 0 || n < |log|)
    && forall k: nat | 1 <= k <= n :: log[k].commits != map[]
  }

  /** The service is the reference run on the requests of the executed slots. */
  ghost predicate ExecutionOk(c: Config, app: AppState, r: Replica, asked: iset<Request>) {
    && CommittedUpTo(r.log, r.commitNum)
    && ServiceOk(c, app, r.id, r.service, Executed(r.log, r.commitNum), asked)
  }

  lemma ExecuteCommittedOk(c: Config, app: AppState, r: Replica, asked: iset<Request>)
    requires ExecutionOk(c, app, r, asked) && r.viewNum == 0
    ensures ExecutionOk(c, app, ExecuteCommitted(c, r), asked)
    decreases |r.log| - r.commitNum
  {
    hide ServiceOk;
    if NextCommitted(r) {
      var batch := r.log[r.commitNum + 1].requests;
      var service := ExecuteBatch(c, r.id, r.viewNum, r.service, batch);
      ExecuteBatchOk(c, app, r.id, r.service, Executed(r.log, r.commitNum), asked, batch);
      ExecuteCommittedOk(c, app, r.(commitNum := r.commitNum + 1, service := service), asked);
    }
  }

  /** Executed slots are the same in every later log. */
  lemma ExecutedStays(log: seq<LogEntry>, log': seq<LogEntry>, n: nat)
    requires (n == 0 || n < |log|) && Extends(log, log')
    requires forall k: nat | 1 <= k <= n :: SlotTaken(log, k)
    ensures Executed(log', n) == Executed(log, n)
  {
    if n > 0 {
      assert SlotTaken(log, n);
      ExecutedStays(log, log', n - 1);
    }
  }

  lemma CommittedAreTaken(c: Config, log: seq<LogEntry>, n: nat)
    requires LogOk(c, log) && SlotSound(log) && CommittedUpTo(log, n)
    ensures forall k: nat | 1 <= k <= n :: SlotTaken(log, k)
  {
    forall k: nat | 1 <= k <= n ensures SlotTaken(log, k) { assert EntryOk(c, log[k], k); }
  }

  /** A handler that executes nothing. */
  lemma IdleKeepsExecution(c: Config, app: AppState, r: Replica, r': Replica, asked: iset<Request>)
    requires ExecutionOk(c, app, r, asked) && LogOk(c, r.log) && SlotSound(r.log)
    requires r'.id == r.id && r'.commitNum == r.commitNum && r'.service == r.service
    requires Extends(r.log, r'.log)
    requires forall k: nat | k < |r.log| && r.log[k].commits != map[] :: r'.log[k].commits != map[]
    ensures ExecutionOk(c, app, r', asked)
  {
    hide ServiceOk, LogOk, SlotSound;
    CommittedAreTaken(c, r.log, r.commitNum);
    ExecutedStays(r.log, r'.log, r.commitNum);
  }

  lemma InsertCommitExecution(c: Config, app: AppState, r: Replica, v: SignedVote, asked: iset<Request>)
    requires ExecutionOk(c, app, r, asked) && LogOk(c, r.log) && SlotSound(r.log) && r.viewNum == 0
    ensures ExecutionOk(c, app, InsertCommit(c, r, v), asked)
  {
    hide ServiceOk, LogOk, SlotSound, ExecutionOk;
    var k, votes := v.inner.opNum, Counted(r, Committing, v);
    if Commits(c, r, v) {
      var r1 := DropTable(r, Committing, k).(log := r.log[k := r.log[k].(commits := votes)]);
      assert v.inner.replicaId in votes;
      IdleKeepsExecution(c, app, r, r1, asked);
      ExecuteCommittedOk(c, app, r1, asked);
      assert ExecutionOk(c, app, CloseBatches(c, ExecuteCommitted(c, r1)), asked) by {
        CloseBatchesExecution(c, app, ExecuteCommitted(c, r1), asked);
      }
    } else {
      IdleKeepsExecution(c, app, r, InsertCommit(c, r, v), asked);
    }
  }

  lemma CloseBatchesExecution(c: Config, app: AppState, r: Replica, asked: iset<Request>)
    requires ExecutionOk(c, app, r, asked)
    ensures ExecutionOk(c, app, CloseBatches(c, r), asked)
  {
    hide ServiceOk, CommittedUpTo;
  }

  lemma NotedKnows(replies: map<nat, CachedReply>, done: seq<Request>, q: Request)
    requires CacheKnows(replies, done) && Fresh(replies, q)
    ensures CacheKnows(replies[q.clientId := CachedReply(q.seqNum, None)], done)
  {
  }

  lemma RepliedMore(c: Config, app: AppState, id: nat, sent: set<(Addr, Reply)>, sent': set<(Addr, Reply)>, done: seq<Request>)
    requires AllReplied(c, app, id, sent, done) && sent <= sent'
    ensures AllReplied(c, app, id, sent', done)
  {
  }

  lemma RequestExecution(c: Config, app: AppState, r: Replica, q: Request, asked: iset<Request>)
    requires ExecutionOk(c, app, r, asked) && q in asked
    ensures ExecutionOk(c, app, OnRequest(c, r, q), asked)
  {
    hide Answers, AllReplied, CacheKnows;
    var s, done := r.service, Executed(r.log, r.commitNum);
    if Fresh(s.replies, q) {
      NotedKnows(s.replies, done, q);
    } else {
      var cached := s.replies[q.clientId];
      if cached.seqNum == q.seqNum && cached.reply.Some? {
        var q': Request :| q'.clientId == q.clientId && q'.seqNum == cached.seqNum
                  && Answers(c, app, r.id, done, q', cached.reply.value);
        assert AskedFrom(asked, q', q.clientAddr);
        RepliedMore(c, app, r.id, s.sent, s.sent + {(q.clientAddr, cached.reply.value)}, done);
      }
    }
  }

  lemma ExecutionStep(c: Config, app: AppState, r: Replica, e: Event, asked: iset<Request>)
    requires ExecutionOk(c, app, r, asked) && Local(c, r) && SlotSound(r.log) && Enabled(c, r, e)
    requires e.Recv? && e.message.RequestMsg? ==> e.message.request in asked
    ensures ExecutionOk(c, app, Handle(c, r, e), asked)
  {
    hide ExecutionOk, LogOk, BallotsOk, TasksOk, TokenInvariant, SlotSound, OnRequest, OnRecvVote, OnSignedPrePrepare, InsertVote,
         OnVerifiedPrePrepare, Proposals;
    match e
    case Recv(RequestMsg(q)) => RequestExecution(c, app, r, q, asked);
    case Recv(PrePrepareMsg(p, batch)) => IdleKeepsExecution(c, app, r, OnRecvPrePrepare(r, p, batch), asked);
    case Recv(VoteMsg(round, v)) =>
      RecvVoteIdle(r, round, v);
      IdleKeepsExecution(c, app, r, OnRecvVote(r, round, v), asked);
    case Done(t) =>
      IdleKeepsExecution(c, app, r, Answer(r, t), asked);
      TaskAt(r, t);
      match t {
        case SignPrePrepare(w, k, batch) => SignPrePrepareExecution(c, app, r, t, asked);
        case VerifyPrePrepare(p, batch) => VerifiedPrePrepareExecution(c, app, Answer(r, t), p, batch, asked);
        case SignVote(round, v) => SignedVoteExecution(c, app, Answer(r, t), round, SignedVote(v, r.id), asked);
        case VerifyVote(round, v) => VerifiedVoteExecution(c, app, Answer(r, t), round, v, asked);
      }
  }

  lemma RecvVoteIdle(r: Replica, round: Round, v: SignedVote)
    ensures
      var r' := OnRecvVote(r, round, v);
      r'.id == r.id && r'.commitNum == r.commitNum && r'.service == r.service && r'.log == r.log
  {
    hide Wanted;
  }

  lemma SignPrePrepareExecution(c: Config, app: AppState, r: Replica, t: Task, asked: iset<Request>)
    requires ExecutionOk(c, app, r, asked) && LogOk(c, r.log) && SlotSound(r.log) && Proposals(r)
    requires t.SignPrePrepare? && t in r.out.tasks && r.id == 0
    ensures ExecutionOk(c, app, OnDone(c, Answer(r, t), t), asked)
  {
    hide ExecutionOk, LogOk, SlotSound, SentInLog, LogSent, NoOwnToVerify;
    assert !SlotTaken(r.log, t.opNum);
    IdleKeepsExecution(c, app, r, OnDone(c, Answer(r, t), t), asked);
  }

  lemma VerifiedPrePrepareExecution(c: Config, app: AppState, r: Replica, p: SignedPrePrepare, batch: seq<Request>, asked: iset<Request>)
    requires ExecutionOk(c, app, r, asked) && LogOk(c, r.log) && SlotSound(r.log)
    ensures ExecutionOk(c, app, OnVerifiedPrePrepare(r, p, batch), asked)
  {
    hide ExecutionOk, LogOk, SlotSound, Retain;
    IdleKeepsExecution(c, app, r, OnVerifiedPrePrepare(r, p, batch), asked);
  }

  lemma InsertExecution(c: Config, app: AppState, r: Replica, round: Round, v: SignedVote, asked: iset<Request>)
    requires ExecutionOk(c, app, r, asked) && LogOk(c, r.log) && SlotSound(r.log) && r.viewNum == 0
    ensures ExecutionOk(c, app, InsertVote(c, r, round, v), asked)
  {
    hide ExecutionOk, LogOk, SlotSound, InsertCommit;
    if round.Preparing? {
      IdleKeepsExecution(c, app, r, InsertPrepare(c, r, v), asked);
    } else {
      InsertCommitExecution(c, app, r, v, asked);
    }
  }

  lemma SignedVoteExecution(c: Config, app: AppState, r: Replica, round: Round, v: SignedVote, asked: iset<Request>)
    requires ExecutionOk(c, app, r, asked) && LogOk(c, r.log) && SlotSound(r.log) && r.viewNum == 0
    ensures ExecutionOk(c, app, OnSignedVote(c, r, round, v), asked)
  {
    hide ExecutionOk, LogOk, SlotSound, InsertVote;
    var r1 := Broadcast(r, VoteMsg(round, v));
    IdleKeepsExecution(c, app, r, r1, asked);
    IdleKeepsExecution(c, app, r, Stop(r1, AssertionFailed), asked);
    InsertExecution(c, app, r1, round, v, asked);
  }

  lemma VerifiedVoteExecution(c: Config, app: AppState, r: Replica, round: Round, v: SignedVote, asked: iset<Request>)
    requires ExecutionOk(c, app, r, asked) && LogOk(c, r.log) && SlotSound(r.log) && r.viewNum == 0
    ensures ExecutionOk(c, app, OnVerifiedVote(c, r, round, v), asked)
  {
    hide ExecutionOk, LogOk, SlotSound, InsertVote;
    InsertExecution(c, app, r, round, v, asked);
    DrainExecution(c, app, InsertVote(c, r, round, v), round, v.inner.opNum, asked);
  }

  lemma DrainExecution(c: Config, app: AppState, r: Replica, round: Round, k: nat, asked: iset<Request>)
    requires ExecutionOk(c, app, r, asked)
    ensures ExecutionOk(c, app, Drain(r, round, k), asked)
  {
    hide ServiceOk, CommittedUpTo;
  }

  // Executed slots never change

  lemma LogOnlyGrows(c: Config, r: Replica, e: Event)
    requires Local(c, r) && Enabled(c, r, e)
    ensures Extends(r.log, Handle(c, r, e).log) && r.commitNum <= Handle(c, r, e).commitNum
  {
    hide LogOk, BallotsOk, TokenInvariant, TasksOk, SentInLog, LogSent, NoOwnToVerify, InsertVote, OnRecv, Extends;
    match e
    case Recv(m) => RecvKeepsLog(c, r, m); SameExtends(r.log, r.log);
    case Done(t) =>
      TaskAt(r, t);
      match t {
        case SignPrePrepare(w, k, batch) =>
          assert !SlotTaken(r.log, k);
          PrePrepareExtends(r, SignedPrePrepare(PrePrepare(w, k, Sha256(batch)), r.id), batch);
        case VerifyPrePrepare(p, batch) => VerifiedExtends(r, p, batch);
        case SignVote(round, v) =>
          InsertExtends(c, Broadcast(Answer(r, t), VoteMsg(round, SignedVote(v, r.id))), round, SignedVote(v, r.id));
          SameExtends(r.log, r.log);
        case VerifyVote(round, v) => InsertExtends(c, Answer(r, t), round, v);
      }
  }

  lemma SameExtends(log: seq<LogEntry>, log': seq<LogEntry>)
    requires SameSlots(log, log')
    ensures Extends(log, log')
  {
  }

  lemma PrePrepareExtends(r: Replica, p: SignedPrePrepare, batch: seq<Request>)
    requires !SlotTaken(r.log, p.inner.opNum)
    ensures Extends(r.log, OnSignedPrePrepare(r, p, batch).log)
  {
  }

  lemma VerifiedExtends(r: Replica, p: SignedPrePrepare, batch: seq<Request>)
    ensures Extends(r.log, OnVerifiedPrePrepare(r, p, batch).log)
  {
    hide Retain;
  }

  lemma InsertExtends(c: Config, r: Replica, round: Round, v: SignedVote)
    ensures Extends(r.log, InsertVote(c, r, round, v).log) && r.commitNum <= InsertVote(c, r, round, v).commitNum
  {
    if round.Preparing? { InsertPrepareLog(c, r, v); } else { InsertCommitLog(c, r, v); }
  }
}
