/** A client of the group: it hands a result up once f + 1 replicas have sent it. */
module PbftClient {
  import opened Wrappers
  import opened PbftTypes
  import opened PbftSpec
  import opened PbftLocal
  import opened PbftTokens
  import opened PbftGuards
  import opened PbftExecution
  import opened PbftSystem
  import opened PbftOrigins
  import opened PbftAgreement

  datatype Invocation = Invocation(op: Payload, resendTimer: nat, replies: map<nat, Reply>)

  datatype Completed = Completed(seqNum: nat, result: Payload)

  /** The timer service keeps the live timers; requests go to one replica each. */
  datatype Client = Client(
    id: nat,
    addr: Addr,
    seqNum: nat,
    invoke: Option<Invocation>,
    viewNum: nat,
    timers: set<nat>,
    lastTimer: nat,
    requests: seq<(nat, Request)>,
    upcalls: seq<Completed>)

  function NewClient(id: nat, addr: Addr): Client {
    Client(id, addr, 0, None, 0, {}, 0, [], [])
  }

  /** Who sent this result so far. */
  function Voters(replies: map<nat, Reply>, result: Payload): set<nat> {
    set i <- replies | replies[i].result == result
  }

  function OnInvoke(c: Config, client: Client, op: Payload): Result<Client, string>
    requires c.numReplica > 0
  {
    if client.invoke.Some? then
      Failure("concurrent invocation")
    else
      var timer := client.lastTimer + 1;
      var request := Request(client.id, client.addr, client.seqNum + 1, op);
      Success(client.(seqNum := client.seqNum + 1,
                      invoke := Some(Invocation(op, timer, map[])),
                      timers := client.timers + {timer}, lastTimer := timer,
                      requests := client.requests + [(client.viewNum % c.numReplica, request)]))
  }

  function OnReply(c: Config, client: Client, reply: Reply): Result<Client, string> {
    if reply.seqNum != client.seqNum || client.invoke.None? then
      Success(client)
    else
      var invoke := client.invoke.value;
      var replies := invoke.replies[reply.replicaId := reply];
      if |Voters(replies, reply.result)| != c.numFaulty + 1 then
        Success(client.(invoke := Some(invoke.(replies := replies))))
      else if invoke.resendTimer !in client.timers then
        Failure("timer not exists")
      else
        Success(client.(invoke := None, viewNum := reply.viewNum,
                        timers := client.timers - {invoke.resendTimer},
                        upcalls := client.upcalls + [Completed(client.seqNum, reply.result)]))
  }

  // Between two events no result has more than f votes

  ghost predicate BelowQuorum(c: Config, client: Client) {
    client.invoke.Some? ==>
      forall result :: |Voters(client.invoke.value.replies, result)| <= c.numFaulty
  }

  /** One timer is live while an invocation is open, and none otherwise. */
  ghost predicate TimerOk(client: Client) {
    && client.timers == (if client.invoke.Some? then {client.invoke.value.resendTimer} else {})
    && (client.invoke.Some? ==> client.invoke.value.resendTimer <= client.lastTimer)
  }

  /** Counting to exactly f + 1 never misses: a reply either completes the quorum, or no
      result has more than f votes afterwards. */
  lemma ReplyCountsExactly(c: Config, client: Client, reply: Reply)
    requires BelowQuorum(c, client) && TimerOk(client)
    ensures
      var r := OnReply(c, client, reply);
      && r.Success? && BelowQuorum(c, r.value) && TimerOk(r.value)
      && (|r.value.upcalls| > |client.upcalls| <==>
            && client.invoke.Some? && reply.seqNum == client.seqNum
            && |Voters(client.invoke.value.replies[reply.replicaId := reply], reply.result)| > c.numFaulty)
  {
    if client.invoke.Some? && reply.seqNum == client.seqNum {
      var before := client.invoke.value.replies;
      var after := before[reply.replicaId := reply];
      forall result ensures |Voters(after, result)| <= c.numFaulty + if result == reply.result then 1 else 0 {
        SmallerSet(Voters(before, result), Voters(before, result) + {reply.replicaId});
        if result == reply.result {
          SmallerSet(Voters(after, result), Voters(before, result) + {reply.replicaId});
        } else {
          SmallerSet(Voters(after, result), Voters(before, result));
        }
      }
    }
  }

  lemma InvokeKeepsCount(c: Config, client: Client, op: Payload)
    requires BelowQuorum(c, client) && TimerOk(client) && c.numReplica > 0
    ensures
      var r := OnInvoke(c, client, op);
      (r.Failure? <==> client.invoke.Some?) && (r.Success? ==> BelowQuorum(c, r.value) && TimerOk(r.value))
  {
    if client.invoke.None? {
      forall result ensures Voters(map[], result) == {} {}
    }
  }

  /** The requests of a client are numbered from 1 and name it; it has handed up one result
      per number, in order, except for the open invocation. */
  ghost predicate InSequence(client: Client) {
    && |client.requests| == client.seqNum
    && (forall k: nat | k < |client.requests| :: OwnRequest(client, k + 1, client.requests[k].1))
    && |client.upcalls| == client.seqNum - (if client.invoke.Some? then 1 else 0)
    && (forall k: nat | k < |client.upcalls| :: client.upcalls[k].seqNum == k + 1)
  }

  predicate OwnRequest(client: Client, n: nat, q: Request) {
    q.clientId == client.id && q.clientAddr == client.addr && q.seqNum == n
  }

  // The client beside the group

  datatype World = World(group: System, client: Client)

  datatype WorldAction = Group(action: Action) | Invoke(op: Payload) | Deliver(reply: Reply)

  /** Replies are authenticated: one that names a correct replica was sent by it. */
  ghost predicate Authentic(u: Setup, w: World, reply: Reply)
    requires |w.group.replicas| == u.c.numReplica
  {
    && reply.replicaId < u.c.numReplica
    && (u.Correct(reply.replicaId) ==>
          (w.client.addr, reply) in w.group.replicas[reply.replicaId].service.sent)
  }

  /** What an invocation puts into the network of the group. */
  function Sent(client: Client, op: Payload): (a: Action)
    ensures a.Inject? && a.message.RequestMsg?
  {
    Inject(RequestMsg(Request(client.id, client.addr, client.seqNum + 1, op)))
  }

  /** Actions that are not allowed, and events the client refuses, do nothing. */
  ghost function NextWorld(u: Setup, w: World, a: WorldAction): (w': World)
    requires |w.group.replicas| == u.c.numReplica > 0
    ensures |w'.group.replicas| == u.c.numReplica
  {
    match a
    case Group(action) => w.(group := Next(u, w.group, action))
    case Invoke(op) =>
      var r := OnInvoke(u.c, w.client, op);
      if r.Success? then World(Next(u, w.group, Sent(w.client, op)), r.value) else w
    case Deliver(reply) =>
      var r := OnReply(u.c, w.client, reply);
      if Authentic(u, w, reply) && r.Success? then w.(client := r.value) else w
  }

  ghost function WorldAfter(u: Setup, id: nat, addr: Addr, actions: seq<WorldAction>): (w: World)
    requires u.c.numReplica > 0
    ensures |w.group.replicas| == u.c.numReplica
  {
    if actions == [] then World(Start(u), NewClient(id, addr))
    else NextWorld(u, WorldAfter(u, id, addr, actions[..|actions| - 1]), actions[|actions| - 1])
  }

  /** What the group sees of an action. */
  ghost function GroupSees(u: Setup, w: World, a: WorldAction): seq<Action>
    requires u.c.numReplica > 0
  {
    match a
    case Group(action) => [action]
    case Invoke(op) => if OnInvoke(u.c, w.client, op).Success? then [Sent(w.client, op)] else []
    case Deliver(_) => []
  }

  ghost function GroupActions(u: Setup, id: nat, addr: Addr, actions: seq<WorldAction>): seq<Action>
    requires u.c.numReplica > 0
  {
    if actions == [] then []
    else
      var before := actions[..|actions| - 1];
      GroupActions(u, id, addr, before) + GroupSees(u, WorldAfter(u, id, addr, before), actions[|actions| - 1])
  }

  lemma {:induction false} GroupRunsAlone(u: Setup, id: nat, addr: Addr, actions: seq<WorldAction>)
    requires u.c.numReplica > 0
    ensures WorldAfter(u, id, addr, actions).group == After(u, GroupActions(u, id, addr, actions))
  {
    hide Next, OnInvoke, OnReply, Authentic;
    if actions != [] {
      var n := |actions| - 1;
      GroupRunsAlone(u, id, addr, actions[..n]);
      var before := GroupActions(u, id, addr, actions[..n]);
      var seen := GroupSees(u, WorldAfter(u, id, addr, actions[..n]), actions[n]);
      assert before + [] == before;
      if seen != [] {
        assert (before + seen)[..|before|] == before && (before + seen)[|before|] == seen[0];
      }
    }
  }

  /** A correct replica sent the client this result for this number. */
  ghost predicate Backed(u: Setup, w: World, seqNum: nat, result: Payload)
    requires |w.group.replicas| == u.c.numReplica
  {
    exists j: nat, reply :: BackedBy(u, w, seqNum, result, j, reply)
  }

  ghost predicate BackedBy(u: Setup, w: World, seqNum: nat, result: Payload, j: nat, reply: Reply)
    requires |w.group.replicas| == u.c.numReplica
  {
    && u.Correct(j) && (w.client.addr, reply) in w.group.replicas[j].service.sent
    && reply.seqNum == seqNum && reply.result == result
  }

  ghost predicate RepliesOk(u: Setup, w: World, replies: map<nat, Reply>)
    requires |w.group.replicas| == u.c.numReplica
  {
    forall i <- replies :: replies[i].replicaId == i && replies[i].seqNum == w.client.seqNum && Authentic(u, w, replies[i])
  }

  ghost predicate ClientOk(u: Setup, w: World)
    requires |w.group.replicas| == u.c.numReplica
  {
    && BelowQuorum(u.c, w.client) && TimerOk(w.client) && InSequence(w.client)
    && (w.client.invoke.Some? ==> RepliesOk(u, w, w.client.invoke.value.replies))
    && (forall k: nat | k < |w.client.upcalls| :: Backed(u, w, w.client.upcalls[k].seqNum, w.client.upcalls[k].result))
  }

  lemma RepliesStaySent(c: Config, r: Replica, e: Event)
    requires Enabled(c, r, e)
    ensures r.service.sent <= Handle(c, r, e).service.sent
  {
    hide InsertVote, OnRecvVote, OnRecvPrePrepare, OnVerifiedPrePrepare, OnSignedPrePrepare;
    match e
    case Recv(RequestMsg(q)) =>
    case Recv(PrePrepareMsg(p, batch)) => PrePrepareKeepsService(r, p, batch);
    case Recv(VoteMsg(round, v)) => RecvVoteIdle(r, round, v);
    case Done(SignPrePrepare(w, k, batch)) =>
      PrePrepareKeepsService(Answer(r, e.task), SignedPrePrepare(PrePrepare(w, k, Sha256(batch)), r.id), batch);
    case Done(VerifyPrePrepare(p, batch)) => PrePrepareKeepsService(Answer(r, e.task), p, batch);
    case Done(SignVote(round, v)) =>
      InsertKeepsReplies(c, Broadcast(Answer(r, e.task), VoteMsg(round, SignedVote(v, r.id))), round, SignedVote(v, r.id));
    case Done(VerifyVote(round, v)) => InsertKeepsReplies(c, Answer(r, e.task), round, v);
  }

  lemma PrePrepareKeepsService(r: Replica, p: SignedPrePrepare, batch: seq<Request>)
    ensures OnRecvPrePrepare(r, p, batch).service == r.service
    ensures OnVerifiedPrePrepare(r, p, batch).service == r.service
    ensures OnSignedPrePrepare(r, p, batch).service == r.service
  {
  }

  lemma {:induction false} BatchKeepsReplies(c: Config, id: nat, viewNum: nat, s: Service, batch: seq<Request>)
    ensures s.sent <= ExecuteBatch(c, id, viewNum, s, batch).sent
    decreases |batch|
  {
    if batch != [] {
      BatchKeepsReplies(c, id, viewNum, ExecuteRequest(c, id, viewNum, s, batch[0]), batch[1..]);
    }
  }

  lemma {:induction false} CommittedKeepReplies(c: Config, r: Replica)
    ensures r.service.sent <= ExecuteCommitted(c, r).service.sent
    decreases |r.log| - r.commitNum
  {
    if NextCommitted(r) {
      var service := ExecuteBatch(c, r.id, r.viewNum, r.service, r.log[r.commitNum + 1].requests);
      BatchKeepsReplies(c, r.id, r.viewNum, r.service, r.log[r.commitNum + 1].requests);
      CommittedKeepReplies(c, r.(commitNum := r.commitNum + 1, service := service));
    }
  }

  lemma InsertKeepsReplies(c: Config, r: Replica, round: Round, v: SignedVote)
    ensures r.service.sent <= InsertVote(c, r, round, v).service.sent
  {
    var k, votes := v.inner.opNum, Counted(r, Committing, v);
    if round.Committing? && Commits(c, r, v) {
      CommittedKeepReplies(c, DropTable(r, Committing, k).(log := r.log[k := r.log[k].(commits := votes)]));
    }
  }

  lemma GroupStepKeepsClient(u: Setup, w: World, a: Action)
    requires |w.group.replicas| == u.c.numReplica > 0 && ClientOk(u, w)
    ensures ClientOk(u, NextWorld(u, w, Group(a)))
  {
    hide BelowQuorum, Allowed, Handle;
    var w' := NextWorld(u, w, Group(a));
    forall i: nat | u.Correct(i) ensures w.group.replicas[i].service.sent <= w'.group.replicas[i].service.sent {
      if Allowed(u, w.group, a) && a.Act? && a.replica == i { ActorKeepsReplies(u, w.group, a); }
    }
    forall k: nat | k < |w'.client.upcalls|
      ensures Backed(u, w', w'.client.upcalls[k].seqNum, w'.client.upcalls[k].result)
    {
      var done := w.client.upcalls[k];
      assert Backed(u, w, done.seqNum, done.result);
      var j: nat, reply :| BackedBy(u, w, done.seqNum, done.result, j, reply);
      assert BackedBy(u, w', done.seqNum, done.result, j, reply);
    }
  }

  lemma ActorKeepsReplies(u: Setup, s: System, a: Action)
    requires |s.replicas| == u.c.numReplica && Allowed(u, s, a) && a.Act?
    ensures s.replicas[a.replica].service.sent <= Next(u, s, a).replicas[a.replica].service.sent
  {
    hide Handle;
    RepliesStaySent(u.c, s.replicas[a.replica], a.event);
  }

  lemma DeliverKeepsClient(u: Setup, w: World, reply: Reply)
    requires |w.group.replicas| == u.c.numReplica > 0 && ClientOk(u, w) && |u.faulty| <= u.c.numFaulty
    ensures ClientOk(u, NextWorld(u, w, Deliver(reply)))
  {
    hide BelowQuorum;
    var w', r := NextWorld(u, w, Deliver(reply)), OnReply(u.c, w.client, reply);
    ReplyCountsExactly(u.c, w.client, reply);
    if Authentic(u, w, reply) && reply.seqNum == w.client.seqNum && w.client.invoke.Some? {
      var replies := w.client.invoke.value.replies[reply.replicaId := reply];
      var voters := Voters(replies, reply.result);
      if |voters| == u.c.numFaulty + 1 {
        if voters <= u.faulty { SmallerSet(voters, u.faulty); }
        var j :| j in voters && j !in u.faulty;
        assert RepliesOk(u, w, replies);
        assert BackedBy(u, w', w.client.seqNum, reply.result, j, replies[j]);
        OldUpcallsBacked(u, w, w');
      } else {
        OldUpcallsBacked(u, w, w');
      }
    }
  }

  lemma OldUpcallsBacked(u: Setup, w: World, w': World)
    requires |w.group.replicas| == u.c.numReplica > 0 && ClientOk(u, w)
    requires w'.group == w.group && w'.client.addr == w.client.addr
    ensures forall k: nat | k < |w.client.upcalls| :: Backed(u, w', w.client.upcalls[k].seqNum, w.client.upcalls[k].result)
  {
    forall k: nat | k < |w.client.upcalls|
      ensures Backed(u, w', w.client.upcalls[k].seqNum, w.client.upcalls[k].result)
    {
      var done := w.client.upcalls[k];
      var j: nat, reply :| BackedBy(u, w, done.seqNum, done.result, j, reply);
      assert BackedBy(u, w', done.seqNum, done.result, j, reply);
    }
  }

  lemma InvokeKeepsClient(u: Setup, w: World, op: Payload)
    requires |w.group.replicas| == u.c.numReplica > 0 && ClientOk(u, w)
    ensures ClientOk(u, NextWorld(u, w, Invoke(op)))
  {
    hide BelowQuorum, Next;
    InvokeKeepsCount(u.c, w.client, op);
    if w.client.invoke.None? {
      GroupStepKeepsClient(u, w, Sent(w.client, op));
      var w1 := NextWorld(u, w, Group(Sent(w.client, op)));
      OldUpcallsBacked(u, w1, NextWorld(u, w, Invoke(op)));
    }
  }

  lemma {:induction false} ClientRun(u: Setup, id: nat, addr: Addr, actions: seq<WorldAction>)
    requires u.c.numReplica > 0 && |u.faulty| <= u.c.numFaulty
    ensures ClientOk(u, WorldAfter(u, id, addr, actions))
    ensures WorldAfter(u, id, addr, actions).client.id == id && WorldAfter(u, id, addr, actions).client.addr == addr
  {
    hide ClientOk, Next;
    if actions == [] {
      assert ClientOk(u, World(Start(u), NewClient(id, addr))) by { StartClientOk(u, id, addr); }
    } else {
      var w, a := WorldAfter(u, id, addr, actions[..|actions| - 1]), actions[|actions| - 1];
      ClientRun(u, id, addr, actions[..|actions| - 1]);
      match a
      case Group(action) => GroupStepKeepsClient(u, w, action);
      case Invoke(op) => InvokeKeepsClient(u, w, op);
      case Deliver(reply) => DeliverKeepsClient(u, w, reply);
    }
  }

  lemma StartClientOk(u: Setup, id: nat, addr: Addr)
    ensures ClientOk(u, World(Start(u), NewClient(id, addr)))
  {
  }

  /** Position p of replica j's history holds a request with the result's number, for
      which this address asked, and running the history up to there gives the result. */
  ghost predicate ComputedAt(u: Setup, s: System, j: nat, p: nat, addr: Addr, done: Completed)
    requires |s.replicas| == u.c.numReplica && u.Correct(j)
  {
    var r := s.replicas[j];
    && p < |History(r)|
    && History(r)[p].seqNum == done.seqNum
    && AskedFrom(Asked(u, s), History(r)[p], addr)
    && ResultAt(u.c, u.app, History(r), p) == done.result
  }

  /** A result handed up was computed by a correct replica, and every correct replica that
      executed as far computed the same result, for the same request, at that position. */
  lemma ClientResult(u: Setup, id: nat, addr: Addr, actions: seq<WorldAction>, k: nat)
    returns (j: nat, p: nat)
    requires u.Valid() && GuardedRun(u, GroupActions(u, id, addr, actions))
    requires k < |WorldAfter(u, id, addr, actions).client.upcalls|
    ensures u.Correct(j)
    ensures
      var w := WorldAfter(u, id, addr, actions);
      ComputedAt(u, w.group, j, p, addr, w.client.upcalls[k])
    ensures
      var w := WorldAfter(u, id, addr, actions);
      forall i: nat | u.Correct(i) && p < |History(w.group.replicas[i])| ::
        && ComputedAt(u, w.group, i, p, addr, w.client.upcalls[k])
        && History(w.group.replicas[i])[p] == History(w.group.replicas[j])[p]
  {
    hide SoundSystem, Setup.Valid, ClientOk, GuardedRun, AskedFrom;
    ValidBounds(u);
    var w := WorldAfter(u, id, addr, actions);
    ClientRun(u, id, addr, actions);
    GroupRunsAlone(u, id, addr, actions);
    var reply: Reply;
    j, reply := UpcallBacker(u, w, k);
    RunSoundHere(u, GroupActions(u, id, addr, actions));
    p := AnswerPosition(u, w.group, j, addr, reply);
    var r := w.group.replicas[j];
    forall i: nat | u.Correct(i) && p < |History(w.group.replicas[i])|
      ensures ComputedAt(u, w.group, i, p, addr, w.client.upcalls[k])
           && History(w.group.replicas[i])[p] == History(r)[p]
    {
      var r' := w.group.replicas[i];
      SoundBounds(u, w.group, i);
      if r'.commitNum <= r.commitNum {
        PrefixExecution(u, GroupActions(u, id, addr, actions), i, j);
        SameAnswer(u, History(r'), History(r), p);
      } else {
        PrefixExecution(u, GroupActions(u, id, addr, actions), j, i);
        SameAnswer(u, History(r), History(r'), p);
      }
    }
  }

  lemma ValidBounds(u: Setup)
    requires u.Valid()
    ensures u.c.numReplica > 0 && |u.faulty| <= u.c.numFaulty && u.c.Quorum() >= 2
  {
  }

  lemma RunSoundHere(u: Setup, actions: seq<Action>)
    requires u.Valid() && GuardedRun(u, actions)
    ensures SoundSystem(u, After(u, actions))
  {
    hide GuardedRun, SoundSystem;
    RunSound(u, actions);
  }

  lemma SameAnswer(u: Setup, shorter: seq<Request>, longer: seq<Request>, p: nat)
    requires shorter <= longer && p < |longer|
    ensures p < |shorter| ==>
      shorter[p] == longer[p] && ResultAt(u.c, u.app, shorter, p) == ResultAt(u.c, u.app, longer, p)
  {
    if p < |shorter| { assert shorter[..p] == longer[..p]; }
  }

  lemma UpcallBacker(u: Setup, w: World, k: nat) returns (j: nat, reply: Reply)
    requires |w.group.replicas| == u.c.numReplica && ClientOk(u, w) && k < |w.client.upcalls|
    ensures BackedBy(u, w, w.client.upcalls[k].seqNum, w.client.upcalls[k].result, j, reply)
  {
    hide BelowQuorum, RepliesOk;
    var done := w.client.upcalls[k];
    assert Backed(u, w, done.seqNum, done.result);
    j, reply :| BackedBy(u, w, done.seqNum, done.result, j, reply);
  }

  lemma AnswerPosition(u: Setup, s: System, j: nat, addr: Addr, reply: Reply) returns (p: nat)
    requires |s.replicas| == u.c.numReplica && SoundSystem(u, s) && u.Correct(j)
    requires (addr, reply) in s.replicas[j].service.sent
    ensures
      var r := s.replicas[j];
      && p < |History(r)|
      && History(r)[p].seqNum == reply.seqNum
      && ResultAt(u.c, u.app, History(r), p) == reply.result
      && AskedFrom(Asked(u, s), History(r)[p], addr)
  {
    hide SlotSound, DigestSound, CommitsIn, PrePreparesIn, CacheOk, Reliable, AskedFrom;
    var r := s.replicas[j];
    assert SoundReplica(u, s, r);
    var q :| AskedFrom(Asked(u, s), q, addr) && Answers(u.c, u.app, r.id, History(r), q, reply);
    p :| AnswersAt(u.c, u.app, r.id, History(r), p, q, reply);
  }
}
