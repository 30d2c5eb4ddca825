/** Where a client sends its requests: to the primary of the view that the reply completing
    its last operation names.  A correct replica names view 0, a faulty one any view. */
module PbftDestinations {
  import opened Wrappers
  import opened PbftTypes
  import opened PbftSpec
  import opened PbftLocal
  import opened PbftProposals
  import opened PbftStep
  import opened PbftGuards
  import opened PbftExecution
  import opened PbftSystem
  import opened PbftMacros
  import opened PbftStages
  import opened PbftCounterexamples
  import opened PbftAgreement
  import opened PbftPrimary
  import opened PbftClient
  import opened PbftForeignRequest

  /** An accepted invocation sends one request, with the op it was given and the next number,
      to the replica that is primary in the client's view. */
  lemma InvokeAsksPrimary(c: Config, client: Client, op: Payload, r: Replica)
    requires c.numReplica > 0 && OnInvoke(c, client, op).Success?
    requires r.id < c.numReplica && r.viewNum == client.viewNum < c.numReplica
    ensures
      var client' := OnInvoke(c, client, op).value;
      && |client'.requests| == |client.requests| + 1 && client'.requests[..|client.requests|] == client.requests
      && var (dest, q) := client'.requests[|client.requests|];
      && dest < c.numReplica && (IsPrimary(c, r) <==> r.id == dest)
      && q == Request(client.id, client.addr, client.seqNum + 1, op)
      && Sent(client, op) == Inject(RequestMsg(q))
  {
    SmallRemainder(r.id, c.numReplica);
    SmallRemainder(client.viewNum, c.numReplica);
    var client' := OnInvoke(c, client, op).value;
    assert client'.requests == client.requests + [client'.requests[|client.requests|]];
  }

  lemma SmallRemainder(k: nat, n: nat)
    requires k < n
    ensures k % n == k
  {
  }

  /** The replies that completed an operation each, in order. */
  ghost function Completing(u: Setup, id: nat, addr: Addr, actions: seq<WorldAction>): seq<Reply>
    requires u.c.numReplica > 0
  {
    if actions == [] then []
    else
      var before, a := actions[..|actions| - 1], actions[|actions| - 1];
      var done := |WorldAfter(u, id, addr, before).client.upcalls| < |WorldAfter(u, id, addr, actions).client.upcalls|;
      Completing(u, id, addr, before) + if a.Deliver? && done then [a.reply] else []
  }

  /** The view the client believes in after these replies. */
  function ViewAfter(replies: seq<Reply>, n: nat): nat
    requires n <= |replies|
  {
    if n == 0 then 0 else replies[n - 1].viewNum
  }

  ghost predicate Directed(c: Config, client: Client, replies: seq<Reply>)
    requires c.numReplica > 0
  {
    && |replies| == |client.upcalls| && client.viewNum == ViewAfter(replies, |replies|)
    && |client.requests| == |replies| + (if client.invoke.Some? then 1 else 0)
    && (forall k: nat | k < |client.requests| :: client.requests[k].0 == ViewAfter(replies, k) % c.numReplica)
    && (forall k: nat | k < |replies| :: client.upcalls[k].result == replies[k].result && client.upcalls[k].seqNum == replies[k].seqNum)
  }

  lemma {:induction false} DirectedRun(u: Setup, id: nat, addr: Addr, actions: seq<WorldAction>)
    requires u.c.numReplica > 0
    ensures Directed(u.c, WorldAfter(u, id, addr, actions).client, Completing(u, id, addr, actions))
  {
    hide Next, Authentic, Voters;
    if actions != [] {
      var n := |actions| - 1;
      DirectedRun(u, id, addr, actions[..n]);
      var w, w' := WorldAfter(u, id, addr, actions[..n]), WorldAfter(u, id, addr, actions);
      var replies := Completing(u, id, addr, actions[..n]);
      match actions[n]
      case Group(a) => assert replies + [] == replies;
      case Invoke(op) => assert replies + [] == replies;
      case Deliver(reply) =>
        if w'.client.upcalls == w.client.upcalls { assert replies + [] == replies; }
    }
  }

  /** In every run, the first request goes to replica 0, and each later one to the replica
      that the reply completing the operation before it names as primary: it goes to replica
      0 if and only if that reply names view 0, or a multiple of the number of replicas. */
  lemma RequestsFollowReplies(u: Setup, id: nat, addr: Addr, actions: seq<WorldAction>, k: nat)
    requires u.c.numReplica > 0 && k < |WorldAfter(u, id, addr, actions).client.requests|
    ensures k <= |Completing(u, id, addr, actions)|
    ensures
      var client, replies := WorldAfter(u, id, addr, actions).client, Completing(u, id, addr, actions);
      && client.requests[k].0 < u.c.numReplica
      && (client.requests[k].0 == 0 <==> k == 0 || replies[k - 1].viewNum % u.c.numReplica == 0)
      && (k > 0 && replies[k - 1].viewNum < u.c.numReplica ==> client.requests[k].0 == replies[k - 1].viewNum)
  {
    hide WorldAfter, Completing;
    DirectedRun(u, id, addr, actions);
    assert 0 % u.c.numReplica == 0;
    if k > 0 {
      var v := Completing(u, id, addr, actions)[k - 1].viewNum;
      assert v < u.c.numReplica ==> v % u.c.numReplica == v;
    }
  }

  /** While no reply that completes an operation names another view, every request goes to
      replica 0, which, if correct, is the primary. */
  lemma RequestsGoToPrimary(u: Setup, id: nat, addr: Addr, actions: seq<WorldAction>, k: nat)
    requires u.c.Quorum() >= 2 && k < |WorldAfter(u, id, addr, actions).client.requests|
    requires forall reply <- Completing(u, id, addr, actions) :: reply.viewNum == 0
    ensures
      var w := WorldAfter(u, id, addr, actions);
      && w.client.requests[k].0 == 0
      && (u.Correct(0) ==> w.group.replicas[0].id == 0 && IsPrimary(u.c, w.group.replicas[0]))
  {
    hide WorldAfter, Completing, Reliable, Local;
    RequestsFollowReplies(u, id, addr, actions, k);
    assert 0 % u.c.numReplica == 0;
    GroupRunsAlone(u, id, addr, actions);
    if u.Correct(0) {
      RunReliable(u, GroupActions(u, id, addr, actions));
      ReliableAt(u, WorldAfter(u, id, addr, actions).group, 0);
      LocalView(u.c, WorldAfter(u, id, addr, actions).group.replicas[0]);
    }
  }

  lemma LocalView(c: Config, r: Replica)
    requires Local(c, r) && r.id == 0
    ensures IsPrimary(c, r)
  {
    hide LogOk, BallotsOk, TasksOk, NoFailure, Proposals;
    PrimaryIsZero(c, r);
  }

  // Which views replies name

  ghost predicate NamesViewZero(s: Service) {
    && (forall m <- s.sent :: m.1.viewNum == 0)
    && (forall i <- s.replies | s.replies[i].reply.Some? :: s.replies[i].reply.value.viewNum == 0)
  }

  lemma {:induction false} BatchNamesViewZero(c: Config, id: nat, s: Service, batch: seq<Request>)
    requires NamesViewZero(s)
    ensures NamesViewZero(ExecuteBatch(c, id, 0, s, batch))
    decreases |batch|
  {
    if batch != [] {
      BatchNamesViewZero(c, id, ExecuteRequest(c, id, 0, s, batch[0]), batch[1..]);
    }
  }

  lemma {:induction false} ExecutionNamesViewZero(c: Config, r: Replica)
    requires NamesViewZero(r.service) && r.viewNum == 0
    ensures NamesViewZero(ExecuteCommitted(c, r).service)
    decreases |r.log| - r.commitNum
  {
    hide NamesViewZero;
    if NextCommitted(r) {
      var service := ExecuteBatch(c, r.id, r.viewNum, r.service, r.log[r.commitNum + 1].requests);
      BatchNamesViewZero(c, r.id, r.service, r.log[r.commitNum + 1].requests);
      ExecutionNamesViewZero(c, r.(commitNum := r.commitNum + 1, service := service));
    }
  }

  lemma InsertNamesViewZero(c: Config, r: Replica, round: Round, v: SignedVote)
    requires NamesViewZero(r.service) && r.viewNum == 0
    ensures NamesViewZero(InsertVote(c, r, round, v).service)
  {
    hide NamesViewZero;
    var k, votes := v.inner.opNum, Counted(r, Committing, v);
    if round.Committing? && Commits(c, r, v) {
      ExecutionNamesViewZero(c, DropTable(r, Committing, k).(log := r.log[k := r.log[k].(commits := votes)]));
    }
  }

  lemma StepNamesViewZero(c: Config, r: Replica, e: Event)
    requires NamesViewZero(r.service) && r.viewNum == 0 && Enabled(c, r, e)
    ensures NamesViewZero(Handle(c, r, e).service)
  {
    hide InsertVote, OnRecvVote, OnRecvPrePrepare, OnVerifiedPrePrepare, OnSignedPrePrepare;
    match e
    case Recv(RequestMsg(q)) =>
    case Recv(PrePrepareMsg(p, batch)) => PrePrepareKeepsService(r, p, batch);
    case Recv(VoteMsg(round, v)) => RecvVoteIdle(r, round, v);
    case Done(SignPrePrepare(w, k, batch)) =>
      PrePrepareKeepsService(Answer(r, e.task), SignedPrePrepare(PrePrepare(w, k, Sha256(batch)), r.id), batch);
    case Done(VerifyPrePrepare(p, batch)) => PrePrepareKeepsService(Answer(r, e.task), p, batch);
    case Done(SignVote(round, v)) =>
      InsertNamesViewZero(c, Broadcast(Answer(r, e.task), VoteMsg(round, SignedVote(v, r.id))), round, SignedVote(v, r.id));
    case Done(VerifyVote(round, v)) => InsertNamesViewZero(c, Answer(r, e.task), round, v);
  }

  lemma ReplicaView(c: Config, r: Replica)
    requires Local(c, r)
    ensures r.viewNum == 0
  {
    hide LogOk, BallotsOk, TasksOk, NoFailure, Proposals;
  }

  /** In every run, a correct replica's replies name view 0. */
  lemma {:induction false} CorrectRepliesNameViewZero(u: Setup, actions: seq<Action>, i: nat)
    requires u.c.Quorum() >= 2 && u.Correct(i)
    ensures NamesViewZero(After(u, actions).replicas[i].service)
  {
    hide NamesViewZero, Local, Handle, Forgeable, InNetwork;
    if actions == [] {
      NothingSent(i, u.app);
    } else {
      var n := |actions| - 1;
      var s, a := After(u, actions[..n]), actions[n];
      CorrectRepliesNameViewZero(u, actions[..n], i);
      if a.Act? && a.replica == i && Allowed(u, s, a) {
        RunReliable(u, actions[..n]);
        ReplicaView(u.c, s.replicas[i]);
        StepNamesViewZero(u.c, s.replicas[i], a.event);
      }
    }
  }

  lemma NothingSent(i: nat, app: AppState)
    ensures NamesViewZero(NewReplica(i, app).service)
  {
  }

  // A faulty replica can misdirect the client

  /** A run of group and client ends here. */
  ghost predicate Runs(u: Setup, id: nat, addr: Addr, w: World)
    requires u.c.numReplica > 0
  {
    exists actions :: WorldAfter(u, id, addr, actions) == w
  }

  lemma RunsFirst(u: Setup, id: nat, addr: Addr, s: System, slots: bool, digests: bool)
    requires |s.replicas| == u.c.numReplica > 0 && Reaches(u, s, slots, digests)
    ensures Runs(u, id, addr, World(s, NewClient(id, addr)))
  {
    hide RunKeeps, After, Next;
    var actions :| After(u, actions) == s && RunKeeps(u, actions, slots, digests);
    var lifted := GroupFirst(u, id, addr, actions);
  }

  lemma RunsNext(u: Setup, id: nat, addr: Addr, w: World, a: WorldAction)
    requires |w.group.replicas| == u.c.numReplica > 0 && Runs(u, id, addr, w)
    ensures Runs(u, id, addr, NextWorld(u, w, a))
  {
    hide NextWorld;
    var actions :| WorldAfter(u, id, addr, actions) == w;
    var more := actions + [a];
    assert more[..|actions|] == actions;
    assert WorldAfter(u, id, addr, more) == NextWorld(u, w, a);
  }

  /** The correct primary has executed the client's first request and answered it. */
  lemma PrimaryAnswers(u: Setup, q: Request, q2: Request, execute: (AppState, Payload) -> (AppState, Payload), app: AppState)
    returns (s: System, result: Payload)
    requires u == FourReplicas(execute, 3, app)
    ensures At(u, s, false, true) && s.replicas[1] == NewReplica(1, app)
    ensures (q.clientAddr, Reply(q.seqNum, result, 0, 0)) in s.replicas[0].service.sent
  {
    hide Reaches, Stage, ExecuteBatch;
    var d := Sha256([q]);
    s := SlotScenarioStart(u, q, q2, execute, app);
    assert u.Correct(2);
    var s1 := PlayFirstPrepare(u, s, 0, Proposed([q]), VoteBy(2, d), false, true);
    assert VoteMsg(Committing, VoteBy(2, d)) in s1.replicas[2].out.sent;
    var service := s1.replicas[0].service;
    s := PlayToExecution(u, s1, 0, Proposed([q]), d, 2, 3, false, true);
    assert s.replicas[1] == s1.replicas[1];
    result := u.c.execute(service.app, q.op).1;
    OneAnswer(u.c, service, q);
  }

  lemma OneAnswer(c: Config, s: Service, q: Request)
    ensures (q.clientAddr, Reply(q.seqNum, c.execute(s.app, q.op).1, 0, 0)) in ExecuteBatch(c, 0, 0, s, [q]).sent
  {
    assert [q][1..] == [];
  }

  /** The reply that completes the first operation comes from the faulty replica. */
  lemma PlayMisled(u: Setup, id: nat, addr: Addr, w: World, op: Payload, result: Payload) returns (w': World)
    requires |w.group.replicas| == u.c.numReplica == 4 && u.c.numFaulty == 1 && Runs(u, id, addr, w) && !u.Correct(3)
    requires w.client == NewClient(id, addr)
    requires (addr, Reply(1, result, 0, 0)) in w.group.replicas[0].service.sent
    ensures Runs(u, id, addr, w') && w'.group.replicas == w.group.replicas && w'.client.addr == addr && w'.client.id == id
    ensures w'.client.viewNum == 1 && w'.client.invoke.None? && w'.client.seqNum == 1
    ensures |w'.client.requests| == |w'.client.upcalls| == 1
  {
    hide Runs;
    var first, second := Reply(1, result, 0, 0), Reply(1, result, 1, 3);
    RunsNext(u, id, addr, w, Invoke(op));
    var w1 := NextWorld(u, w, Invoke(op));
    RunsNext(u, id, addr, w1, Deliver(first));
    var w2 := NextWorld(u, w1, Deliver(first));
    assert Voters(map[0 := first], result) == {0};
    assert Voters(map[0 := first][3 := second], result) == {0, 3};
    assert w2.client == w1.client.(invoke := Some(w1.client.invoke.value.(replies := map[0 := first])));
    RunsNext(u, id, addr, w2, Deliver(second));
    w' := NextWorld(u, w2, Deliver(second));
  }

  /** With a correct primary and one faulty replica among four: the faulty replica's reply
      completes an operation and names view 1, so the next request goes to replica 1, which
      is not primary and stops at it. */
  lemma MisledClient(execute: (AppState, Payload) -> (AppState, Payload), app: AppState, id: nat, addr: Addr, op: Payload, op2: Payload)
    returns (actions: seq<WorldAction>)
    ensures
      var u := FourReplicas(execute, 3, app);
      && u.Valid() && u.Correct(0) && u.Correct(1)
      && var w := WorldAfter(u, id, addr, actions);
      && |w.client.requests| == 2 && w.client.requests[1] == (1, Request(id, addr, 2, op2))
      && w.group.replicas[1].status == Unimplemented
  {
    hide Runs, Reaches;
    var u := FourReplicas(execute, 3, app);
    var q, q2 := Request(id, addr, 1, op), Request(id, addr, 2, op2);
    var s, result := PrimaryAnswers(u, q, q2, execute, app);
    RunsFirst(u, id, addr, s, false, true);
    var w := World(s, NewClient(id, addr));
    w := PlayMisled(u, id, addr, w, op, result);
    RunsNext(u, id, addr, w, Invoke(op2));
    var w1 := NextWorld(u, w, Invoke(op2));
    assert RequestMsg(q2) in w1.group.injected;
    var a := Group(Act(1, Recv(RequestMsg(q2))));
    RunsNext(u, id, addr, w1, a);
    var w2 := NextWorld(u, w1, a);
    StopsAtRequest(u.c, app, q2);
    actions := RunOf(u, id, addr, w2);
  }

  lemma StopsAtRequest(c: Config, app: AppState, q: Request)
    requires c.numReplica == 4
    ensures OnRequest(c, NewReplica(1, app), q).status == Unimplemented
  {
    assert 1 % c.numReplica == 1;
  }

  lemma RunOf(u: Setup, id: nat, addr: Addr, w: World) returns (actions: seq<WorldAction>)
    requires u.c.numReplica > 0 && Runs(u, id, addr, w)
    ensures WorldAfter(u, id, addr, actions) == w
  {
    actions :| WorldAfter(u, id, addr, actions) == w;
  }
}
