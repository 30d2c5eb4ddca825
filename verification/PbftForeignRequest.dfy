/** Why a client cannot do without that proviso: whatever foreign request is voiced with the
    client's number and its id or its address, there is a run in which that request alone is
    foreign, both checks of agreement hold, and its result is what the client hands up. */
module PbftForeignRequest {
  import opened Wrappers
  import opened PbftTypes
  import opened PbftSpec
  import opened PbftLocal
  import opened PbftTokens
  import opened PbftProposals
  import opened PbftGuards
  import opened PbftExecution
  import opened PbftSystem
  import opened PbftMacros
  import opened PbftStages
  import opened PbftCounterexamples
  import opened PbftAgreement
  import opened PbftClient
  import opened PbftOwnResult

  function Own(id: nat, addr: Addr, ops: seq<Payload>, k: nat): Request
    requires k < |ops|
  {
    Request(id, addr, k + 1, ops[k])
  }

  /** The client's own requests, but for the last one. */
  function Batch(id: nat, addr: Addr, ops: seq<Payload>, q: Request): (batch: seq<Request>)
    requires ops != []
    ensures |batch| == |ops| && batch[|ops| - 1] == q
    ensures forall k: nat | k < |ops| - 1 :: batch[k] == Own(id, addr, ops, k)
  {
    seq(|ops|, k requires 0 <= k < |ops| => if k < |ops| - 1 then Own(id, addr, ops, k) else q)
  }

  // What executing a batch answers

  predicate Replied(s: Service, id: nat, q: Request, result: Payload) {
    (q.clientAddr, Reply(q.seqNum, result, 0, id)) in s.sent
  }

  lemma {:induction false} BatchReplies(c: Config, app: AppState, id: nat, s: Service, batch: seq<Request>, n: nat)
    requires n <= |batch| && s.app == RunApp(c, app, batch[..n])
    requires forall p: nat | p < n :: Replied(s, id, batch[p], ResultAt(c, app, batch, p))
    ensures
      var s' := ExecuteBatch(c, id, 0, s, batch[n..]);
      forall p: nat | p < |batch| :: Replied(s', id, batch[p], ResultAt(c, app, batch, p))
    decreases |batch| - n
  {
    if n < |batch| {
      var s1 := ExecuteRequest(c, id, 0, s, batch[n]);
      RunAppSplit(c, app, batch[..n], [batch[n]]);
      assert batch[..n] + [batch[n]] == batch[..n + 1];
      assert batch[n..][1..] == batch[n + 1..] && batch[n..][0] == batch[n];
      BatchReplies(c, app, id, s1, batch, n + 1);
    } else {
      assert batch[n..] == [];
    }
  }

  /** The reply to the last request of a batch is cached, if no number before it is higher. */
  lemma {:induction false} LastCached(c: Config, app: AppState, id: nat, s: Service, batch: seq<Request>, n: nat)
    requires n < |batch| && s.app == RunApp(c, app, batch[..n])
    requires forall p: nat | p < |batch| :: batch[p].seqNum <= batch[|batch| - 1].seqNum
    requires forall i <- s.replies :: s.replies[i].seqNum <= batch[|batch| - 1].seqNum
    ensures
      var s', q := ExecuteBatch(c, id, 0, s, batch[n..]), batch[|batch| - 1];
      && q.clientId in s'.replies
      && s'.replies[q.clientId]
         == CachedReply(q.seqNum, Some(Reply(q.seqNum, ResultAt(c, app, batch, |batch| - 1), 0, id)))
    decreases |batch| - n
  {
    var s1 := ExecuteRequest(c, id, 0, s, batch[n]);
    RunAppSplit(c, app, batch[..n], [batch[n]]);
    assert batch[..n] + [batch[n]] == batch[..n + 1];
    assert batch[n..][1..] == batch[n + 1..] && batch[n..][0] == batch[n];
    if n == |batch| - 1 {
      assert batch[n + 1..] == [];
    } else {
      LastCached(c, app, id, s1, batch, n + 1);
    }
  }

  // The group: the faulty primary proposes the batch, replicas 1 and 2 execute it

  function Proposing(batch: seq<Request>): set<Message> {
    {PrePrepareMsg(Proposal(1, batch), batch), VoteMsg(Preparing, VoteBy(0, Sha256(batch))),
     VoteMsg(Committing, VoteBy(0, Sha256(batch)))}
  }

  function Prepared(i: nat, batch: seq<Request>): LogEntry {
    var d := Sha256(batch);
    Proposed(batch).(prepares := map[i := VoteBy(i, d), 0 := VoteBy(0, d)])
  }

  /** The replica has its own commit and that of the primary still to come. */
  ghost predicate Committed(s: System, i: nat, batch: seq<Request>, app: AppState)
    requires i < |s.replicas|
  {
    var r, vote := s.replicas[i], VoteBy(i, Sha256(batch));
    && Stage(r, i, Some(Prepared(i, batch)), map[], map[i := vote], map[])
    && r.service == Service(app, map[], {}) && VoteMsg(Committing, vote) in r.out.sent
  }

  lemma PlayCommit(u: Setup, s: System, i: nat, batch: seq<Request>, execute: (AppState, Payload) -> (AppState, Payload), app: AppState)
    returns (s': System)
    requires u == FourReplicas(execute, 0, app) && At(u, s, true, true) && 1 <= i < 4
    requires s.replicas[i] == NewReplica(i, app) && s.injected == Proposing(batch)
    ensures At(u, s', true, true) && s' == Put(s, i, s'.replicas[i]) && Committed(s', i, batch, app)
  {
    hide Reaches, Stage;
    var d := Sha256(batch);
    NewStage(i, app);
    s' := PlayPrePrepared(u, s, i, batch, map[], true, true);
    s' := PlayPrepared(u, s', i, Proposed(batch), i, VoteBy(i, d), VoteBy(0, d), map[], true, true);
  }

  /** The commits of the primary and of the other replica complete the quorum. */
  lemma PlayExecute(u: Setup, s: System, i: nat, j: nat, batch: seq<Request>,
                    execute: (AppState, Payload) -> (AppState, Payload), app: AppState)
    returns (s': System)
    requires u == FourReplicas(execute, 0, app) && At(u, s, true, true) && 1 <= i < 4 && 1 <= j < 4 && i != j
    requires Committed(s, i, batch, app) && VoteMsg(Committing, VoteBy(j, Sha256(batch))) in s.replicas[j].out.sent
    requires s.injected == Proposing(batch)
    ensures At(u, s', true, true) && s' == Put(s, i, s'.replicas[i]) && ExecutedOne(s'.replicas[i], i, batch)
    ensures s'.replicas[i].status == Running && s.replicas[i].out.sent <= s'.replicas[i].out.sent
    ensures s'.replicas[i].service == ExecuteBatch(u.c, i, 0, Service(app, map[], {}), batch)
  {
    hide Reaches, Stage, InsertCommit;
    var d, e := Sha256(batch), Prepared(i, batch);
    assert u.Correct(j);
    var s1 := PlaySecondCommit(u, s, i, e, i, VoteBy(i, d), VoteBy(0, d), true, true);
    var cv := map[i := VoteBy(i, d), 0 := VoteBy(0, d)];
    assert |cv| == 2;
    s' := PlayThirdCommit(u, s1, i, e, cv, VoteBy(j, d), true, true);
    ThirdCommitStage(u.c, s1.replicas[i], i, e, cv, VoteBy(j, d));
    StageId(s1.replicas[i], i, Some(e), cv);
    InsertSendsNothing(u.c, s1.replicas[i], Committing, VoteBy(j, d));
  }

  /** Replica i has executed the batch and nothing else. */
  ghost predicate HasExecuted(u: Setup, s: System, i: nat, batch: seq<Request>)
    requires i < |s.replicas|
  {
    && s.replicas[i].status == Running && ExecutedOne(s.replicas[i], i, batch)
    && s.replicas[i].service == ExecuteBatch(u.c, i, 0, Service(u.app, map[], {}), batch)
  }

  lemma GroupExecutes(u: Setup, batch: seq<Request>, execute: (AppState, Payload) -> (AppState, Payload), app: AppState)
    returns (s: System)
    requires u == FourReplicas(execute, 0, app)
    ensures At(u, s, true, true) && s.injected == Proposing(batch)
    ensures HasExecuted(u, s, 1, batch) && HasExecuted(u, s, 2, batch)
  {
    hide Reaches, Stage;
    var d := Sha256(batch);
    ReachesStart(u, true, true);
    s := Start(u);
    PlayInject(u, s, PrePrepareMsg(Proposal(1, batch), batch), true, true);
    s := System(s.replicas, s.injected + {PrePrepareMsg(Proposal(1, batch), batch)});
    PlayInject(u, s, VoteMsg(Preparing, VoteBy(0, d)), true, true);
    s := System(s.replicas, s.injected + {VoteMsg(Preparing, VoteBy(0, d))});
    PlayInject(u, s, VoteMsg(Committing, VoteBy(0, d)), true, true);
    s := System(s.replicas, s.injected + {VoteMsg(Committing, VoteBy(0, d))});
    assert s.injected == Proposing(batch);
    var s1 := PlayCommit(u, s, 1, batch, execute, app);
    var s2 := PlayCommit(u, s1, 2, batch, execute, app);
    assert s2.replicas[1] == s1.replicas[1];
    var s3 := PlayExecute(u, s2, 1, 2, batch, execute, app);
    assert s3.replicas[2] == s2.replicas[2];
    s := PlayExecute(u, s3, 2, 1, batch, execute, app);
    assert s.replicas[1] == s3.replicas[1];
  }

  // The client beside it

  /** A run of group and client, with both checks in place, ends here. */
  ghost predicate Drives(u: Setup, id: nat, addr: Addr, w: World)
    requires u.c.numReplica > 0
  {
    exists actions :: WorldAfter(u, id, addr, actions) == w && GuardedRun(u, GroupActions(u, id, addr, actions))
  }

  lemma {:induction false} GroupFirst(u: Setup, id: nat, addr: Addr, actions: seq<Action>) returns (lifted: seq<WorldAction>)
    requires u.c.numReplica > 0
    ensures WorldAfter(u, id, addr, lifted) == World(After(u, actions), NewClient(id, addr))
    ensures GroupActions(u, id, addr, lifted) == actions
  {
    hide Next;
    if actions == [] {
      lifted := [];
    } else {
      var n := |actions| - 1;
      var before := GroupFirst(u, id, addr, actions[..n]);
      lifted := before + [Group(actions[n])];
      assert lifted[..|before|] == before;
      assert actions == actions[..n] + [actions[n]];
    }
  }

  lemma DrivesFirst(u: Setup, id: nat, addr: Addr, s: System)
    requires |s.replicas| == u.c.numReplica > 0 && Reaches(u, s, true, true)
    ensures Drives(u, id, addr, World(s, NewClient(id, addr)))
  {
    hide GuardsHold, SlotGuard, DigestGuard, Next, After;
    var actions :| After(u, actions) == s && RunKeeps(u, actions, true, true);
    var lifted := GroupFirst(u, id, addr, actions);
    forall k: nat | k < |actions| ensures Guarded(u, After(u, actions[..k]), actions[k]) {
      assert GuardsHold(u, After(u, actions[..k]), actions[k], true, true);
      HeldIsGuarded(u, After(u, actions[..k]), actions[k]);
    }
    assert GuardedRun(u, GroupActions(u, id, addr, lifted));
  }

  lemma HeldIsGuarded(u: Setup, s: System, a: Action)
    requires |s.replicas| == u.c.numReplica && GuardsHold(u, s, a, true, true)
    ensures Guarded(u, s, a)
  {
  }

  lemma DrivesNext(u: Setup, id: nat, addr: Addr, w: World, a: WorldAction)
    requires |w.group.replicas| == u.c.numReplica > 0 && Drives(u, id, addr, w)
    requires forall g <- GroupSees(u, w, a) :: Guarded(u, w.group, g)
    ensures Drives(u, id, addr, NextWorld(u, w, a))
  {
    hide Guarded, NextWorld, After;
    var actions :| WorldAfter(u, id, addr, actions) == w && GuardedRun(u, GroupActions(u, id, addr, actions));
    var more := actions + [a];
    assert more[..|actions|] == actions;
    GroupRunsAlone(u, id, addr, actions);
    var before, after := GroupActions(u, id, addr, actions), GroupActions(u, id, addr, more);
    assert after == before + GroupSees(u, w, a);
    forall k: nat | k < |after| ensures Guarded(u, After(u, after[..k]), after[k]) {
      if k < |before| {
        assert after[..k] == before[..k];
      } else {
        assert after[..k] == before && after[k] in GroupSees(u, w, a);
      }
    }
    assert GuardedRun(u, after);
  }

  /** The client has finished its first k operations with these results. */
  ghost predicate Idle(client: Client, id: nat, addr: Addr, ops: seq<Payload>, results: seq<Payload>, k: nat) {
    && client.id == id && client.addr == addr && client.seqNum == k <= |ops| == |results|
    && client.invoke.None? && TimerOk(client)
    && |client.requests| == |client.upcalls| == k
    && (forall j: nat | j < k :: client.requests[j].1 == Own(id, addr, ops, j))
    && (forall j: nat | j < k :: client.upcalls[j] == Completed(j + 1, results[j]))
  }

  /** It has sent the next request and got no reply yet. */
  ghost predicate Open(client: Client, id: nat, addr: Addr, ops: seq<Payload>, results: seq<Payload>, k: nat) {
    && client.id == id && client.addr == addr && client.seqNum == k + 1 <= |ops| == |results|
    && client.invoke.Some? && client.invoke.value.replies == map[] && TimerOk(client)
    && |client.requests| == k + 1 && |client.upcalls| == k
    && (forall j: nat | j <= k :: client.requests[j].1 == Own(id, addr, ops, j))
    && (forall j: nat | j < k :: client.upcalls[j] == Completed(j + 1, results[j]))
  }

  ghost predicate BothAnswered(w: World, n: nat, result: Payload)
    requires |w.group.replicas| == 4
  {
    forall i: nat | 1 <= i <= 2 :: (w.client.addr, Reply(n, result, 0, i)) in w.group.replicas[i].service.sent
  }

  lemma PlayInvoke(u: Setup, id: nat, addr: Addr, w: World, ops: seq<Payload>, results: seq<Payload>, k: nat) returns (w': World)
    requires |w.group.replicas| == u.c.numReplica > 0 && Drives(u, id, addr, w)
    requires k < |ops| && Idle(w.client, id, addr, ops, results, k)
    ensures |w'.group.replicas| == u.c.numReplica && Drives(u, id, addr, w')
    ensures Open(w'.client, id, addr, ops, results, k)
    ensures w'.group == w.group.(injected := w.group.injected + {RequestMsg(Own(id, addr, ops, k))})
  {
    hide Drives;
    var a := Invoke(ops[k]);
    DrivesNext(u, id, addr, w, a);
    w' := NextWorld(u, w, a);
  }

  /** Two equal replies complete the open invocation. */
  lemma PlayReplies(u: Setup, id: nat, addr: Addr, w: World, ops: seq<Payload>, results: seq<Payload>, k: nat) returns (w': World)
    requires |w.group.replicas| == u.c.numReplica == 4 && u.c.numFaulty == 1 && Drives(u, id, addr, w)
    requires k < |ops| && Open(w.client, id, addr, ops, results, k) && BothAnswered(w, k + 1, results[k])
    ensures |w'.group.replicas| == u.c.numReplica && Drives(u, id, addr, w') && w'.group == w.group
    ensures Idle(w'.client, id, addr, ops, results, k + 1)
  {
    hide Drives;
    var first, second := Reply(k + 1, results[k], 0, 1), Reply(k + 1, results[k], 0, 2);
    DrivesNext(u, id, addr, w, Deliver(first));
    var w1 := NextWorld(u, w, Deliver(first));
    OneVoter(first);
    TwoVoters(first, second);
    assert w1.client == w.client.(invoke := Some(w.client.invoke.value.(replies := map[1 := first])));
    DrivesNext(u, id, addr, w1, Deliver(second));
    w' := NextWorld(u, w1, Deliver(second));
  }

  lemma OneVoter(first: Reply)
    ensures |Voters(map[1 := first], first.result)| == 1
  {
    assert Voters(map[1 := first], first.result) == {1};
  }

  lemma TwoVoters(first: Reply, second: Reply)
    requires first.result == second.result
    ensures |Voters(map[1 := first][2 := second], second.result)| == 2
  {
    assert Voters(map[1 := first][2 := second], second.result) == {1, 2};
  }

  /** Only the batch's messages and the client's first k requests were put into the network. */
  ghost predicate OnlyOwn(injected: set<Message>, batch: seq<Request>, id: nat, addr: Addr, ops: seq<Payload>, k: nat)
    requires k <= |ops|
  {
    forall m <- injected :: m in Proposing(batch) || exists j: nat :: j < k && m == RequestMsg(Own(id, addr, ops, j))
  }

  /** The first k results come straight from the execution of the batch. */
  lemma {:induction false} FirstRounds(u: Setup, id: nat, addr: Addr, w: World, batch: seq<Request>,
                                       ops: seq<Payload>, results: seq<Payload>, k: nat) returns (w': World)
    requires |w.group.replicas| == u.c.numReplica == 4 && u.c.numFaulty == 1 && Drives(u, id, addr, w)
    requires k < |ops| == |results| && Idle(w.client, id, addr, ops, results, 0)
    requires w.group.injected == Proposing(batch)
    requires forall j: nat | j < k :: BothAnswered(w, j + 1, results[j])
    ensures Drives(u, id, addr, w') && w'.group.replicas == w.group.replicas
    ensures Idle(w'.client, id, addr, ops, results, k) && OnlyOwn(w'.group.injected, batch, id, addr, ops, k)
  {
    hide Drives, Idle, Open;
    if k == 0 {
      w' := w;
    } else {
      w' := FirstRounds(u, id, addr, w, batch, ops, results, k - 1);
      var w1 := PlayInvoke(u, id, addr, w', ops, results, k - 1);
      assert w1.client.addr == w.client.addr == addr by { SameAddress(w.client, w1.client, id, addr, ops, results, k - 1); }
      assert BothAnswered(w, k, results[k - 1]);
      w' := PlayReplies(u, id, addr, w1, ops, results, k - 1);
    }
  }

  lemma SameAddress(client: Client, client': Client, id: nat, addr: Addr, ops: seq<Payload>, results: seq<Payload>, k: nat)
    requires Idle(client, id, addr, ops, results, 0) && Open(client', id, addr, ops, results, k)
    ensures client.addr == client'.addr == addr
  {
  }

  /** A replica that has the reply in its cache sends it to whoever repeats the number. */
  lemma PlayRepeat(u: Setup, id: nat, addr: Addr, w: World, i: nat, q: Request, result: Payload) returns (w': World)
    requires |w.group.replicas| == u.c.numReplica == 4 && Drives(u, id, addr, w) && u.Correct(i)
    requires RequestMsg(q) in w.group.injected && w.group.replicas[i].status == Running
    requires
      var replies := w.group.replicas[i].service.replies;
      q.clientId in replies && replies[q.clientId] == CachedReply(q.seqNum, Some(Reply(q.seqNum, result, 0, i)))
    ensures Drives(u, id, addr, w') && w'.client == w.client
    ensures
      var s := w.group.replicas[i].service;
      w'.group == Put(w.group, i, w.group.replicas[i].(service := s.(sent := s.sent + {(q.clientAddr, Reply(q.seqNum, result, 0, i))})))
  {
    hide Drives;
    var a := Group(Act(i, Recv(RequestMsg(q))));
    DrivesNext(u, id, addr, w, a);
    w' := NextWorld(u, w, a);
  }

  // The foreign request wins

  function Results(c: Config, app: AppState, batch: seq<Request>): (results: seq<Payload>)
    ensures |results| == |batch| && forall p: nat | p < |batch| :: results[p] == ResultAt(c, app, batch, p)
  {
    seq(|batch|, p requires 0 <= p < |batch| => ResultAt(c, app, batch, p))
  }

  /** Both replicas have answered the whole batch and cached the last answer. */
  lemma BatchAnswered(u: Setup, s: System, i: nat, id: nat, addr: Addr, ops: seq<Payload>, q: Request)
    requires i < |s.replicas| && ops != [] && q.seqNum == |ops|
    requires HasExecuted(u, s, i, Batch(id, addr, ops, q))
    ensures
      var batch, service := Batch(id, addr, ops, q), s.replicas[i].service;
      var results := Results(u.c, u.app, batch);
      && (forall p: nat | p < |batch| :: Replied(service, i, batch[p], results[p]))
      && q.clientId in service.replies
      && service.replies[q.clientId] == CachedReply(|ops|, Some(Reply(|ops|, results[|ops| - 1], 0, i)))
  {
    hide ExecuteBatch, ResultAt, ExecutedOne;
    var batch, start := Batch(id, addr, ops, q), Service(u.app, map[], {});
    assert batch[..0] == [] && batch[0..] == batch;
    assert RunApp(u.c, u.app, []) == u.app;
    BatchReplies(u.c, u.app, i, start, batch, 0);
    LastCached(u.c, u.app, i, start, batch, 0);
  }

  lemma RoundAnswered(u: Setup, w: World, id: nat, addr: Addr, ops: seq<Payload>, q: Request, k: nat)
    requires |w.group.replicas| == u.c.numReplica == 4 && k < |ops| && q.seqNum == |ops| && w.client.addr == addr
    requires forall i: nat | 1 <= i <= 2 :: HasExecuted(u, w.group, i, Batch(id, addr, ops, q))
    requires k == |ops| - 1 ==> q.clientAddr == addr
    ensures BothAnswered(w, k + 1, Results(u.c, u.app, Batch(id, addr, ops, q))[k])
  {
    hide HasExecuted;
    var batch := Batch(id, addr, ops, q);
    forall i: nat | 1 <= i <= 2
      ensures (w.client.addr, Reply(k + 1, Results(u.c, u.app, batch)[k], 0, i)) in w.group.replicas[i].service.sent
    {
      BatchAnswered(u, w.group, i, id, addr, ops, q);
      assert Replied(w.group.replicas[i].service, i, batch[k], Results(u.c, u.app, batch)[k]);
    }
  }

  ghost predicate BatchExecuted(s: System, batch: seq<Request>)
    requires |s.replicas| == 4
  {
    forall i: nat | 1 <= i <= 2 :: ExecutedOne(s.replicas[i], i, batch)
  }

  /** The last round: the client asks, and gets what the foreign request was answered. */
  lemma LastRound(u: Setup, id: nat, addr: Addr, w: World, ops: seq<Payload>, q: Request) returns (w': World)
    requires |w.group.replicas| == u.c.numReplica == 4 && u.c.numFaulty == 1 && u.Correct(1) && u.Correct(2)
    requires Drives(u, id, addr, w) && ops != [] && q.seqNum == |ops| && (q.clientId == id || q.clientAddr == addr)
    requires
      var batch := Batch(id, addr, ops, q);
      && (forall i: nat | 1 <= i <= 2 :: HasExecuted(u, w.group, i, batch))
      && OnlyOwn(w.group.injected, batch, id, addr, ops, |ops| - 1)
      && Idle(w.client, id, addr, ops, Results(u.c, u.app, batch), |ops| - 1)
    ensures |w'.group.replicas| == 4 && Drives(u, id, addr, w')
    ensures
      var batch := Batch(id, addr, ops, q);
      && BatchExecuted(w'.group, batch)
      && OnlyOwn(w'.group.injected, batch, id, addr, ops, |ops|)
      && Idle(w'.client, id, addr, ops, Results(u.c, u.app, batch), |ops|)
  {
    hide Drives, HasExecuted, Idle, Open, Batch, Results, InNetwork;
    var batch, k := Batch(id, addr, ops, q), |ops| - 1;
    var results := Results(u.c, u.app, batch);
    forall i: nat | 1 <= i <= 2 ensures w.group.replicas[i].status == Running && ExecutedOne(w.group.replicas[i], i, batch) {
      ExecutedRuns(u, w.group, i, batch);
    }
    w' := PlayInvoke(u, id, addr, w, ops, results, k);
    OpenAddress(w'.client, id, addr, ops, results, k);
    forall i: nat | 1 <= i <= 2 ensures HasExecuted(u, w'.group, i, batch) {
      SameExecuted(u, w.group, w'.group, i, batch);
    }
    if q.clientAddr == addr {
      RoundAnswered(u, w', id, addr, ops, q, k);
    } else {
      var own := Own(id, addr, ops, k);
      BatchAnswered(u, w'.group, 1, id, addr, ops, q);
      BatchAnswered(u, w'.group, 2, id, addr, ops, q);
      w' := PlayRepeat(u, id, addr, w', 1, own, results[k]);
      w' := PlayRepeat(u, id, addr, w', 2, own, results[k]);
      assert BothAnswered(w', k + 1, results[k]);
    }
    w' := PlayReplies(u, id, addr, w', ops, results, k);
  }

  lemma ExecutedRuns(u: Setup, s: System, i: nat, batch: seq<Request>)
    requires i < |s.replicas| && HasExecuted(u, s, i, batch)
    ensures s.replicas[i].status == Running && ExecutedOne(s.replicas[i], i, batch)
  {
  }

  lemma SameExecuted(u: Setup, s: System, s': System, i: nat, batch: seq<Request>)
    requires i < |s.replicas| && HasExecuted(u, s, i, batch) && s'.replicas == s.replicas
    ensures HasExecuted(u, s', i, batch)
  {
  }

  lemma OpenAddress(client: Client, id: nat, addr: Addr, ops: seq<Payload>, results: seq<Payload>, k: nat)
    requires Open(client, id, addr, ops, results, k)
    ensures client.addr == addr
  {
  }

  /** Everything voiced is in the batch or the client's own. */
  lemma VoicedInRun(u: Setup, actions: seq<Action>, batch: seq<Request>, id: nat, addr: Addr, ops: seq<Payload>, q: Request)
    requires u.c.Quorum() >= 2 && !u.Correct(0) && OnlyOwn(After(u, actions).injected, batch, id, addr, ops, |ops|)
    requires Voiced(u, After(u, actions), q)
    ensures q in batch || exists j: nat :: j < |ops| && q == Own(id, addr, ops, j)
  {
    hide Shaped, TokenInvariant, KnownMessage, After;
    RunReliable(u, actions);
    var s := After(u, actions);
    forall i: nat | u.Correct(i) ensures SilentOnPrePrepares(s.replicas[i].out.sent) {
      assert Local(u.c, s.replicas[i]) && s.replicas[i].id == i;
    }
    if InNetwork(u, s, RequestMsg(q)) {
      assert RequestMsg(q) in s.injected;
    } else {
      var p, b :| CarriedBy(u, s, q, p, b);
      assert PrePrepareMsg(p, b) in s.injected;
      assert PrePrepareMsg(p, b) in Proposing(batch);
    }
  }

  lemma HistoryIsBatch(r: Replica, i: nat, batch: seq<Request>)
    requires ExecutedOne(r, i, batch)
    ensures History(r) == batch
  {
    assert Executed(r.log, 1) == Executed(r.log, 0) + r.log[1].requests;
  }

  /** For every foreign request q with the number of the client's last operation and with its
      id or its address there is a run with both checks in which nothing else foreign is
      voiced, two correct replicas execute q in the place of the client's own request, and
      the client hands up the result of q for its own operation. */
  lemma ForeignRequestWins(execute: (AppState, Payload) -> (AppState, Payload), app: AppState,
                           id: nat, addr: Addr, ops: seq<Payload>, q: Request)
    returns (actions: seq<WorldAction>)
    requires ops != [] && q.seqNum == |ops| && (q.clientId == id || q.clientAddr == addr)
    ensures
      var u := FourReplicas(execute, 0, app);
      && u.Valid() && GuardedRun(u, GroupActions(u, id, addr, actions))
      && var w, n := WorldAfter(u, id, addr, actions), |ops|;
      && |w.client.requests| == |w.client.upcalls| == n
      && (forall k: nat | k < n :: w.client.requests[k].1 == Own(id, addr, ops, k))
      && (forall v | Voiced(u, w.group, v) :: v == q || exists k: nat :: k < n && v == w.client.requests[k].1)
      && forall i: nat | 1 <= i <= 2 ::
           && |History(w.group.replicas[i])| == n && History(w.group.replicas[i])[n - 1] == q
           && w.client.upcalls[n - 1] == Completed(n, ResultAt(u.c, u.app, History(w.group.replicas[i]), n - 1))
  {
    hide HasExecuted, Voiced, ResultAt, GuardedRun, WorldAfter, GroupActions, After, Reaches, ExecutedOne;
    var u := FourReplicas(execute, 0, app);
    var batch, n := Batch(id, addr, ops, q), |ops|;
    var results := Results(u.c, u.app, batch);
    var s := GroupExecutes(u, batch, execute, app);
    DrivesFirst(u, id, addr, s);
    var w := World(s, NewClient(id, addr));
    forall j: nat | j < n - 1 ensures BothAnswered(w, j + 1, results[j]) {
      RoundAnswered(u, w, id, addr, ops, q, j);
    }
    w := FirstRounds(u, id, addr, w, batch, ops, results, n - 1);
    forall i: nat | 1 <= i <= 2 ensures HasExecuted(u, w.group, i, batch) {
      SameExecuted(u, s, w.group, i, batch);
    }
    w := LastRound(u, id, addr, w, ops, q);
    actions :| WorldAfter(u, id, addr, actions) == w && GuardedRun(u, GroupActions(u, id, addr, actions));
    GroupRunsAlone(u, id, addr, actions);
    forall v | Voiced(u, w.group, v) ensures v == q || exists k: nat :: k < n && v == w.client.requests[k].1 {
      VoicedInRun(u, GroupActions(u, id, addr, actions), batch, id, addr, ops, v);
      ThatOneOrOwn(w.client, id, addr, ops, q, v);
    }
    HistoryIsBatch(w.group.replicas[1], 1, batch);
    HistoryIsBatch(w.group.replicas[2], 2, batch);
  }

  lemma ThatOneOrOwn(client: Client, id: nat, addr: Addr, ops: seq<Payload>, q: Request, v: Request)
    requires ops != [] && |client.requests| == |ops|
    requires forall k: nat | k < |ops| :: client.requests[k].1 == Own(id, addr, ops, k)
    requires v in Batch(id, addr, ops, q) || exists j: nat :: j < |ops| && v == Own(id, addr, ops, j)
    ensures v == q || exists k: nat :: k < |ops| && v == client.requests[k].1
  {
    var batch := Batch(id, addr, ops, q);
    var j: nat :| j < |ops| && (v == batch[j] || v == Own(id, addr, ops, j));
    if v != q {
      assert v == client.requests[j].1;
    }
  }
}
