/** Why two votes are too few for a quorum: the vote verified late completes it again. */
module PbftSmallGroup {
  import opened PbftTypes
  import opened PbftSpec
  import opened PbftLocal
  import opened PbftSystem
  import opened PbftMacros
  import opened PbftStages

  /** Two replicas, the primary faulty. */
  function TwoReplicas(execute: (AppState, Payload) -> (AppState, Payload), app: AppState): Setup {
    Setup(Config(2, 0, execute), {0}, app)
  }

  lemma PlayInject(u: Setup, s: System, m: Message)
    requires |s.replicas| == u.c.numReplica && Reaches(u, s, false, false) && Forgeable(u, s, m)
    ensures Reaches(u, s.(injected := s.injected + {m}), false, false)
  {
    hide Forgeable;
    ReachesNext(u, s, Inject(m), false, false);
  }

  lemma PlayEvent(u: Setup, s: System, r: Replica, e: Event)
    requires |s.replicas| == u.c.numReplica == 2 && u.Correct(1) && Reaches(u, s, false, false)
    requires s.replicas[1] == r && Enabled(u.c, r, e) && (e.Recv? ==> e.message in s.injected)
    ensures Reaches(u, s.(replicas := s.replicas[1 := Handle(u.c, r, e)]), false, false)
  {
    hide Handle, Enabled, Reaches;
    ReachesNext(u, s, Act(1, e), false, false);
  }

  /** The five events at replica 1: an early prepare of the primary, then its pre-prepare,
      the own prepare, and last the answer for the early one. */
  function Events(batch: seq<Request>): seq<Event> {
    var p, d := Proposal(1, batch), Sha256(batch);
    [Recv(VoteMsg(Preparing, VoteBy(0, d))), Recv(PrePrepareMsg(p, batch)), Done(VerifyPrePrepare(p, batch)),
     Done(SignVote(Preparing, Vote(0, 1, d, 1))), Done(VerifyVote(Preparing, VoteBy(0, d)))]
  }

  function Accepting(app: AppState, batch: seq<Request>): Replica {
    var r := NewReplica(1, app);
    var p, d := Proposal(1, batch), Sha256(batch);
    r.(prepares := Ballots(map[], map[1 := []]), log := [EmptyEntry, Proposed(batch)],
       out := Outputs({}, multiset{VerifyVote(Preparing, VoteBy(0, d)), SignVote(Preparing, Vote(0, 1, d, 1))}))
  }

  /** The first three events. */
  lemma EarlyPrepare(c: Config, app: AppState, batch: seq<Request>)
    requires c.numReplica == 2 && c.numFaulty == 0
    ensures
      var r, es := NewReplica(1, app), Events(batch);
      && Enabled(c, r, es[0])
      && var r1 := Handle(c, r, es[0]);
      && Enabled(c, r1, es[1])
      && var r2 := Handle(c, r1, es[1]);
      && Enabled(c, r2, es[2])
      && Handle(c, r2, es[2]) == Accepting(app, batch)
  {
    var r, es := NewReplica(1, app), Events(batch);
    var p, d := Proposal(1, batch), Sha256(batch);
    var r1 := Handle(c, r, es[0]);
    assert r1 == r.(prepares := Ballots(map[], map[1 := []]), out := Outputs({}, multiset{VerifyVote(Preparing, VoteBy(0, d))}));
    var r2 := Handle(c, r1, es[1]);
    assert Answer(r2, VerifyPrePrepare(p, batch)) == r1;
    assert Grow([], 1) == [EmptyEntry, EmptyEntry];
    assert [EmptyEntry, EmptyEntry][1 := Proposed(batch)] == [EmptyEntry, Proposed(batch)];
  }

  /** The last two: the own prepare is enough to finish the slot, and the late one finds it
      finished but its own table full again. */
  lemma LatePrepareFails(c: Config, app: AppState, batch: seq<Request>)
    requires c.numReplica == 2 && c.numFaulty == 0
    ensures
      var r, es := Accepting(app, batch), Events(batch);
      && Enabled(c, r, es[3])
      && var r1 := Handle(c, r, es[3]);
      && Enabled(c, r1, es[4])
      && Handle(c, r1, es[4]).status == PreparedTwice
  {
    var r, es := Accepting(app, batch), Events(batch);
    var d := Sha256(batch);
    var r1 := Handle(c, r, es[3]);
    var own: Table := map[1 := VoteBy(1, d)];
    assert |own| == 1;
    assert r1.log[1].prepares == own && r1.prepares.quorums == map[] && r1.status == Running;
    assert VerifyVote(Preparing, VoteBy(0, d)) in r1.out.tasks;
    var late: Table := map[0 := VoteBy(0, d)];
    assert |late| == 1 && 1 in own;
    assert Counted(Answer(r1, es[4].task), Preparing, VoteBy(0, d)) == late;
  }

  /** Replica 1 after the first n events. */
  function Later(c: Config, r: Replica, es: seq<Event>, n: nat): Replica
    requires n <= |es|
  {
    if n == 0 then r
    else
      var before := Later(c, r, es, n - 1);
      if Enabled(c, before, es[n - 1]) then Handle(c, before, es[n - 1]) else before
  }

  lemma {:induction false} PlayEvents(u: Setup, s: System, r: Replica, es: seq<Event>, n: nat)
    requires |s.replicas| == u.c.numReplica == 2 && u.Correct(1) && Reaches(u, s, false, false)
    requires s.replicas[1] == r && n <= |es| && forall e <- es :: e.Recv? ==> e.message in s.injected
    ensures Reaches(u, s.(replicas := s.replicas[1 := Later(u.c, r, es, n)]), false, false)
  {
    hide Handle, Enabled, Reaches;
    if n == 0 {
      assert s.replicas[1 := r] == s.replicas;
    } else {
      PlayEvents(u, s, r, es, n - 1);
      var before := Later(u.c, r, es, n - 1);
      var s1 := s.(replicas := s.replicas[1 := before]);
      if Enabled(u.c, before, es[n - 1]) {
        assert es[n - 1] in es;
        PlayEvent(u, s1, before, es[n - 1]);
        assert s1.replicas[1 := Later(u.c, r, es, n)] == s.replicas[1 := Later(u.c, r, es, n)];
      }
    }
  }

  lemma FiveEvents(c: Config, app: AppState, batch: seq<Request>)
    requires c.numReplica == 2 && c.numFaulty == 0
    ensures Later(c, NewReplica(1, app), Events(batch), 5).status == PreparedTwice
  {
    hide Handle, Enabled, Accepting;
    EarlyPrepare(c, app, batch);
    LatePrepareFails(c, app, batch);
    var r, es := NewReplica(1, app), Events(batch);
    assert Later(c, r, es, 1) == Handle(c, r, es[0]);
    assert Later(c, r, es, 2) == Handle(c, Later(c, r, es, 1), es[1]);
    assert Later(c, r, es, 3) == Accepting(app, batch);
    assert Later(c, r, es, 4) == Handle(c, Accepting(app, batch), es[3]);
  }

  /** With n - f = 2 a faulty primary makes the assertion on finished prepares fail: the
      exception is a real one. */
  lemma TwoVotesAreTooFew(execute: (AppState, Payload) -> (AppState, Payload), app: AppState, batch: seq<Request>)
    returns (actions: seq<Action>)
    ensures
      var u := TwoReplicas(execute, app);
      && u.c.Quorum() == 2 && u.Correct(1)
      && After(u, actions).replicas[1].status == PreparedTwice
  {
    hide Handle, Enabled, RunKeeps, Later, After;
    var u := TwoReplicas(execute, app);
    var p, d, es := Proposal(1, batch), Sha256(batch), Events(batch);
    ReachesStart(u, false, false);
    var s0 := Start(u);
    PlayInject(u, s0, VoteMsg(Preparing, VoteBy(0, d)));
    var s1 := System(s0.replicas, s0.injected + {VoteMsg(Preparing, VoteBy(0, d))});
    PlayInject(u, s1, PrePrepareMsg(p, batch));
    var s2 := System(s0.replicas, s1.injected + {PrePrepareMsg(p, batch)});
    PlayEvents(u, s2, NewReplica(1, app), es, 5);
    FiveEvents(u.c, app, batch);
    var s3 := s2.(replicas := s2.replicas[1 := Later(u.c, NewReplica(1, app), es, 5)]);
    actions :| After(u, actions) == s3 && RunKeeps(u, actions, false, false);
  }
}
