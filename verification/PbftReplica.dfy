/** A PBFT replica as an object whose handlers update its fields in place.  Every method
    is proved to do to the fields what the specification function of the same handler
    does to the replica's state. */
module PbftReplica {
  import opened Wrappers
  import opened PbftTypes
  import Spec = PbftSpec

  lemma ExecuteNext(c: Config, r: Spec.Replica)
    requires Spec.NextCommitted(r)
    ensures
      var service := Spec.ExecuteBatch(c, r.id, r.viewNum, r.service, r.log[r.commitNum + 1].requests);
      Spec.ExecuteCommitted(c, r) == Spec.ExecuteCommitted(c, r.(commitNum := r.commitNum + 1, service := service))
  {
  }

  /** The three ways out of counting a prepare. */
  lemma PrepareCases(c: Config, r: Spec.Replica, v: SignedVote)
    ensures
      var k, votes := v.inner.opNum, Spec.Counted(r, Preparing, v);
      var counted := Spec.Ballots(r.prepares.quorums[k := votes], r.prepares.pending);
      && (|votes| + 1 < c.Quorum() || k >= |r.log| ==> Spec.InsertPrepare(c, r, v) == r.(prepares := counted))
      && (|votes| + 1 >= c.Quorum() && k < |r.log| && r.log[k].prepares != map[] ==>
            Spec.InsertPrepare(c, r, v) == r.(prepares := counted, status := PreparedTwice))
      && (|votes| + 1 >= c.Quorum() && k < |r.log| && r.log[k].prepares == map[] ==>
            Spec.InsertPrepare(c, r, v) ==
              r.(prepares := Spec.Ballots(r.prepares.quorums - {k}, r.prepares.pending), log := r.log[k := r.log[k].(prepares := votes)],
                 out := Spec.Outputs(r.out.sent, r.out.tasks + multiset{SignVote(Committing, Vote(r.viewNum, k, v.inner.digest, r.id))})))
  {
  }

  /** The four ways out of counting a commit. */
  lemma CommitCases(c: Config, r: Spec.Replica, v: SignedVote)
    ensures
      var k, votes := v.inner.opNum, Spec.Counted(r, Committing, v);
      var counted := Spec.Ballots(r.commits.quorums[k := votes], r.commits.pending);
      && (|votes| < c.Quorum() || k >= |r.log| ==> Spec.InsertCommit(c, r, v) == r.(commits := counted))
      && (|votes| >= c.Quorum() && k < |r.log| && r.log[k].commits != map[] ==>
            Spec.InsertCommit(c, r, v) == r.(commits := counted, status := AssertionFailed))
      && (|votes| >= c.Quorum() && k < |r.log| && r.log[k].commits == map[] && r.log[k].prepares == map[] ==>
            Spec.InsertCommit(c, r, v) == r.(commits := counted))
      && (|votes| >= c.Quorum() && k < |r.log| && r.log[k].commits == map[] && r.log[k].prepares != map[] ==>
            Spec.InsertCommit(c, r, v) ==
              Spec.CloseBatches(c, Spec.ExecuteCommitted(c,
                r.(commits := Spec.Ballots(r.commits.quorums - {k}, r.commits.pending), log := r.log[k := r.log[k].(commits := votes)]))))
  {
    hide Spec.CloseBatches, Spec.ExecuteCommitted, Spec.Counted;
  }

  lemma ExecuteDone(c: Config, r: Spec.Replica)
    requires !Spec.NextCommitted(r)
    ensures Spec.ExecuteCommitted(c, r) == r
  {
  }

  class Replica {
    const c: Config
    const id: nat
    var replies: map<nat, CachedReply>
    var requests: seq<Request>
    var viewNum: nat
    var opNum: nat
    var log: seq<LogEntry>
    var prepareQuorums: map<nat, Spec.Table>
    var commitQuorums: map<nat, Spec.Table>
    var commitNum: nat
    var app: AppState
    var pendingPrepares: map<nat, seq<SignedVote>>
    var pendingCommits: map<nat, seq<SignedVote>>
    // What was handed to the replica network, the client network and the crypto worker
    var sent: set<Message>
    var replied: set<(Addr, Reply)>
    var tasks: multiset<Task>
    var status: Status

    function Service(): Spec.Service
      reads this
    {
      Spec.Service(app, replies, replied)
    }

    /** The fields as one value. */
    function State(): Spec.Replica
      reads this
    {
      Spec.Replica(id, viewNum, opNum, commitNum, requests, log, Spec.Ballots(prepareQuorums, pendingPrepares),
                   Spec.Ballots(commitQuorums, pendingCommits), Service(), Spec.Outputs(sent, tasks), status)
    }

    constructor (c: Config, id: nat, app: AppState)
      ensures this.c == c && State() == Spec.NewReplica(id, app)
    {
      this.c, this.id, this.app := c, id, app;
      replies, requests, log := map[], [], [];
      viewNum, opNum, commitNum := 0, 0, 0;
      prepareQuorums, commitQuorums := map[], map[];
      pendingPrepares, pendingCommits := map[], map[];
      sent, replied, tasks, status := {}, {}, multiset{}, Running;
    }

    predicate IsPrimary()
      reads this
      ensures IsPrimary() <==> Spec.IsPrimary(c, State())
    {
      c.numReplica > 0 && id % c.numReplica == viewNum
    }

    // Requests

    method OnRequest(request: Request)
      requires status == Running
      modifies this
      ensures State() == Spec.OnRequest(c, old(State()), request)
    {
      if request.clientId in replies {
        var cached := replies[request.clientId];
        if cached.seqNum > request.seqNum {
          return;
        }
        if cached.seqNum == request.seqNum {
          if cached.reply.Some? {
            replied := replied + {(request.clientAddr, cached.reply.value)};
          }
          return;
        }
      }
      if !IsPrimary() {
        status := Unimplemented;
        return;
      }
      replies := replies[request.clientId := CachedReply(request.seqNum, None)];
      requests := requests + [request];
      if opNum < commitNum + Spec.CONCURRENT_PRE_PREPARES {
        CloseBatch();
      }
    }

    method CloseBatch()
      requires status == Running
      modifies `status, `opNum, `requests, `tasks
      ensures State() == Spec.CloseBatch(c, old(State()))
    {
      if !IsPrimary() || requests == [] {
        status := AssertionFailed;
        return;
      }
      opNum := opNum + 1;
      var size := if |requests| < Spec.MAX_BATCH then |requests| else Spec.MAX_BATCH;
      var batch := requests[..size];
      requests := requests[size..];
      tasks := tasks + multiset{SignPrePrepare(viewNum, opNum, batch)};
    }

    // Pre-prepares

    method Resize(k: nat)
      modifies `log
      ensures k < |log| && log == Spec.Grow(old(log), k)
    {
      if k >= |log| {
        log := log + seq(k + 1 - |log|, _ => EmptyEntry);
      }
    }

    method OnSignedPrePrepare(p: SignedPrePrepare, batch: seq<Request>)
      requires status == Running
      modifies this
      ensures State() == Spec.OnSignedPrePrepare(old(State()), p, batch)
    {
      if p.inner.viewNum != viewNum {
        return;
      }
      var k: nat := p.inner.opNum;
      Resize(k);
      var replaced := log[k].prePrepare;
      log := log[k := log[k].(prePrepare := Some(p))];
      if replaced.Some? {
        status := AssertionFailed;
        return;
      }
      log := log[k := log[k].(viewNum := viewNum)];
      log := log[k := log[k].(requests := batch)];
      sent := sent + {PrePrepareMsg(p, batch)};
    }

    method OnRecvPrePrepare(p: SignedPrePrepare, batch: seq<Request>)
      requires status == Running
      modifies `status, `tasks
      ensures State() == Spec.OnRecvPrePrepare(old(State()), p, batch)
    {
      if p.inner.viewNum != viewNum {
        if p.inner.viewNum > viewNum {
          status := Unimplemented;
        }
        return;
      }
      if p.inner.opNum < |log| && log[p.inner.opNum].prePrepare.Some? {
        return;
      }
      tasks := tasks + multiset{VerifyPrePrepare(p, batch)};
    }

    method OnVerifiedPrePrepare(p: SignedPrePrepare, batch: seq<Request>)
      requires status == Running
      modifies `log, `tasks, `prepareQuorums, `commitQuorums
      ensures State() == Spec.OnVerifiedPrePrepare(old(State()), p, batch)
    {
      hide Spec.Retain, Spec.Grow;
      if p.inner.viewNum != viewNum {
        return;
      }
      var k: nat := p.inner.opNum;
      Resize(k);
      if log[k].prePrepare.Some? {
        return;
      }
      Accept(k, p, batch);
      tasks := tasks + multiset{SignVote(Preparing, Vote(viewNum, k, p.inner.digest, id))};
      ghost var noted := State();
      RetainVotes(k, p.inner.digest);
      assert State() == noted.(prepares := noted.prepares.(quorums := prepareQuorums), commits := noted.commits.(quorums := commitQuorums));
    }

    method Accept(k: nat, p: SignedPrePrepare, batch: seq<Request>)
      requires k < |log|
      modifies `log
      ensures log == old(log)[k := old(log)[k].(prePrepare := Some(p), viewNum := viewNum, requests := batch)]
    {
      log := log[k := log[k].(prePrepare := Some(p))];
      log := log[k := log[k].(viewNum := viewNum)];
      log := log[k := log[k].(requests := batch)];
    }

    method RetainVotes(k: nat, digest: Digest)
      modifies `prepareQuorums, `commitQuorums
      ensures prepareQuorums == Spec.Retain(old(prepareQuorums), k, digest)
      ensures commitQuorums == Spec.Retain(old(commitQuorums), k, digest)
    {
      if k in prepareQuorums {
        var votes := prepareQuorums[k];
        prepareQuorums := prepareQuorums[k := map i | i in votes && votes[i].inner.digest == digest :: votes[i]];
      }
      if k in commitQuorums {
        var votes := commitQuorums[k];
        commitQuorums := commitQuorums[k := map i | i in votes && votes[i].inner.digest == digest :: votes[i]];
      }
    }

    // Prepares

    method OnSignedPrepare(v: SignedVote)
      requires status == Running
      modifies this
      ensures State() == Spec.OnSignedVote(c, old(State()), Preparing, v)
    {
      if v.inner.viewNum != viewNum {
        return;
      }
      sent := sent + {VoteMsg(Preparing, v)};
      if v.inner.opNum >= |log| {
        status := AssertionFailed;
        return;
      }
      if log[v.inner.opNum].prepares == map[] {
        InsertPrepare(v);
      }
    }

    method OnRecvPrepare(v: SignedVote)
      requires status == Running
      modifies this
      ensures State() == Spec.OnRecvVote(old(State()), Preparing, v)
    {
      var k: nat := v.inner.opNum;
      if k in pendingPrepares {
        pendingPrepares := pendingPrepares[k := pendingPrepares[k] + [v]];
        return;
      }
      var submitted := SubmitPrepare(v);
      if submitted {
        pendingPrepares := pendingPrepares[k := []];
      }
    }

    method SubmitPrepare(v: SignedVote) returns (submitted: bool)
      requires status == Running
      modifies `status, `tasks
      ensures State() == Spec.SubmitVote(old(State()), Preparing, v)
      ensures submitted == Spec.Submittable(old(State()), Preparing, v.inner)
    {
      if v.inner.viewNum != viewNum {
        if v.inner.viewNum > viewNum {
          status := Unimplemented;
        }
        return false;
      }
      if v.inner.opNum < |log| {
        var entry := log[v.inner.opNum];
        if entry.prepares != map[] {
          return false;
        }
        if entry.prePrepare.Some? && v.inner.digest != entry.prePrepare.value.inner.digest {
          return false;
        }
      }
      tasks := tasks + multiset{VerifyVote(Preparing, v)};
      return true;
    }

    method OnVerifiedPrepare(v: SignedVote)
      requires status == Running
      modifies this
      ensures State() == Spec.OnVerifiedVote(c, old(State()), Preparing, v)
    {
      if v.inner.viewNum != viewNum {
        return;
      }
      var k: nat := v.inner.opNum;
      InsertPrepare(v);
      if status != Running {
        return;
      }
      ghost var goal := Spec.Drain(State(), Preparing, k);
      while k in pendingPrepares
        invariant status == Running
        invariant Spec.Drain(State(), Preparing, k) == goal
        decreases if k in pendingPrepares then 1 + |pendingPrepares[k]| else 0
      {
        if pendingPrepares[k] == [] {
          pendingPrepares := pendingPrepares - {k};
          break;
        }
        var last := |pendingPrepares[k]| - 1;
        var next := pendingPrepares[k][last];
        pendingPrepares := pendingPrepares[k := pendingPrepares[k][..last]];
        var submitted := SubmitPrepare(next);
        if submitted || status != Running {
          assert State() == goal;
          return;
        }
      }
    }

    method CountPrepare(v: SignedVote) returns (votes: Spec.Table)
      modifies `prepareQuorums
      ensures votes == Spec.Counted(old(State()), Preparing, v)
      ensures prepareQuorums == old(prepareQuorums)[v.inner.opNum := votes]
    {
      var k: nat := v.inner.opNum;
      if k !in prepareQuorums {
        prepareQuorums := prepareQuorums[k := map[]];
      }
      votes := prepareQuorums[k];
      votes := votes[v.inner.replicaId := v];
      prepareQuorums := prepareQuorums[k := votes];
      assert prepareQuorums == old(prepareQuorums)[k := votes];
    }

    /** The quorum moves from the open table to the log. */
    method ClosePrepares(k: nat, votes: Spec.Table)
      requires k < |log|
      modifies `log, `prepareQuorums
      ensures log == old(log)[k := old(log)[k].(prepares := votes)]
      ensures prepareQuorums == old(prepareQuorums) - {k}
    {
      log := log[k := log[k].(prepares := votes)];
      prepareQuorums := prepareQuorums - {k};
    }

    method InsertPrepare(v: SignedVote)
      requires status == Running
      modifies `status, `log, `prepareQuorums, `tasks
      ensures State() == Spec.InsertPrepare(c, old(State()), v)
    {
      hide Spec.Counted, Spec.InsertPrepare;
      PrepareCases(c, State(), v);
      var k: nat := v.inner.opNum;
      var votes := CountPrepare(v);
      if |votes| + 1 < c.Quorum() || k >= |log| {
        // the quorum or the slot is not there yet
      } else if log[k].prepares != map[] {
        status := PreparedTwice;
      } else {
        ClosePrepares(k, votes);
        assert prepareQuorums == old(prepareQuorums) - {k};
        assert State() == old(State()).(prepares := Spec.Ballots(prepareQuorums, pendingPrepares), log := log);
        tasks := tasks + multiset{SignVote(Committing, Vote(viewNum, k, v.inner.digest, id))};
      }
    }

    // Commits

    method OnSignedCommit(v: SignedVote)
      requires status == Running
      modifies this
      ensures State() == Spec.OnSignedVote(c, old(State()), Committing, v)
    {
      if v.inner.viewNum != viewNum {
        return;
      }
      sent := sent + {VoteMsg(Committing, v)};
      if v.inner.opNum >= |log| {
        status := AssertionFailed;
        return;
      }
      if log[v.inner.opNum].commits == map[] {
        InsertCommit(v);
      }
    }

    method OnRecvCommit(v: SignedVote)
      requires status == Running
      modifies this
      ensures State() == Spec.OnRecvVote(old(State()), Committing, v)
    {
      var k: nat := v.inner.opNum;
      if k in pendingCommits {
        pendingCommits := pendingCommits[k := pendingCommits[k] + [v]];
        return;
      }
      var submitted := SubmitCommit(v);
      if submitted {
        pendingCommits := pendingCommits[k := []];
      }
    }

    method SubmitCommit(v: SignedVote) returns (submitted: bool)
      requires status == Running
      modifies `status, `tasks
      ensures State() == Spec.SubmitVote(old(State()), Committing, v)
      ensures submitted == Spec.Submittable(old(State()), Committing, v.inner)
    {
      if v.inner.viewNum != viewNum {
        if v.inner.viewNum > viewNum {
          status := Unimplemented;
        }
        return false;
      }
      if v.inner.opNum < |log| {
        var entry := log[v.inner.opNum];
        if entry.commits != map[] {
          return false;
        }
        if entry.prePrepare.Some? && v.inner.digest != entry.prePrepare.value.inner.digest {
          return false;
        }
      }
      tasks := tasks + multiset{VerifyVote(Committing, v)};
      return true;
    }

    method OnVerifiedCommit(v: SignedVote)
      requires status == Running
      modifies this
      ensures State() == Spec.OnVerifiedVote(c, old(State()), Committing, v)
    {
      if v.inner.viewNum != viewNum {
        return;
      }
      var k: nat := v.inner.opNum;
      InsertCommit(v);
      if status != Running {
        return;
      }
      ghost var goal := Spec.Drain(State(), Committing, k);
      while k in pendingCommits
        invariant status == Running
        invariant Spec.Drain(State(), Committing, k) == goal
        decreases if k in pendingCommits then 1 + |pendingCommits[k]| else 0
      {
        if pendingCommits[k] == [] {
          pendingCommits := pendingCommits - {k};
          break;
        }
        var last := |pendingCommits[k]| - 1;
        var next := pendingCommits[k][last];
        pendingCommits := pendingCommits[k := pendingCommits[k][..last]];
        var submitted := SubmitCommit(next);
        if submitted || status != Running {
          assert State() == goal;
          return;
        }
      }
    }

    method CountCommit(v: SignedVote) returns (votes: Spec.Table)
      modifies `commitQuorums
      ensures votes == Spec.Counted(old(State()), Committing, v)
      ensures commitQuorums == old(commitQuorums)[v.inner.opNum := votes]
    {
      var k: nat := v.inner.opNum;
      if k !in commitQuorums {
        commitQuorums := commitQuorums[k := map[]];
      }
      votes := commitQuorums[k];
      votes := votes[v.inner.replicaId := v];
      commitQuorums := commitQuorums[k := votes];
      assert commitQuorums == old(commitQuorums)[k := votes];
    }

    /** The quorum moves from the open table to the log. */
    method CloseCommits(k: nat, votes: Spec.Table)
      requires k < |log|
      modifies `log, `commitQuorums
      ensures log == old(log)[k := old(log)[k].(commits := votes)]
      ensures commitQuorums == old(commitQuorums) - {k}
    {
      log := log[k := log[k].(commits := votes)];
      commitQuorums := commitQuorums - {k};
    }

    method InsertCommit(v: SignedVote)
      requires status == Running
      modifies `status, `log, `commitQuorums, `tasks, `app, `replies, `replied, `commitNum, `opNum, `requests
      ensures State() == Spec.InsertCommit(c, old(State()), v)
    {
      hide Spec.ExecuteCommitted, Spec.CloseBatches, Spec.Counted, Spec.InsertCommit;
      CommitCases(c, State(), v);
      var k: nat := v.inner.opNum;
      var votes := CountCommit(v);
      if |votes| < c.Quorum() || k >= |log| {
        // the quorum or the slot is not there yet
      } else if log[k].commits != map[] {
        status := AssertionFailed;
      } else if log[k].prepares != map[] {
        CloseCommits(k, votes);
        assert commitQuorums == old(commitQuorums) - {k};
        ghost var closed := State();
        assert closed == old(State()).(commits := Spec.Ballots(commitQuorums, pendingCommits), log := log);
        ExecuteCommitted();
        CloseBatches();
        assert State() == Spec.CloseBatches(c, Spec.ExecuteCommitted(c, closed));
      }
    }

    /** Execute slots in order up to the first one that is not committed. */
    method ExecuteCommitted()
      requires status == Running
      modifies `app, `replies, `replied, `commitNum
      ensures State() == Spec.ExecuteCommitted(c, old(State()))
    {
      hide Spec.ExecuteBatch, Spec.ExecuteCommitted;
      while commitNum + 1 < |log| && log[commitNum + 1].commits != map[]
        invariant Spec.ExecuteCommitted(c, State()) == Spec.ExecuteCommitted(c, old(State()))
        decreases |log| - commitNum
      {
        ghost var before := State();
        ExecuteNext(c, before);
        commitNum := commitNum + 1;
        ExecuteBatch(log[commitNum].requests);
        assert State() == before.(commitNum := commitNum, service := Service());
      }
      ExecuteDone(c, State());
    }

    method ExecuteBatch(batch: seq<Request>)
      modifies `app, `replies, `replied
      ensures Service() == Spec.ExecuteBatch(c, id, viewNum, old(Service()), batch)
    {
      var n := 0;
      while n < |batch|
        invariant n <= |batch|
        invariant Spec.ExecuteBatch(c, id, viewNum, Service(), batch[n..])
               == Spec.ExecuteBatch(c, id, viewNum, old(Service()), batch)
      {
        var request := batch[n];
        assert batch[n..][1..] == batch[n + 1..];
        var (next, result) := c.execute(app, request.op);
        app := next;
        var reply := Reply(request.seqNum, result, viewNum, id);
        if request.clientId !in replies || replies[request.clientId].seqNum <= request.seqNum {
          replies := replies[request.clientId := CachedReply(request.seqNum, Some(reply))];
        }
        replied := replied + {(request.clientAddr, reply)};
        n := n + 1;
      }
    }

    method CloseBatches()
      requires status == Running
      modifies `status, `opNum, `requests, `tasks
      ensures State() == Spec.CloseBatches(c, old(State()))
    {
      while IsPrimary() && requests != [] && opNum <= commitNum + Spec.CONCURRENT_PRE_PREPARES
        invariant status == Running
        invariant Spec.CloseBatches(c, State()) == Spec.CloseBatches(c, old(State()))
        decreases |requests|
      {
        CloseBatch();
      }
    }

    /** One event: what arrives is dispatched to its handler. */
    method Handle(e: Event)
      requires Spec.Enabled(c, State(), e)
      modifies this
      ensures State() == Spec.Handle(c, old(State()), e)
    {
      match e
      case Recv(RequestMsg(request)) => OnRequest(request);
      case Recv(PrePrepareMsg(p, batch)) => OnRecvPrePrepare(p, batch);
      case Recv(VoteMsg(Preparing, v)) => OnRecvPrepare(v);
      case Recv(VoteMsg(Committing, v)) => OnRecvCommit(v);
      case Done(t) =>
        tasks := tasks - multiset{t};
        assert State() == Spec.Answer(old(State()), t);
        match t {
          case SignPrePrepare(w, k, batch) =>
            OnSignedPrePrepare(SignedPrePrepare(PrePrepare(w, k, Sha256(batch)), id), batch);
          case VerifyPrePrepare(p, batch) => OnVerifiedPrePrepare(p, batch);
          case SignVote(Preparing, v) => OnSignedPrepare(SignedVote(v, id));
          case SignVote(Committing, v) => OnSignedCommit(SignedVote(v, id));
          case VerifyVote(Preparing, v) => OnVerifiedPrepare(v);
          case VerifyVote(Committing, v) => OnVerifiedCommit(v);
        }
    }
  }
}
