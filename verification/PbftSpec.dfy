/** What each handler of a PBFT replica does, as a function of the replica's state.
    The messages a replica sends and the tasks it submits are part of the state. */
module PbftSpec {
  import opened Wrappers
  import opened PbftTypes

  type Table = map<nat, SignedVote>

  /** The open vote tables of one round, and per slot the votes waiting while another
      one is being verified. */
  datatype Ballots = Ballots(quorums: map<nat, Table>, pending: map<nat, seq<SignedVote>>)

  /** The replicated application with its reply cache and the replies it sent. */
  datatype Service = Service(app: AppState, replies: map<nat, CachedReply>, sent: set<(Addr, Reply)>)

  /** Everything broadcast so far and the crypto worker's unanswered tasks. */
  datatype Outputs = Outputs(sent: set<Message>, tasks: multiset<Task>)

  datatype Replica = Replica(
    id: nat,
    viewNum: nat,
    opNum: nat,
    commitNum: nat,
    requests: seq<Request>,
    log: seq<LogEntry>,
    prepares: Ballots,
    commits: Ballots,
    service: Service,
    out: Outputs,
    status: Status)
  {
    function Ballots(round: Round): Ballots {
      if round.Preparing? then prepares else commits
    }
  }

  const CONCURRENT_PRE_PREPARES: nat := 1
  const MAX_BATCH: nat := 100

  const NoBallots := Ballots(map[], map[])

  function NewReplica(id: nat, app: AppState): Replica {
    Replica(id, 0, 0, 0, [], [], NoBallots, NoBallots, Service(app, map[], {}), Outputs({}, multiset{}), Running)
  }

  predicate IsPrimary(c: Config, r: Replica) {
    c.numReplica > 0 && r.id % c.numReplica == r.viewNum
  }

  function SetBallots(r: Replica, round: Round, b: Ballots): Replica {
    if round.Preparing? then r.(prepares := b) else r.(commits := b)
  }

  function Submit(r: Replica, t: Task): Replica {
    r.(out := r.out.(tasks := r.out.tasks + multiset{t}))
  }

  function Broadcast(r: Replica, m: Message): Replica {
    r.(out := r.out.(sent := r.out.sent + {m}))
  }

  function Stop(r: Replica, why: Status): Replica {
    r.(status := why)
  }

  function Grow(log: seq<LogEntry>, opNum: nat): seq<LogEntry> {
    if opNum < |log| then log else log + seq(opNum + 1 - |log|, _ => EmptyEntry)
  }

  function TableOf(quorums: map<nat, Table>, opNum: nat): Table {
    if opNum in quorums then quorums[opNum] else map[]
  }

  /** The filter run over the early votes of a slot when its pre-prepare arrives. */
  function Retain(quorums: map<nat, Table>, opNum: nat, digest: Digest): map<nat, Table> {
    if opNum in quorums then
      var votes := quorums[opNum];
      quorums[opNum := map i | i in votes && votes[i].inner.digest == digest :: votes[i]]
    else
      quorums
  }

  // Requests and batches

  function CloseBatch(c: Config, r: Replica): Replica {
    if !IsPrimary(c, r) || r.requests == [] then
      Stop(r, AssertionFailed)
    else
      var size := if |r.requests| < MAX_BATCH then |r.requests| else MAX_BATCH;
      Submit(r.(opNum := r.opNum + 1, requests := r.requests[size..]),
             SignPrePrepare(r.viewNum, r.opNum + 1, r.requests[..size]))
  }

  function CloseBatches(c: Config, r: Replica): (r': Replica)
    ensures r' == r.(opNum := r'.opNum, requests := r'.requests, out := r.out.(tasks := r'.out.tasks))
    decreases |r.requests|
  {
    if IsPrimary(c, r) && r.requests != [] && r.opNum <= r.commitNum + CONCURRENT_PRE_PREPARES then
      CloseBatches(c, CloseBatch(c, r))
    else
      r
  }

  /** The request is newer than every request known of its client. */
  predicate Fresh(replies: map<nat, CachedReply>, request: Request) {
    request.clientId !in replies || replies[request.clientId].seqNum < request.seqNum
  }

  function OnRequest(c: Config, r: Replica, request: Request): Replica {
    var service := r.service;
    if !Fresh(service.replies, request) then
      var cached := service.replies[request.clientId];
      if cached.seqNum == request.seqNum && cached.reply.Some? then
        r.(service := service.(sent := service.sent + {(request.clientAddr, cached.reply.value)}))
      else
        r
    else if !IsPrimary(c, r) then
      Stop(r, Unimplemented)
    else
      var noted := service.(replies := service.replies[request.clientId := CachedReply(request.seqNum, None)]);
      var queued := r.(service := noted, requests := r.requests + [request]);
      if queued.opNum < queued.commitNum + CONCURRENT_PRE_PREPARES then CloseBatch(c, queued) else queued
  }

  // Pre-prepares

  function OnSignedPrePrepare(r: Replica, p: SignedPrePrepare, requests: seq<Request>): Replica {
    if p.inner.viewNum != r.viewNum then
      r
    else
      var log := Grow(r.log, p.inner.opNum);
      var k := p.inner.opNum;
      if log[k].prePrepare.Some? then
        Stop(r.(log := log[k := log[k].(prePrepare := Some(p))]), AssertionFailed)
      else
        Broadcast(
          r.(log := log[k := log[k].(prePrepare := Some(p), viewNum := r.viewNum, requests := requests)]),
          PrePrepareMsg(p, requests))
  }

  function OnRecvPrePrepare(r: Replica, p: SignedPrePrepare, requests: seq<Request>): Replica {
    if p.inner.viewNum > r.viewNum then
      Stop(r, Unimplemented)
    else if p.inner.viewNum < r.viewNum then
      r
    else if p.inner.opNum < |r.log| && r.log[p.inner.opNum].prePrepare.Some? then
      r
    else
      Submit(r, VerifyPrePrepare(p, requests))
  }

  function OnVerifiedPrePrepare(r: Replica, p: SignedPrePrepare, requests: seq<Request>): Replica {
    if p.inner.viewNum != r.viewNum then
      r
    else
      var log := Grow(r.log, p.inner.opNum);
      var k := p.inner.opNum;
      if log[k].prePrepare.Some? then
        r.(log := log)
      else
        Submit(
          r.(log := log[k := log[k].(prePrepare := Some(p), viewNum := r.viewNum, requests := requests)],
             prepares := r.prepares.(quorums := Retain(r.prepares.quorums, k, p.inner.digest)),
             commits := r.commits.(quorums := Retain(r.commits.quorums, k, p.inner.digest))),
          SignVote(Preparing, Vote(r.viewNum, k, p.inner.digest, r.id)))
  }

  // Votes: the part the two rounds share

  /** A vote whose slot is finished, or whose digest the slot contradicts, is not verified. */
  predicate Wanted(r: Replica, round: Round, v: Vote) {
    v.opNum < |r.log| ==>
      && r.log[v.opNum].Votes(round) == map[]
      && (r.log[v.opNum].prePrepare.Some? ==> v.digest == r.log[v.opNum].prePrepare.value.inner.digest)
  }

  predicate Submittable(r: Replica, round: Round, v: Vote) {
    v.viewNum == r.viewNum && Wanted(r, round, v)
  }

  /** Hand a vote to the worker, if it is worth verifying. */
  function SubmitVote(r: Replica, round: Round, v: SignedVote): Replica {
    if v.inner.viewNum > r.viewNum then
      Stop(r, Unimplemented)
    else if Submittable(r, round, v.inner) then
      Submit(r, VerifyVote(round, v))
    else
      r
  }

  function SetQueue(r: Replica, round: Round, k: nat, queue: seq<SignedVote>): Replica {
    var b := r.Ballots(round);
    SetBallots(r, round, b.(pending := b.pending[k := queue]))
  }

  function DropQueue(r: Replica, round: Round, k: nat): Replica {
    var b := r.Ballots(round);
    SetBallots(r, round, b.(pending := b.pending - {k}))
  }

  /** Pop waiting votes, last first, until one of them is submitted or none is left. */
  function Drain(r: Replica, round: Round, k: nat): (r': Replica)
    ensures r' == SetBallots(r, round, r.Ballots(round).(pending := r'.Ballots(round).pending))
                    .(out := r.out.(tasks := r'.out.tasks), status := r'.status)
    ensures r'.status == r.status || r'.status == Unimplemented
    decreases if k in r.Ballots(round).pending then 1 + |r.Ballots(round).pending[k]| else 0
  {
    var pending := r.Ballots(round).pending;
    if k !in pending then
      r
    else if pending[k] == [] then
      DropQueue(r, round, k)
    else
      var last := |pending[k]| - 1;
      var v := pending[k][last];
      var r1 := SubmitVote(SetQueue(r, round, k, pending[k][..last]), round, v);
      if Submittable(r, round, v.inner) || v.inner.viewNum > r.viewNum then r1 else Drain(r1, round, k)
  }

  function OnRecvVote(r: Replica, round: Round, v: SignedVote): Replica {
    var k := v.inner.opNum;
    var pending := r.Ballots(round).pending;
    if k in pending then
      SetQueue(r, round, k, pending[k] + [v])
    else if Submittable(r, round, v.inner) then
      SetQueue(SubmitVote(r, round, v), round, k, [])
    else
      SubmitVote(r, round, v)
  }

  /** The table of a vote's slot with the vote in it. */
  function Counted(r: Replica, round: Round, v: SignedVote): Table {
    TableOf(r.Ballots(round).quorums, v.inner.opNum)[v.inner.replicaId := v]
  }

  function SetTable(r: Replica, round: Round, k: nat, votes: Table): Replica {
    var b := r.Ballots(round);
    SetBallots(r, round, b.(quorums := b.quorums[k := votes]))
  }

  function DropTable(r: Replica, round: Round, k: nat): Replica {
    var b := r.Ballots(round);
    SetBallots(r, round, b.(quorums := b.quorums - {k}))
  }

  // Prepares

  function InsertPrepare(c: Config, r: Replica, v: SignedVote): Replica {
    var k, votes := v.inner.opNum, Counted(r, Preparing, v);
    if |votes| + 1 < c.Quorum() || k >= |r.log| then
      SetTable(r, Preparing, k, votes)
    else if r.log[k].prepares != map[] then
      Stop(SetTable(r, Preparing, k, votes), PreparedTwice)
    else
      Submit(DropTable(r, Preparing, k).(log := r.log[k := r.log[k].(prepares := votes)]),
             SignVote(Committing, Vote(r.viewNum, k, v.inner.digest, r.id)))
  }

  // Execution

  function ExecuteRequest(c: Config, id: nat, viewNum: nat, s: Service, request: Request): Service {
    var (app, result) := c.execute(s.app, request.op);
    var reply := Reply(request.seqNum, result, viewNum, id);
    var replies :=
      if request.clientId !in s.replies || s.replies[request.clientId].seqNum <= request.seqNum then
        s.replies[request.clientId := CachedReply(request.seqNum, Some(reply))]
      else
        s.replies;
    Service(app, replies, s.sent + {(request.clientAddr, reply)})
  }

  function ExecuteBatch(c: Config, id: nat, viewNum: nat, s: Service, batch: seq<Request>): Service
    decreases |batch|
  {
    if batch == [] then s
    else ExecuteBatch(c, id, viewNum, ExecuteRequest(c, id, viewNum, s, batch[0]), batch[1..])
  }

  predicate NextCommitted(r: Replica) {
    r.commitNum + 1 < |r.log| && r.log[r.commitNum + 1].commits != map[]
  }

  /** Execute the slots after commitNum, in order, up to the first uncommitted one. */
  function ExecuteCommitted(c: Config, r: Replica): (r': Replica)
    ensures r' == r.(service := r'.service, commitNum := r'.commitNum)
    ensures r.commitNum <= r'.commitNum && !NextCommitted(r')
    decreases |r.log| - r.commitNum
  {
    if NextCommitted(r) then
      var service := ExecuteBatch(c, r.id, r.viewNum, r.service, r.log[r.commitNum + 1].requests);
      ExecuteCommitted(c, r.(commitNum := r.commitNum + 1, service := service))
    else
      r
  }

  // Commits

  function InsertCommit(c: Config, r: Replica, v: SignedVote): Replica {
    var k, votes := v.inner.opNum, Counted(r, Committing, v);
    if |votes| < c.Quorum() || k >= |r.log| then
      SetTable(r, Committing, k, votes)
    else if r.log[k].commits != map[] then
      Stop(SetTable(r, Committing, k, votes), AssertionFailed)
    else if r.log[k].prepares == map[] then
      SetTable(r, Committing, k, votes)
    else
      var r1 := DropTable(r, Committing, k).(log := r.log[k := r.log[k].(commits := votes)]);
      CloseBatches(c, ExecuteCommitted(c, r1))
  }

  function InsertVote(c: Config, r: Replica, round: Round, v: SignedVote): Replica {
    if round.Preparing? then InsertPrepare(c, r, v) else InsertCommit(c, r, v)
  }

  /** The replica's own vote comes back signed. */
  function OnSignedVote(c: Config, r: Replica, round: Round, v: SignedVote): Replica {
    if v.inner.viewNum != r.viewNum then
      r
    else
      var r1 := Broadcast(r, VoteMsg(round, v));
      if v.inner.opNum >= |r.log| then
        Stop(r1, AssertionFailed)
      else if r.log[v.inner.opNum].Votes(round) == map[] then
        InsertVote(c, r1, round, v)
      else
        r1
  }

  /** The vote of another replica comes back verified. */
  function OnVerifiedVote(c: Config, r: Replica, round: Round, v: SignedVote): Replica {
    if v.inner.viewNum != r.viewNum then
      r
    else
      var r1 := InsertVote(c, r, round, v);
      if r1.status != Running then r1 else Drain(r1, round, v.inner.opNum)
  }

  // Events

  /** A running replica can receive any message, and any task it submitted that the
      worker answers can come back. */
  predicate Enabled(c: Config, r: Replica, e: Event) {
    && r.status == Running
    && (e.Done? ==> e.task in r.out.tasks && Answered(c, e.task))
  }

  function OnRecv(c: Config, r: Replica, m: Message): Replica {
    match m
    case RequestMsg(request) => OnRequest(c, r, request)
    case PrePrepareMsg(p, requests) => OnRecvPrePrepare(r, p, requests)
    case VoteMsg(round, v) => OnRecvVote(r, round, v)
  }

  function OnDone(c: Config, r: Replica, t: Task): Replica {
    match t
    case SignPrePrepare(viewNum, opNum, requests) =>
      OnSignedPrePrepare(r, SignedPrePrepare(PrePrepare(viewNum, opNum, Sha256(requests)), r.id), requests)
    case VerifyPrePrepare(p, requests) => OnVerifiedPrePrepare(r, p, requests)
    case SignVote(round, v) => OnSignedVote(c, r, round, SignedVote(v, r.id))
    case VerifyVote(round, v) => OnVerifiedVote(c, r, round, v)
  }

  function Answer(r: Replica, t: Task): Replica {
    r.(out := r.out.(tasks := r.out.tasks - multiset{t}))
  }

  function Handle(c: Config, r: Replica, e: Event): Replica
    requires Enabled(c, r, e)
  {
    match e
    case Recv(m) => OnRecv(c, r, m)
    case Done(t) => OnDone(c, Answer(r, t), t)
  }
}
