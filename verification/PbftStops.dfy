/** What a replica does not take: requests it has answered already, and what the code leaves
    unimplemented, at which it stops. */
module PbftStops {
  import opened Wrappers
  import opened PbftTypes
  import opened PbftSpec
  import opened PbftLocal
  import opened PbftTokens
  import opened PbftProposals
  import opened PbftStep
  import opened PbftGuards
  import opened PbftVotes

  /** The number of the latest request known of a client, as one more, 0 if none is. */
  function NextNumber(r: Replica, client: nat): nat {
    if client in r.service.replies then r.service.replies[client].seqNum + 1 else 0
  }

  /** The latest request of a client is answered again, at the address it comes from, as soon
      as there is an answer; an older one is ignored. */
  lemma KnownRequests(c: Config, r: Replica, q: Request)
    requires Enabled(c, r, Recv(RequestMsg(q))) && q.seqNum < NextNumber(r, q.clientId)
    ensures
      var r' := Handle(c, r, Recv(RequestMsg(q)));
      if q.seqNum + 1 == NextNumber(r, q.clientId) && r.service.replies[q.clientId].reply.Some? then
        && (q.clientAddr, r.service.replies[q.clientId].reply.value) in r'.service.sent
        && r'.service.sent <= r.service.sent + {(q.clientAddr, r.service.replies[q.clientId].reply.value)}
        && r'.(service := r'.service.(sent := r.service.sent)) == r
        && r.service.sent <= r'.service.sent
      else
        r' == r
  {
  }

  /** Of all messages, a replica stops exactly at a new request when it is not primary, and at
      a pre-prepare or vote of a later view, unless the vote has to wait for another one. */
  lemma StopsAtMessage(c: Config, r: Replica, m: Message)
    requires Local(c, r) && Enabled(c, r, Recv(m))
    ensures Handle(c, r, Recv(m)).status in {Running, Unimplemented}
    ensures
      Handle(c, r, Recv(m)).status == Unimplemented <==>
        match m
        case RequestMsg(q) => r.id != 0 && q.seqNum >= NextNumber(r, q.clientId)
        case PrePrepareMsg(p, _) => p.inner.viewNum > 0
        case VoteMsg(round, v) => v.inner.viewNum > 0 && v.inner.opNum !in r.Ballots(round).pending
  {
    hide LogOk, BallotsOk, TasksOk, TokenInvariant, Proposals, Wanted;
    assert c.numReplica > 0;
    PrimaryIsZero(c, r);
  }

  /** Of all answers of the worker, a replica stops as unimplemented only at a verified vote
      behind which a vote of a later view waits. */
  lemma StopsAtAnswer(c: Config, r: Replica, t: Task)
    requires Local(c, r) && Enabled(c, r, Done(t)) && c.Quorum() >= 2
    ensures Handle(c, r, Done(t)).status == Unimplemented ==>
              && t.VerifyVote? && t.vote.inner.opNum in r.Ballots(t.round).pending
              && exists v <- r.Ballots(t.round).pending[t.vote.inner.opNum] :: v.inner.viewNum > 0
  {
    hide LogOk, BallotsOk, TasksOk, TokenInvariant, Proposals, InsertVote;
    TaskAt(r, t);
    match t
    case SignPrePrepare(_, _, _) =>
    case VerifyPrePrepare(_, _) =>
    case SignVote(round, v) =>
      InsertStatus(c, Broadcast(Answer(r, t), VoteMsg(round, SignedVote(v, r.id))), round, SignedVote(v, r.id));
    case VerifyVote(round, v) =>
      var r0 := Answer(r, t);
      InsertStatus(c, r0, round, v);
      var r1 := InsertVote(c, r0, round, v);
      if r1.status == Running {
        DrainStops(r1, round, v.inner.opNum);
        InsertCounts(c, r0, round, v);
        CountsQueues(r0, r1, round, v);
        assert r1.viewNum == 0 by { InsertView(c, r0, round, v); }
      }
  }

  lemma InsertStatus(c: Config, r: Replica, round: Round, v: SignedVote)
    requires r.status == Running
    ensures InsertVote(c, r, round, v).status != Unimplemented
  {
  }

  lemma {:induction false} DrainStops(r: Replica, round: Round, k: nat)
    requires r.status == Running
    ensures Drain(r, round, k).status == Unimplemented ==>
              k in r.Ballots(round).pending && exists v <- r.Ballots(round).pending[k] :: v.inner.viewNum > r.viewNum
    decreases if k in r.Ballots(round).pending then 1 + |r.Ballots(round).pending[k]| else 0
  {
    hide Wanted;
    var pending := r.Ballots(round).pending;
    if k in pending && pending[k] != [] {
      var last := |pending[k]| - 1;
      var v: SignedVote := pending[k][last];
      var r0 := SetQueue(r, round, k, pending[k][..last]);
      assert v in pending[k];
      DrainAfter(r, round, k);
      DrainStops(r0, round, k);
      assert r0.Ballots(round).pending[k] == pending[k][..last] && r0.viewNum == r.viewNum;
      SameWanted(r, r0, round, v.inner);
      if Drain(r0, round, k).status == Unimplemented {
        var w: SignedVote :| w in pending[k][..last] && w.inner.viewNum > r.viewNum;
        assert w in pending[k];
      }
    }
  }
}
