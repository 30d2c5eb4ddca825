/** The vocabulary of the PBFT protocol: requests, votes, signatures, messages. */
module PbftTypes {
  import opened Wrappers

  type Payload(==, !new, 0)
  type AppState(==, !new, 0)
  type Addr(==, !new, 0)

  /** A deterministic application together with the size of the replica group. */
  datatype Config = Config(
    numReplica: nat,
    numFaulty: nat,
    execute: (AppState, Payload) -> (AppState, Payload))
  {
    /** The vote count that completes a quorum. */
    function Quorum(): int { numReplica - numFaulty }

    ghost predicate Valid() { numReplica >= 3 * numFaulty + 1 }
  }

  datatype Request = Request(clientId: nat, clientAddr: Addr, seqNum: nat, op: Payload)

  /** SHA-256 is taken to be injective: a digest either names the one batch it was
      computed from or is a bit pattern no batch hashes to. */
  datatype Digest = Sha256(batch: seq<Request>) | Unmatched(bits: nat)

  datatype PrePrepare = PrePrepare(viewNum: nat, opNum: nat, digest: Digest)

  /** The common shape of a prepare and of a commit. */
  datatype Vote = Vote(viewNum: nat, opNum: nat, digest: Digest, replicaId: nat)

  /** A value and whose key signed it.  Verification compares the key, not a claim. */
  datatype SignedVote = SignedVote(inner: Vote, signer: nat)

  datatype SignedPrePrepare = SignedPrePrepare(inner: PrePrepare, signer: nat)

  datatype Reply = Reply(seqNum: nat, result: Payload, viewNum: nat, replicaId: nat)

  /** The two rounds of voting on a slot. */
  datatype Round = Preparing | Committing

  datatype Message =
    | RequestMsg(request: Request)
    | PrePrepareMsg(prePrepare: SignedPrePrepare, requests: seq<Request>)
    | VoteMsg(round: Round, vote: SignedVote)

  /** Work handed to the crypto worker and not answered yet. */
  datatype Task =
    | SignPrePrepare(viewNum: nat, opNum: nat, requests: seq<Request>)
    | VerifyPrePrepare(prePrepare: SignedPrePrepare, requests: seq<Request>)
    | SignVote(round: Round, unsigned: Vote)
    | VerifyVote(round: Round, vote: SignedVote)

  /** The worker answers a verification only when the check succeeds. */
  predicate Answered(c: Config, t: Task) {
    match t
    case SignPrePrepare(_, _, _) => true
    case SignVote(_, _) => true
    case VerifyPrePrepare(p, requests) =>
      && c.numReplica > 0
      && p.inner.digest == Sha256(requests)
      && p.signer == p.inner.viewNum % c.numReplica
    case VerifyVote(_, v) => v.signer == v.inner.replicaId < c.numReplica
  }

  datatype LogEntry = LogEntry(
    viewNum: nat,
    prePrepare: Option<SignedPrePrepare>,
    requests: seq<Request>,
    prepares: map<nat, SignedVote>,
    commits: map<nat, SignedVote>)
  {
    /** The votes that finished a round on this slot, none while it is open. */
    function Votes(round: Round): map<nat, SignedVote> {
      if round.Preparing? then prepares else commits
    }
  }

  const EmptyEntry := LogEntry(0, None, [], map[], map[])

  /** Running, stopped at a case the code leaves unimplemented, or stopped by a failed
      assertion: the one that no slot is prepared a second time, or one of the others. */
  datatype Status = Running | Unimplemented | AssertionFailed | PreparedTwice

  datatype Event = Recv(message: Message) | Done(task: Task)

  datatype CachedReply = CachedReply(seqNum: nat, reply: Option<Reply>)
}
