/** The vocabulary of the unreplicated protocol and of the state its model checker searches. */
module UnreplicatedTypes {
  import opened Wrappers

  type Payload(==, !new, 0)
  type AppState(==, !new, 0)

  datatype Addr = ClientAddr(index: nat) | ReplicaAddr

  datatype Request = Request(clientId: nat, clientAddr: Addr, seqNum: nat, op: Payload)

  datatype Reply = Reply(seqNum: nat, result: Payload)

  datatype Message = RequestMsg(request: Request) | ReplyMsg(reply: Reply)

  datatype MessageEvent = MessageEvent(dest: Addr, message: Message)

  /** What a step can fail with.  A panic stands for a failed assertion, an unwrapped
      nothing or an index out of bounds. */
  datatype Error =
    | ConcurrentInvocation
    | TimerNotFound
    | NotEnoughOps
    | DuplicatedLaunch
    | MissingAttach
    | OnlyCloseLoop
    | MissingInvocation
    | UnexpectedResult(expected: Payload, actual: Payload)
    | UnexpectedEvent
    | Panicked

  type Fallible<T> = Result<T, Error>
}
