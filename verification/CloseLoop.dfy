/** A client's closed loop of operations: the next one is invoked when the last returned.
    A recording workload keeps its invocations; a checking one compares every result with
    the result it expects; a plain one does neither. */
module CloseLoop {
  import opened Wrappers
  import opened UnreplicatedTypes

  /** What a workload will ask for: its next op depends on how many it has given. */
  datatype Plan = Plan(recorded: bool, checked: bool, op: nat -> Option<Payload>, want: nat -> Payload)

  datatype Workload = Workload(position: nat, awaited: Option<Payload>, invocations: seq<(Payload, Payload)>)

  /** The attachment of the open invocation is its op, which only a recording workload
      reads; the sender buffers invocations. */
  datatype Loop = Loop(workload: Workload, attach: Option<Payload>, sender: seq<Payload>, done: bool)

  const NewLoop := Loop(Workload(0, None, []), None, [], false)

  function NextOp(plan: Plan, w: Workload): Fallible<(Workload, Option<Payload>)> {
    var op := plan.op(w.position);
    if op.None? then
      Success((w, None))
    else if plan.checked && w.awaited.Some? then
      Failure(OnlyCloseLoop)
    else
      var awaited := if plan.checked then Some(plan.want(w.position)) else None;
      Success((w.(position := w.position + 1, awaited := awaited), op))
  }

  function OnResult(plan: Plan, w: Workload, op: Payload, result: Payload): Fallible<Workload> {
    var recorded := if plan.recorded then w.(invocations := w.invocations + [(op, result)]) else w;
    if !plan.checked then
      Success(recorded)
    else if w.awaited.None? then
      Failure(MissingInvocation)
    else if w.awaited.value != result then
      Failure(UnexpectedResult(w.awaited.value, result))
    else
      Success(recorded.(awaited := None))
  }

  function Init(plan: Plan, l: Loop): Fallible<Loop> {
    match NextOp(plan, l.workload)
    case Failure(e) => Failure(e)
    case Success((w, op)) =>
      if op.None? then Failure(NotEnoughOps)
      else if l.attach.Some? then Failure(DuplicatedLaunch)
      else Success(l.(workload := w, attach := op, sender := l.sender + [op.value]))
  }

  function OnInvokeOk(plan: Plan, l: Loop, result: Payload): (r: Fallible<Loop>)
    ensures r.Success? ==> |r.value.sender| <= |l.sender| + 1
  {
    if l.attach.None? then
      Failure(MissingAttach)
    else
      match OnResult(plan, l.workload, l.attach.value, result)
      case Failure(e) => Failure(e)
      case Success(w) =>
        match NextOp(plan, w)
        case Failure(e) => Failure(e)
        case Success((next, op)) =>
          if op.Some? then
            Success(l.(workload := next, attach := op, sender := l.sender + [op.value]))
          else
            Success(l.(workload := next, attach := None, done := true))
  }
}
