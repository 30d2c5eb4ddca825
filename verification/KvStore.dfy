/** The key-value application, and the check its append workloads are searched with. */
module KvStore {
  import opened UnreplicatedTypes
  import opened UnreplicatedSpec
  import opened UnreplicatedRuns
  import opened UnreplicatedHistory
  import opened Linearizability

  datatype Op = Put(key: string, value: string) | Get(key: string) | Append(key: string, postfix: string)

  datatype Outcome = PutOk | GetResult(value: string) | KeyNotFound | AppendResult(value: string)

  type Store = map<string, string>

  function Text(store: Store, key: string): string {
    if key in store then store[key] else ""
  }

  function Execute(store: Store, op: Op): (Store, Outcome) {
    match op
    case Put(key, value) => (store[key := value], PutOk)
    case Get(key) => (store, if key in store then GetResult(store[key]) else KeyNotFound)
    case Append(key, postfix) =>
      var value := Text(store, key) + postfix;
      (store[key := value], AppendResult(value))
  }

  /** How states and payloads of the protocol stand for stores, ops and outcomes. */
  datatype Reading = Reading(store: AppState -> Store, op: Payload -> Op, outcome: Payload -> Outcome)

  /** The replica's application is the key-value store. */
  ghost predicate RunsStore(u: Setup, read: Reading) {
    forall app, op ::
      (read.store(u.execute(app, op).0), read.outcome(u.execute(app, op).1)) == Execute(read.store(app), read.op(op))
  }

  predicate IsAppend(op: Op, key: string) {
    op.Append? && op.key == key
  }

  /** Every workload only appends to this one key. */
  ghost predicate OnlyAppends(u: Setup, read: Reading, key: string) {
    forall i: nat, k: nat | i < |u.plans| && u.plans[i].op(k).Some? :: IsAppend(read.op(u.plans[i].op(k).value), key)
  }

  function Held(read: Reading, key: string): AppState -> string {
    app => Text(read.store(app), key)
  }

  function Added(read: Reading): Payload -> string {
    p => if read.op(p).Append? then read.op(p).postfix else ""
  }

  function Shown(read: Reading): Payload -> string {
    p => if read.outcome(p).AppendResult? then read.outcome(p).value else ""
  }

  lemma AppendsToOneKey(u: Setup, read: Reading, key: string)
    requires RunsStore(u, read) && OnlyAppends(u, read, key)
    ensures Appends(u, Held(read, key), Added(read), Shown(read))
  {
    forall i: nat, k: nat | i < |u.plans| && u.plans[i].op(k).Some?
      ensures AppendsOp(u, u.plans[i].op(k).value, Held(read, key), Added(read), Shown(read))
    {
      var op := u.plans[i].op(k).value;
      assert IsAppend(read.op(op), key);
      forall app
        ensures Held(read, key)(u.execute(app, op).0) == Held(read, key)(app) + Added(read)(op)
        ensures Shown(read)(u.execute(app, op).1) == Held(read, key)(app) + Added(read)(op)
      {
        assert (read.store(u.execute(app, op).0), read.outcome(u.execute(app, op).1)) == Execute(read.store(app), read.op(op));
      }
    }
  }

  /** What a recorded invocation must look like: an append whose result is an appended
      text that ends with what was appended. */
  predicate EndsWithOwn(read: Reading, invocation: (Payload, Payload)) {
    && read.op(invocation.0).Append? && read.outcome(invocation.1).AppendResult?
    && var value, postfix := read.outcome(invocation.1).value, read.op(invocation.0).postfix;
    |postfix| <= |value| && value[|value| - |postfix|..] == postfix
  }

  /** Every recorded invocation is a planned one with the outcome of executing it somewhere. */
  lemma RecordedAppend(u: Setup, events: seq<Event>, i: nat, a: nat, read: Reading, key: string)
    requires RunsStore(u, read) && OnlyAppends(u, read, key)
    requires After(u, events).Some? && i < |u.plans|
    requires a < |After(u, events).value.clients[i].loop.workload.invocations|
    ensures
      var (op, result) := After(u, events).value.clients[i].loop.workload.invocations[a];
      IsAppend(read.op(op), key) && read.outcome(result).AppendResult?
  {
    hide After, History, Project, AppAfter;
    Linearizable(u, events);
    var h := History(u, events);
    var p := Find(h, i, 3 * a + 1);
    assert InTurn(u.plans[i], i, Project(h, i), 3 * a + 1);
    assert u.plans[i].op(a).Some?;
    assert IsAppend(read.op(h[p].op), key);
    var app := AppAfter(u, h[..p]);
    assert (read.store(u.execute(app, h[p].op).0), read.outcome(u.execute(app, h[p].op).1))
        == Execute(read.store(app), read.op(h[p].op));
  }

  /** The append check cannot fail: with any clients that only append to one key of the
      store, in every reachable state, every recorded result ends with what its op appended
      and the recorded results are prefixes of each other in the order of their lengths. */
  lemma AppendCheckPasses(u: Setup, events: seq<Event>, i: nat, a: nat, j: nat, b: nat, read: Reading, key: string)
    requires RunsStore(u, read) && OnlyAppends(u, read, key)
    requires After(u, events).Some? && i < |u.plans| && j < |u.plans|
    requires a < |After(u, events).value.clients[i].loop.workload.invocations|
    requires b < |After(u, events).value.clients[j].loop.workload.invocations|
    ensures EndsWithOwn(read, After(u, events).value.clients[i].loop.workload.invocations[a])
    ensures
      var (_, result) := After(u, events).value.clients[i].loop.workload.invocations[a];
      var (_, other) := After(u, events).value.clients[j].loop.workload.invocations[b];
      && read.outcome(result).AppendResult? && read.outcome(other).AppendResult?
      && var value, larger := read.outcome(result).value, read.outcome(other).value;
      |value| <= |larger| ==> value <= larger
  {
    hide After, RunsStore, OnlyAppends, Appends;
    AppendsToOneKey(u, read, key);
    RecordedAppend(u, events, i, a, read, key);
    RecordedAppend(u, events, j, b, read, key);
    AppendLinearizable(u, events, i, a, j, b, Held(read, key), Added(read), Shown(read));
    var (op, result) := After(u, events).value.clients[i].loop.workload.invocations[a];
    var before :| Shown(read)(result) == before + Added(read)(op);
    assert read.outcome(result).value[|before|..] == read.op(op).postfix;
  }
}
