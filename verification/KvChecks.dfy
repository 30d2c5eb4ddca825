/** Checking workloads on the key-value store.  Clients that keep to keys of their own may
    foresee their results from their own ops alone: no check ever fails, however the network
    repeats, reorders and interleaves. */
module KvChecks {
  import opened Wrappers
  import opened UnreplicatedTypes
  import opened UnreplicatedSpec
  import opened UnreplicatedState
  import opened UnreplicatedRuns
  import opened UnreplicatedHistory
  import opened Linearizability
  import opened KvStore
  import L = CloseLoop

  // What a store holds after some ops

  function Look(store: Store, key: string): Option<string> {
    if key in store then Some(store[key]) else None
  }

  /** What an Append adds to: the text that is there, or the empty one. */
  function Prior(held: Option<string>): string {
    if held.Some? then held.value else ""
  }

  /** An empty store after these ops. */
  function Played(ops: seq<Op>): Store {
    if ops == [] then map[] else Execute(Played(ops[..|ops| - 1]), ops[|ops| - 1]).0
  }

  /** Where the last Put of a key is, as one more, 0 if there is none. */
  function LastPut(ops: seq<Op>, key: string): (n: nat)
    ensures n <= |ops|
    ensures n > 0 ==> ops[n - 1].Put? && ops[n - 1].key == key
    ensures forall j | n <= j < |ops| :: !(ops[j].Put? && ops[j].key == key)
  {
    if ops == [] then 0
    else
      var last := ops[|ops| - 1];
      if last.Put? && last.key == key then |ops| else LastPut(ops[..|ops| - 1], key)
  }

  /** All texts appended to a key, one after the other. */
  function Appended(ops: seq<Op>, key: string): string {
    if ops == [] then ""
    else
      var last := ops[|ops| - 1];
      Appended(ops[..|ops| - 1], key) + if IsAppend(last, key) then last.postfix else ""
  }

  predicate Writes(op: Op, key: string) {
    !op.Get? && op.key == key
  }

  /** The value of the last Put of a key, if any, followed by what was appended since; nothing
      if nothing was ever written to the key. */
  function Written(ops: seq<Op>, key: string): Option<string> {
    if exists op <- ops :: Writes(op, key) then
      var n := LastPut(ops, key);
      Some((if n > 0 then ops[n - 1].value else "") + Appended(ops[n..], key))
    else
      None
  }

  /** The store holds of each key what was written to it last. */
  lemma {:induction false} HoldsWritten(ops: seq<Op>, key: string)
    ensures Look(Played(ops), key) == Written(ops, key)
  {
    if ops != [] {
      var before, last := ops[..|ops| - 1], ops[|ops| - 1];
      hide Written, Look, Execute;
      HoldsWritten(before, key);
      WrittenNext(before, last, key);
      OneExecuted(Played(before), last, key);
      assert ops == before + [last];
    } else {
      NothingWritten(key);
    }
  }

  lemma NothingWritten(key: string)
    ensures Written([], key) == None && Look(Played([]), key) == None
  {
  }

  lemma OneExecuted(store: Store, op: Op, key: string)
    ensures
      Look(Execute(store, op).0, key)
      == if !Writes(op, key) then Look(store, key)
         else if op.Put? then Some(op.value)
         else Some(Prior(Look(store, key)) + op.postfix)
  {
  }

  lemma LastPutNext(ops: seq<Op>, op: Op, key: string)
    ensures LastPut(ops + [op], key) == if Writes(op, key) && op.Put? then |ops| + 1 else LastPut(ops, key)
    ensures (exists o <- ops + [op] :: Writes(o, key)) <==> Writes(op, key) || exists o <- ops :: Writes(o, key)
  {
    var more := ops + [op];
    assert more[..|ops|] == ops && more[|ops|] == op && op in more;
  }

  lemma AppendedNext(ops: seq<Op>, op: Op, key: string, n: nat)
    requires n <= |ops|
    ensures Appended((ops + [op])[n..], key) == Appended(ops[n..], key) + if IsAppend(op, key) then op.postfix else ""
  {
    assert (ops + [op])[n..] == ops[n..] + [op] && (ops[n..] + [op])[..|ops| - n] == ops[n..];
  }

  lemma WrittenNext(ops: seq<Op>, op: Op, key: string)
    ensures
      Written(ops + [op], key)
      == if !Writes(op, key) then Written(ops, key)
         else if op.Put? then Some(op.value)
         else Some(Prior(Written(ops, key)) + op.postfix)
  {
    hide LastPut, Appended;
    var more, n := ops + [op], LastPut(ops, key);
    LastPutNext(ops, op, key);
    AppendedNext(ops, op, key, n);
    if Writes(op, key) && op.Put? {
      assert more[|ops| + 1..] == [] && Appended([], key) == "" by { NothingAppended([], key); }
      assert op.value + "" == op.value;
    } else {
      var first := if n > 0 then ops[n - 1].value else "";
      assert n > 0 ==> more[n - 1] == ops[n - 1];
      if !Writes(op, key) {
        assert Appended(ops[n..], key) + "" == Appended(ops[n..], key);
      } else {
        assert first + (Appended(ops[n..], key) + op.postfix) == first + Appended(ops[n..], key) + op.postfix;
        if !exists o <- ops :: Writes(o, key) {
          NothingAppended(ops, key);
          assert ops[0..] == ops;
        }
      }
    }
  }

  lemma {:induction false} NothingAppended(ops: seq<Op>, key: string)
    requires forall op <- ops :: !Writes(op, key)
    ensures Appended(ops, key) == "" && LastPut(ops, key) == 0
  {
    if ops != [] {
      assert ops[|ops| - 1] in ops;
      NothingAppended(ops[..|ops| - 1], key);
    }
  }

  /** What an op returns and writes depends on its key alone, and nothing else is written. */
  lemma OnlyTheKey(store: Store, other: Store, op: Op, key: string)
    ensures Look(store, op.key) == Look(other, op.key) ==>
              Execute(store, op).1 == Execute(other, op).1
              && Look(Execute(store, op).0, op.key) == Look(Execute(other, op).0, op.key)
    ensures key != op.key ==> Look(Execute(store, op).0, key) == Look(store, key)
  {
  }

  // Clients with keys of their own

  /** The replica's application is the store, started empty, its results written as payloads. */
  ghost predicate ServesStore(u: Setup, read: Reading, write: Outcome -> Payload) {
    && RunsStore(u, read) && read.store(u.app) == map[]
    && forall app, op :: u.execute(app, op).1 == write(Execute(read.store(app), read.op(op)).1)
  }

  /** No two clients use the same key. */
  ghost predicate OwnKeys(u: Setup, read: Reading, owner: string -> nat) {
    forall i: nat, k: nat | i < |u.plans| && u.plans[i].op(k).Some? :: owner(read.op(u.plans[i].op(k).value).key) == i
  }

  /** The first n ops of a workload. */
  function Planned(read: Reading, plan: L.Plan, n: nat): seq<Op> {
    if n == 0 then []
    else Planned(read, plan, n - 1) + if plan.op(n - 1).Some? then [read.op(plan.op(n - 1).value)] else []
  }

  /** A checking workload expects what its own ops would return on a store of its own. */
  ghost predicate Foresees(read: Reading, write: Outcome -> Payload, plan: L.Plan) {
    plan.checked ==> forall k: nat | plan.op(k).Some? ::
      plan.want(k) == write(Execute(Played(Planned(read, plan, k)), read.op(plan.op(k).value)).1)
  }

  ghost predicate AllForesee(u: Setup, read: Reading, write: Outcome -> Payload) {
    forall i: nat | i < |u.plans| :: Foresees(read, write, u.plans[i])
  }

  // The executed ops of one client

  function OpsOf(read: Reading, t: seq<Moment>): seq<Op> {
    if t == [] then []
    else
      var last := t[|t| - 1];
      OpsOf(read, t[..|t| - 1]) + if last.Executed? then [read.op(last.op)] else []
  }

  /** A client that takes its turns has executed the first ops of its workload. */
  lemma {:induction false} TurnsArePlanned(read: Reading, plan: L.Plan, i: nat, t: seq<Moment>)
    requires Alternates(plan, i, t)
    ensures OpsOf(read, t) == Planned(read, plan, (|t| + 1) / 3)
  {
    if t != [] {
      var n := |t| - 1;
      assert InTurn(plan, i, t, n);
      assert Alternates(plan, i, t[..n]) by {
        forall p: nat | p < n ensures InTurn(plan, i, t[..n], p) { assert InTurn(plan, i, t, p); }
      }
      TurnsArePlanned(read, plan, i, t[..n]);
    }
  }

  /** Every executed op of the history is planned, and uses a key of its client. */
  ghost predicate KeepToKeys(read: Reading, owner: string -> nat, h: seq<Moment>) {
    forall m <- h | m.Executed? :: owner(read.op(m.op).key) == m.client
  }

  lemma ExecutedKeepToKeys(u: Setup, events: seq<Event>, read: Reading, owner: string -> nat)
    requires After(u, events).Some? && OwnKeys(u, read, owner)
    ensures KeepToKeys(read, owner, History(u, events))
  {
    hide Project, Legal, AppAfter, History, After;
    Linearizable(u, events);
    var h := History(u, events);
    forall m <- h | m.Executed? ensures owner(read.op(m.op).key) == m.client {
      var p: nat :| p < |h| && h[p] == m;
      Place(h, m.client, p);
      var k := |Project(h[..p], m.client)|;
      assert InTurn(u.plans[m.client], m.client, Project(h, m.client), k);
      assert u.plans[m.client].op(k / 3) == Some(m.op);
    }
  }

  lemma NextMoment(u: Setup, h: seq<Moment>, read: Reading, i: nat)
    requires h != []
    ensures
      var before, m := h[..|h| - 1], h[|h| - 1];
      && OpsOf(read, Project(h, i))
         == OpsOf(read, Project(before, i)) + (if m.client == i && m.Executed? then [read.op(m.op)] else [])
      && AppAfter(u, h) == if m.Executed? then u.execute(AppAfter(u, before), m.op).0 else AppAfter(u, before)
  {
    var before, m := h[..|h| - 1], h[|h| - 1];
    var t := Project(before, i);
    assert (t + [m])[..|t|] == t && t + [] == t;
    assert OpsOf(read, t) + [] == OpsOf(read, t);
  }

  lemma PlayedNext(ops: seq<Op>, op: Op)
    ensures Played(ops + [op]) == Execute(Played(ops), op).0
  {
    assert (ops + [op])[..|ops|] == ops;
  }

  lemma ExecutesOp(u: Setup, read: Reading, app: AppState, op: Payload)
    requires RunsStore(u, read)
    ensures read.store(u.execute(app, op).0) == Execute(read.store(app), read.op(op)).0
  {
    assert (read.store(u.execute(app, op).0), read.outcome(u.execute(app, op).1)) == Execute(read.store(app), read.op(op));
  }

  /** At a key of one client the replica's store is that of the client's own ops. */
  lemma {:induction false} OthersDoNotMatter(u: Setup, h: seq<Moment>, read: Reading, owner: string -> nat, key: string)
    requires RunsStore(u, read) && read.store(u.app) == map[] && KeepToKeys(read, owner, h)
    ensures Look(read.store(AppAfter(u, h)), key) == Look(Played(OpsOf(read, Project(h, owner(key)))), key)
  {
    hide Look, Execute, RunsStore, Project, OpsOf, AppAfter;
    var i := owner(key);
    if h == [] {
      NothingYet(u, read, i);
    } else {
      var before, m := h[..|h| - 1], h[|h| - 1];
      OthersDoNotMatter(u, before, read, owner, key);
      NextMoment(u, h, read, i);
      if m.Executed? {
        var op, app, own := read.op(m.op), AppAfter(u, before), OpsOf(read, Project(before, i));
        assert m in h;
        ExecutesOp(u, read, app, m.op);
        PlayedNext(own, op);
        OnlyTheKey(read.store(app), Played(own), op, key);
        OnlyTheKey(Played(own), read.store(app), op, key);
      }
      assert OpsOf(read, Project(before, i)) + [] == OpsOf(read, Project(before, i));
    }
  }

  lemma NothingYet(u: Setup, read: Reading, i: nat)
    ensures AppAfter(u, []) == u.app && Played(OpsOf(read, Project([], i))) == map[]
  {
  }

  /** What the client of an execution has been through before it. */
  lemma BeforeExecution(u: Setup, events: seq<Event>, p: nat)
    requires After(u, events).Some? && p < |History(u, events)| && History(u, events)[p].Executed?
    ensures
      var h := History(u, events);
      var m := h[p];
      var t := Project(h[..p], m.client);
      && m.client < |u.plans| && m.seqNum >= 1 && u.plans[m.client].op(m.seqNum - 1) == Some(m.op)
      && |t| == 3 * m.seqNum - 2 && Alternates(u.plans[m.client], m.client, t)
      && m.result == u.execute(AppAfter(u, h[..p]), m.op).1
  {
    hide Project, AppAfter, History, After, Alternates;
    var h := History(u, events);
    var m := h[p];
    Linearizable(u, events);
    assert m in h;
    Place(h, m.client, p);
    PlaceIsTurn(u, events, p);
    var t := Project(h[..p], m.client);
    TurnAt(u.plans[m.client], m.client, Project(h, m.client), |t|);
    Earlier(u.plans[m.client], m.client, Project(h, m.client), t);
  }

  lemma TurnAt(plan: L.Plan, i: nat, t: seq<Moment>, p: nat)
    requires Alternates(plan, i, t) && p < |t|
    ensures InTurn(plan, i, t, p)
  {
  }

  /** In every run, an executed op returns what it would on a store of the client's own. */
  lemma ExecutedAsForeseen(u: Setup, events: seq<Event>, p: nat, read: Reading, write: Outcome -> Payload, owner: string -> nat)
    requires ServesStore(u, read, write) && OwnKeys(u, read, owner)
    requires After(u, events).Some? && p < |History(u, events)| && History(u, events)[p].Executed?
    ensures
      var m := History(u, events)[p];
      && m.client < |u.plans| && m.seqNum >= 1 && u.plans[m.client].op(m.seqNum - 1) == Some(m.op)
      && m.result == write(Execute(Played(Planned(read, u.plans[m.client], m.seqNum - 1)), read.op(m.op)).1)
  {
    hide Project, AppAfter, History, After, Execute, Look, Planned, Played, OpsOf, Alternates, RunsStore, KeepToKeys;
    var h := History(u, events);
    var m := h[p];
    BeforeExecution(u, events, p);
    ExecutedKeepToKeys(u, events, read, owner);
    KeepEarlier(read, owner, h, p);
    KeysAreOwn(u, read, owner, m.client, m.seqNum - 1);
    TurnsArePlanned(read, u.plans[m.client], m.client, Project(h[..p], m.client));
    OthersDoNotMatter(u, h[..p], read, owner, read.op(m.op).key);
    OnlyTheKey(read.store(AppAfter(u, h[..p])), Played(Planned(read, u.plans[m.client], m.seqNum - 1)), read.op(m.op), "");
  }

  lemma KeysAreOwn(u: Setup, read: Reading, owner: string -> nat, i: nat, k: nat)
    requires OwnKeys(u, read, owner) && i < |u.plans| && u.plans[i].op(k).Some?
    ensures owner(read.op(u.plans[i].op(k).value).key) == i
  {
  }

  lemma KeepEarlier(read: Reading, owner: string -> nat, h: seq<Moment>, p: nat)
    requires KeepToKeys(read, owner, h) && p <= |h|
    ensures KeepToKeys(read, owner, h[..p])
  {
  }

  lemma Earlier(plan: L.Plan, i: nat, t: seq<Moment>, t': seq<Moment>)
    requires Alternates(plan, i, t) && t' <= t
    ensures Alternates(plan, i, t')
  {
    forall p: nat | p < |t'| ensures InTurn(plan, i, t', p) { assert InTurn(plan, i, t, p); }
  }

  /** Checks pass: in every reachable state, whatever event the checker tries, the step
      succeeds. */
  lemma OwnKeysPass(u: Setup, events: seq<Event>, e: Event, read: Reading, write: Outcome -> Payload, owner: string -> nat)
    requires ServesStore(u, read, write) && OwnKeys(u, read, owner) && AllForesee(u, read, write)
    requires After(u, events).Some? && Offers(After(u, events).value, e)
    ensures Step(u, After(u, events).value, e).Success?
  {
    hide StateOk, Step, Project, History, After, ServesStore, OwnKeys, Played, Planned, Execute, Legal, AppAfter, TracesOk, Recorded;
    var s, h := After(u, events).value, History(u, events);
    RunOk(u, events);
    StepKeepsOk(u, s, e);
    if Step(u, s, e).Failure? {
      var i, r := e.message.dest.index, e.message.message.reply;
      RunHistory(u, events);
      assert |s.clients| == |u.plans| by { ClientCount(u, s); }
      assert e.message == MessageEvent(ClientAddr(i), ReplyMsg(r));
      var p := RecordedAt(u, s, h, i, r);
      assert Foresees(read, write, u.plans[i]);
      ExecutedAsForeseen(u, events, p, read, write, owner);
    }
  }

  lemma ClientCount(u: Setup, s: State)
    requires StateOk(u, s)
    ensures |s.clients| == |u.plans|
  {
  }

  /** The execution a reply in the network comes from. */
  lemma RecordedAt(u: Setup, s: State, h: seq<Moment>, i: nat, r: Reply) returns (p: nat)
    requires HistoryOk(u, s, h) && i < |u.plans| && MessageEvent(ClientAddr(i), ReplyMsg(r)) in s.messages
    ensures p < |h| && h[p].Executed? && h[p].client == i && h[p].seqNum == r.seqNum && h[p].result == r.result
  {
    hide Project, Legal, AppAfter;
    var t := Project(h, i);
    assert Recorded(t, r);
    var n := 3 * r.seqNum - 2;
    assert TraceOk(u.plans[i], i, DryOf(s.clients[i]), s.replica.replies, t);
    assert InTurn(u.plans[i], i, t, n);
    p := Find(h, i, n);
  }
}
