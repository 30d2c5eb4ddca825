/** Linearizability of the unreplicated protocol, for any number of clients and any run. */
module Linearizability {
  import opened Wrappers
  import opened UnreplicatedTypes
  import opened UnreplicatedSpec
  import opened UnreplicatedState
  import opened UnreplicatedRuns
  import opened UnreplicatedHistory
  import L = CloseLoop

  /** The executions of a run are a sequential execution of the application; each client's
      moments are invoke 1, execute 1, return 1, invoke 2, ... without a gap or a repetition;
      and what a recording workload keeps are those operations with the results executed. */
  lemma Linearizable(u: Setup, events: seq<Event>)
    requires After(u, events).Some?
    ensures
      var s, h := After(u, events).value, History(u, events);
      && Legal(u, h) && AppAfter(u, h) == s.replica.app
      && (forall m <- h :: m.client < |u.plans|)
      && (forall i: nat | i < |u.plans| :: Alternates(u.plans[i], i, Project(h, i)))
      && (forall i: nat | i < |u.plans| ::
            var t, done := Project(h, i), s.clients[i].loop.workload.invocations;
            && |done| == (if u.plans[i].recorded then |t| / 3 else 0)
            && forall j: nat | j < |done| :: t[3 * j + 1].Executed? && done[j] == (t[3 * j + 1].op, t[3 * j + 1].result))
  {
    hide Alternates, Legal, AppAfter, Project;
    RunHistory(u, events);
    var s, h := After(u, events).value, History(u, events);
    forall i: nat | i < |u.plans|
      ensures TraceOk(u.plans[i], i, DryOf(s.clients[i]), s.replica.replies, Project(h, i))
    {
    }
  }

  // Where a client's moments are in the whole history

  lemma {:induction false} Place(h: seq<Moment>, i: nat, p: nat)
    requires p < |h| && h[p].client == i
    ensures |Project(h[..p], i)| < |Project(h, i)|
    ensures Project(h[..p], i) <= Project(h, i) && Project(h, i)[|Project(h[..p], i)|] == h[p]
  {
    var before := h[..|h| - 1];
    if p < |h| - 1 {
      Place(before, i, p);
      assert before[..p] == h[..p];
    }
  }

  /** Earlier moments of a client come earlier among its moments. */
  lemma PlacesInOrder(h: seq<Moment>, i: nat, p: nat, q: nat)
    requires p < q < |h| && h[p].client == i
    ensures |Project(h[..p], i)| < |Project(h[..q], i)|
  {
    Place(h[..q], i, p);
    assert h[..q][..p] == h[..p];
  }

  lemma {:induction false} Find(h: seq<Moment>, i: nat, n: nat) returns (p: nat)
    requires n < |Project(h, i)|
    ensures p < |h| && h[p] == Project(h, i)[n] && h[p].client == i && |Project(h[..p], i)| == n
  {
    var before := h[..|h| - 1];
    if n < |Project(before, i)| {
      p := Find(before, i, n);
      assert before[..p] == h[..p];
    } else {
      p := |h| - 1;
    }
  }

  function Turn(m: Moment): int {
    match m
    case Invoked(_, k, _) => 3 * k - 3
    case Executed(_, k, _, _) => 3 * k - 2
    case Returned(_, k, _) => 3 * k - 1
  }

  /** The kind and number of a moment give its place among its client's moments. */
  lemma PlaceIsTurn(u: Setup, events: seq<Event>, p: nat)
    requires After(u, events).Some? && p < |History(u, events)|
    ensures
      var h := History(u, events);
      |Project(h[..p], h[p].client)| == Turn(h[p])
  {
    hide Project, Legal, AppAfter;
    Linearizable(u, events);
    var h := History(u, events);
    var i := h[p].client;
    assert h[p] in h;
    Place(h, i, p);
    assert InTurn(u.plans[i], i, Project(h, i), |Project(h[..p], i)|);
  }

  /** Two moments of one client are in the order of their turns. */
  lemma TurnsInOrder(u: Setup, events: seq<Event>, p: nat, q: nat)
    requires After(u, events).Some? && p < |History(u, events)| && q < |History(u, events)|
    requires History(u, events)[p].client == History(u, events)[q].client
    ensures p < q <==> Turn(History(u, events)[p]) < Turn(History(u, events)[q])
  {
    hide Project, History, Turn;
    var h := History(u, events);
    PlaceIsTurn(u, events, p);
    PlaceIsTurn(u, events, q);
    if p < q {
      PlacesInOrder(h, h[p].client, p, q);
    } else if q < p {
      PlacesInOrder(h, h[p].client, q, p);
    }
  }

  /** No operation is executed twice, however often its request is delivered. */
  lemma ExecutedOnce(u: Setup, events: seq<Event>, a: nat, b: nat)
    requires After(u, events).Some? && a < |History(u, events)| && b < |History(u, events)|
    requires
      var h := History(u, events);
      && h[a].Executed? && h[b].Executed? && h[a].client == h[b].client && h[a].seqNum == h[b].seqNum
    ensures a == b
  {
    hide History;
    TurnsInOrder(u, events, a, b);
    TurnsInOrder(u, events, b, a);
  }

  lemma BeforeReturn(plan: L.Plan, i: nat, t: seq<Moment>, n: nat)
    requires Alternates(plan, i, t) && n < |t| && t[n].Returned?
    ensures n >= 2
    ensures t[n - 2].Invoked? && t[n - 2].client == t[n].client && t[n - 2].seqNum == t[n].seqNum
    ensures t[n - 1] == Executed(t[n].client, t[n].seqNum, t[n - 2].op, t[n].result)
  {
    assert InTurn(plan, i, t, n) && InTurn(plan, i, t, n - 1) && InTurn(plan, i, t, n - 2);
  }

  /** Every returned result was executed, between the invoke and the return. */
  lemma ExecutedInBetween(u: Setup, events: seq<Event>, q: nat) returns (p: nat, a: nat)
    requires After(u, events).Some? && q < |History(u, events)| && History(u, events)[q].Returned?
    ensures p < a < q
    ensures
      var h := History(u, events);
      && h[p].Invoked? && h[p].client == h[q].client && h[p].seqNum == h[q].seqNum
      && h[a] == Executed(h[q].client, h[q].seqNum, h[p].op, h[q].result)
  {
    hide Project, History, Legal, AppAfter, Alternates, After;
    Linearizable(u, events);
    var h := History(u, events);
    var i := h[q].client;
    assert h[q] in h;
    Place(h, i, q);
    PlaceIsTurn(u, events, q);
    var n := |Project(h[..q], i)|;
    BeforeReturn(u.plans[i], i, Project(h, i), n);
    p := Find(h, i, n - 2);
    a := Find(h, i, n - 1);
    TurnsInOrder(u, events, p, a);
    TurnsInOrder(u, events, a, q);
  }

  /** An operation invoked after another one returned is executed after it. */
  lemma RealTimeOrder(u: Setup, events: seq<Event>, a: nat, q: nat, p: nat, b: nat)
    requires After(u, events).Some?
    requires
      var h := History(u, events);
      && a < |h| && b < |h| && q < p < |h|
      && h[a].Executed? && h[q].Returned? && h[a].client == h[q].client && h[a].seqNum == h[q].seqNum
      && h[p].Invoked? && h[b].Executed? && h[p].client == h[b].client && h[p].seqNum == h[b].seqNum
    ensures a < q < p < b
  {
    hide History;
    TurnsInOrder(u, events, a, q);
    TurnsInOrder(u, events, p, b);
  }

  // Appending to one key

  /** Executing this op appends to the text the application holds and returns the whole of it. */
  ghost predicate AppendsOp(u: Setup, op: Payload, held: AppState -> string, added: Payload -> string, shown: Payload -> string) {
    forall app ::
      && held(u.execute(app, op).0) == held(app) + added(op)
      && shown(u.execute(app, op).1) == held(app) + added(op)
  }

  /** Every op a workload plans appends; the application may well have others. */
  ghost predicate Appends(u: Setup, held: AppState -> string, added: Payload -> string, shown: Payload -> string) {
    forall i: nat, k: nat | i < |u.plans| && u.plans[i].op(k).Some? :: AppendsOp(u, u.plans[i].op(k).value, held, added, shown)
  }

  ghost predicate AllAppend(u: Setup, h: seq<Moment>, held: AppState -> string, added: Payload -> string, shown: Payload -> string) {
    forall m <- h | m.Executed? :: AppendsOp(u, m.op, held, added, shown)
  }

  /** Nothing but planned ops is ever executed. */
  lemma ExecutedIsPlanned(u: Setup, events: seq<Event>, held: AppState -> string, added: Payload -> string, shown: Payload -> string)
    requires After(u, events).Some? && Appends(u, held, added, shown)
    ensures AllAppend(u, History(u, events), held, added, shown)
  {
    hide Project, Legal, AppAfter, AppendsOp, History, After;
    Linearizable(u, events);
    var h := History(u, events);
    forall m <- h | m.Executed? ensures AppendsOp(u, m.op, held, added, shown) {
      var p: nat :| p < |h| && h[p] == m;
      var i := m.client;
      Place(h, i, p);
      var k := |Project(h[..p], i)|;
      assert InTurn(u.plans[i], i, Project(h, i), k);
      assert u.plans[i].op(k / 3) == Some(m.op);
    }
  }

  lemma {:induction false} TextGrows(u: Setup, h: seq<Moment>, p: nat,
                                     held: AppState -> string, added: Payload -> string, shown: Payload -> string)
    requires AllAppend(u, h, held, added, shown) && p <= |h|
    ensures held(AppAfter(u, h[..p])) <= held(AppAfter(u, h))
  {
    if p < |h| {
      var before := h[..|h| - 1];
      TextGrows(u, before, p, held, added, shown);
      assert before[..p] == h[..p];
      var last := h[|h| - 1];
      if last.Executed? {
        assert AppendsOp(u, last.op, held, added, shown);
      }
    } else {
      assert h[..p] == h;
    }
  }

  /** What an execution returned is the text right after it. */
  lemma ShownText(u: Setup, h: seq<Moment>, p: nat, held: AppState -> string, added: Payload -> string, shown: Payload -> string)
    requires Legal(u, h) && p < |h| && h[p].Executed? && AppendsOp(u, h[p].op, held, added, shown)
    ensures shown(h[p].result) == held(AppAfter(u, h[..p + 1])) == held(AppAfter(u, h[..p])) + added(h[p].op)
  {
    assert h[..p + 1][..p] == h[..p];
  }

  /** The invariant of the append checks, for any number of clients and operations: every
      result ends with what its op added, and of two results the shorter one is a prefix
      of the other. */
  lemma AppendLinearizable(u: Setup, events: seq<Event>, i: nat, a: nat, j: nat, b: nat,
                           held: AppState -> string, added: Payload -> string, shown: Payload -> string)
    requires Appends(u, held, added, shown)
    requires After(u, events).Some? && i < |u.plans| && j < |u.plans|
    requires a < |After(u, events).value.clients[i].loop.workload.invocations|
    requires b < |After(u, events).value.clients[j].loop.workload.invocations|
    ensures
      var (op, result) := After(u, events).value.clients[i].loop.workload.invocations[a];
      var (_, other) := After(u, events).value.clients[j].loop.workload.invocations[b];
      && (exists before :: shown(result) == before + added(op))
      && (|shown(result)| <= |shown(other)| ==> shown(result) <= shown(other))
  {
    hide Project, History, AppAfter, After, Legal, Appends, AppendsOp;
    Linearizable(u, events);
    ExecutedIsPlanned(u, events, held, added, shown);
    var h := History(u, events);
    var p := Find(h, i, 3 * a + 1);
    var q := Find(h, j, 3 * b + 1);
    ShownText(u, h, p, held, added, shown);
    ShownText(u, h, q, held, added, shown);
    if p <= q {
      TextGrows(u, h[..q + 1], p + 1, held, added, shown);
      assert h[..q + 1][..p + 1] == h[..p + 1];
    } else {
      TextGrows(u, h[..p + 1], q + 1, held, added, shown);
      assert h[..p + 1][..q + 1] == h[..q + 1];
    }
  }
}
