/** The endless workload of the checker's last example: it puts a random text under one of
    five keys of its namespace, then gets one of the five, and so on, and expects to get
    what it put. */
module PutGet {
  import opened Wrappers
  import opened UnreplicatedTypes
  import opened UnreplicatedSpec
  import opened UnreplicatedState
  import opened UnreplicatedRuns
  import opened KvStore
  import opened KvChecks
  import L = CloseLoop

  datatype Generator = Generator(namespace: string, values: seq<string>, shouldGet: bool)

  /** What the random source gives for one op: which of the five keys, and the text. */
  datatype Pick = Pick(index: nat, text: string)

  predicate Drawn(pick: Pick) {
    pick.index < 5 && |pick.text| == 8
  }

  function Key(namespace: string, index: nat): string
    requires index < 5
  {
    namespace + "-" + ["01234"[index]]
  }

  function Untouched(namespace: string): Generator {
    Generator(namespace, seq(5, _ => ""), false)
  }

  function Advance(g: Generator, pick: Pick): Generator
    requires |g.values| == 5 && pick.index < 5
  {
    g.(shouldGet := !g.shouldGet, values := if g.shouldGet then g.values else g.values[pick.index := pick.text])
  }

  function Give(g: Generator, pick: Pick): (Op, Outcome)
    requires |g.values| == 5 && pick.index < 5
  {
    var key := Key(g.namespace, pick.index);
    if !g.shouldGet then (Put(key, pick.text), PutOk)
    else if g.values[pick.index] == "" then (Get(key), KeyNotFound)
    else (Get(key), GetResult(g.values[pick.index]))
  }

  class InfinitePutGet {
    const namespace: string
    const values: array<string>
    var shouldGet: bool

    ghost predicate Valid() {
      values.Length == 5
    }

    ghost function State(): Generator
      reads this, values
    {
      Generator(namespace, values[..], shouldGet)
    }

    constructor (namespace: string)
      ensures Valid() && fresh(values) && State() == Untouched(namespace)
    {
      this.namespace, shouldGet := namespace, false;
      values := new string[5](_ => "");
      new;
      assert values[..] == Untouched(namespace).values;
    }

    /** The next op and the result it must have. */
    method Next(pick: Pick) returns (op: Op, expected: Outcome)
      requires Valid() && Drawn(pick)
      modifies `shouldGet, values
      ensures State() == Advance(old(State()), pick)
      ensures (op, expected) == Give(old(State()), pick)
    {
      var key := Key(namespace, pick.index);
      if shouldGet {
        op := Get(key);
        expected := if values[pick.index] == "" then KeyNotFound else GetResult(values[pick.index]);
      } else {
        values[pick.index] := pick.text;
        op, expected := Put(key, pick.text), PutOk;
      }
      shouldGet := !shouldGet;
    }
  }

  // The workload of a client

  /** The generator after k ops. */
  function Nth(namespace: string, picks: nat -> Pick, k: nat): (g: Generator)
    requires forall j: nat :: Drawn(picks(j))
    ensures |g.values| == 5 && g.namespace == namespace && (g.shouldGet <==> k % 2 == 1)
  {
    if k == 0 then Untouched(namespace) else Advance(Nth(namespace, picks, k - 1), picks(k - 1))
  }

  lemma NthNext(namespace: string, picks: nat -> Pick, k: nat)
    requires forall j: nat :: Drawn(picks(j))
    ensures
      Nth(namespace, picks, k)
      == if k == 0 then Untouched(namespace) else Advance(Nth(namespace, picks, k - 1), picks(k - 1))
  {
  }

  /** A checking workload that takes its ops and expected results from a generator. */
  ghost predicate Generated(read: Reading, write: Outcome -> Payload, plan: L.Plan, namespace: string, picks: nat -> Pick) {
    && plan.checked && (forall k: nat :: Drawn(picks(k)))
    && forall k: nat ::
         && plan.op(k).Some?
         && (read.op(plan.op(k).value), plan.want(k))
            == (Give(Nth(namespace, picks, k), picks(k)).0, write(Give(Nth(namespace, picks, k), picks(k)).1))
  }

  lemma KeysDiffer(namespace: string, i: nat, other: string, j: nat)
    requires i < 5 && j < 5 && Key(namespace, i) == Key(other, j)
    ensures namespace == other && i == j
  {
    var key := Key(namespace, i);
    assert key[..|key| - 2] == namespace && key[..|key| - 2] == other;
    assert key[|key| - 1] == "01234"[i] == "01234"[j];
  }

  /** What a key holds whose value is this one: the empty text stands for a key never put. */
  function Held(value: string): Option<string> {
    if value == "" then None else Some(value)
  }

  lemma GivenIsHeld(store: Store, g: Generator, pick: Pick, index: nat)
    requires |g.values| == 5 && Drawn(pick) && index < 5
    requires Look(store, Key(g.namespace, index)) == Held(g.values[index])
    ensures
      Look(Execute(store, Give(g, pick).0).0, Key(g.namespace, index)) == Held(Advance(g, pick).values[index])
  {
    hide Execute, Look, Key;
    OneExecuted(store, Give(g, pick).0, Key(g.namespace, index));
    if Key(g.namespace, pick.index) == Key(g.namespace, index) {
      KeysDiffer(g.namespace, pick.index, g.namespace, index);
    }
  }

  lemma NextPlanned(read: Reading, write: Outcome -> Payload, plan: L.Plan, namespace: string, picks: nat -> Pick, k: nat)
    requires Generated(read, write, plan, namespace, picks)
    ensures Planned(read, plan, k + 1) == Planned(read, plan, k) + [Give(Nth(namespace, picks, k), picks(k)).0]
    ensures Drawn(picks(k))
  {
    hide Nth, Give;
    assert (read.op(plan.op(k).value), plan.want(k))
      == (Give(Nth(namespace, picks, k), picks(k)).0, write(Give(Nth(namespace, picks, k), picks(k)).1));
  }

  /** The five values are what a store holds under the five keys. */
  lemma {:induction false} ValuesAreHeld(read: Reading, write: Outcome -> Payload, plan: L.Plan, namespace: string, picks: nat -> Pick,
                                         k: nat, index: nat)
    requires Generated(read, write, plan, namespace, picks) && (forall j: nat :: Drawn(picks(j))) && index < 5
    ensures Look(Played(Planned(read, plan, k)), Key(namespace, index)) == Held(Nth(namespace, picks, k).values[index])
  {
    hide Execute, Look, Key, Held, Planned, Played, Advance, Give, Generated, Nth;
    NthNext(namespace, picks, k);
    if k == 0 {
      NothingHeld(read, plan, namespace, index);
    } else {
      var g, pick := Nth(namespace, picks, k - 1), picks(k - 1);
      ValuesAreHeld(read, write, plan, namespace, picks, k - 1, index);
      NextPlanned(read, write, plan, namespace, picks, k - 1);
      assert Drawn(pick);
      PlayedNext(Planned(read, plan, k - 1), Give(g, pick).0);
      GivenIsHeld(Played(Planned(read, plan, k - 1)), g, pick, index);
    }
  }

  lemma NothingHeld(read: Reading, plan: L.Plan, namespace: string, index: nat)
    requires index < 5
    ensures Look(Played(Planned(read, plan, 0)), Key(namespace, index)) == None == Held(Untouched(namespace).values[index])
  {
  }

  /** What the generator expects is what its own ops return. */
  lemma GeneratedForesees(read: Reading, write: Outcome -> Payload, plan: L.Plan, namespace: string, picks: nat -> Pick)
    requires Generated(read, write, plan, namespace, picks)
    ensures Foresees(read, write, plan)
  {
    hide Planned, Played, Nth;
    forall k: nat | plan.op(k).Some?
      ensures plan.want(k) == write(Execute(Played(Planned(read, plan, k)), read.op(plan.op(k).value)).1)
    {
      ValuesAreHeld(read, write, plan, namespace, picks, k, picks(k).index);
    }
  }

  function PlaceOf(names: seq<string>, name: string): nat {
    if names == [] || names[0] == name then 0 else 1 + PlaceOf(names[1..], name)
  }

  lemma {:induction false} PlaceFound(names: seq<string>, i: nat)
    requires i < |names| && forall a, b | 0 <= a < b < |names| :: names[a] != names[b]
    ensures PlaceOf(names, names[i]) == i
  {
    if i > 0 {
      PlaceFound(names[1..], i - 1);
    }
  }

  /** Whose key it is: the client whose namespace stands before the last two characters. */
  function OwnerOf(names: seq<string>): string -> nat {
    key => if |key| < 2 then 0 else PlaceOf(names, key[..|key| - 2])
  }

  lemma KeyOwner(names: seq<string>, i: nat, index: nat)
    requires i < |names| && index < 5 && forall a, b | 0 <= a < b < |names| :: names[a] != names[b]
    ensures OwnerOf(names)(Key(names[i], index)) == i
  {
    var key := Key(names[i], index);
    assert key[..|key| - 2] == names[i];
    PlaceFound(names, i);
  }

  /** The last example cannot fail: any number of endless put-get clients, each in a namespace
      of its own, and whatever they draw, pass every check in every reachable state. */
  lemma PutGetPasses(u: Setup, events: seq<Event>, e: Event, read: Reading, write: Outcome -> Payload,
                     names: seq<string>, picks: nat -> nat -> Pick)
    requires ServesStore(u, read, write) && |names| == |u.plans|
    requires forall a, b | 0 <= a < b < |names| :: names[a] != names[b]
    requires forall i: nat | i < |u.plans| :: Generated(read, write, u.plans[i], names[i], picks(i))
    requires After(u, events).Some? && Offers(After(u, events).value, e)
    ensures Step(u, After(u, events).value, e).Success?
  {
    hide ServesStore, After, Offers, Step, Foresees, Generated, OwnKeys, OwnerOf;
    forall i: nat | i < |u.plans| ensures Foresees(read, write, u.plans[i]) {
      GeneratedForesees(read, write, u.plans[i], names[i], picks(i));
    }
    PutGetOwnKeys(u, read, write, names, picks);
    OwnKeysPass(u, events, e, read, write, OwnerOf(names));
  }

  lemma PutGetOwnKeys(u: Setup, read: Reading, write: Outcome -> Payload, names: seq<string>, picks: nat -> nat -> Pick)
    requires |names| == |u.plans| && forall a, b | 0 <= a < b < |names| :: names[a] != names[b]
    requires forall i: nat | i < |u.plans| :: Generated(read, write, u.plans[i], names[i], picks(i))
    ensures OwnKeys(u, read, OwnerOf(names))
  {
    hide OwnerOf;
    forall i: nat, k: nat | i < |u.plans| && u.plans[i].op(k).Some?
      ensures OwnerOf(names)(read.op(u.plans[i].op(k).value).key) == i
    {
      assert Generated(read, write, u.plans[i], names[i], picks(i));
      var pick := picks(i)(k);
      assert Drawn(pick) && read.op(u.plans[i].op(k).value) == Give(Nth(names[i], picks(i), k), pick).0;
      KeyOwner(names, i, pick.index);
    }
  }
}
