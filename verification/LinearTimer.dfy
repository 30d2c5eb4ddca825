/** The timer service of the model checker: timers in the order in which they fire. */
module LinearTimer {
  import opened Wrappers
  import opened UnreplicatedTypes

  datatype Alarm = Alarm(id: nat, period: nat)

  datatype Timer = Timer(events: seq<Alarm>, lastId: nat)

  const NewTimer := Timer([], 0)

  function Set(t: Timer, period: nat): Timer {
    Timer(t.events + [Alarm(t.lastId + 1, period)], t.lastId + 1)
  }

  /** Where the first alarm with this id is, or the end. */
  function Position(events: seq<Alarm>, id: nat): (i: nat)
    ensures i <= |events|
    ensures i < |events| ==> events[i].id == id
    ensures forall j | 0 <= j < i :: events[j].id != id
  {
    if events == [] || events[0].id == id then 0 else 1 + Position(events[1..], id)
  }

  function Removed(t: Timer, i: nat): Timer
    requires i < |t.events|
  {
    t.(events := t.events[..i] + t.events[i + 1..])
  }

  function Unset(t: Timer, id: nat): Fallible<Timer> {
    var i := Position(t.events, id);
    if i == |t.events| then Failure(TimerNotFound) else Success(Removed(t, i))
  }

  /** A timer that fires goes to the end. */
  function StepTimer(t: Timer, id: nat): Fallible<Timer> {
    var i := Position(t.events, id);
    if i == |t.events| then Failure(TimerNotFound)
    else Success(Removed(t, i).(events := Removed(t, i).events + [t.events[i]]))
  }

  /** How many alarms from the front have periods that strictly decrease. */
  function Descent(events: seq<Alarm>): (n: nat)
    ensures n <= |events| && (events != [] ==> n >= 1)
    ensures forall i, j | 0 <= i < j < n :: events[i].period > events[j].period
    ensures 0 < n < |events| ==> events[n].period >= events[n - 1].period
  {
    if |events| <= 1 then |events|
    else if events[1].period >= events[0].period then 1
    else 1 + Descent(events[1..])
  }

  predicate Descends(events: seq<Alarm>, n: nat) {
    n <= |events| && forall i: nat, j: nat | i < j < n :: events[i].period > events[j].period
  }

  /** The descent is the longest run of decreasing periods from the front. */
  lemma DescentIsLongest(events: seq<Alarm>, n: nat)
    requires Descends(events, n) && (events != [] ==> n >= 1)
    requires n < |events| && n >= 1 ==> events[n].period >= events[n - 1].period
    ensures n == Descent(events)
  {
  }

  /** The timers the checker may let fire next. */
  function Offered(t: Timer): (ids: seq<nat>)
    ensures |ids| == Descent(t.events) && forall i | 0 <= i < |ids| :: ids[i] == t.events[i].id
  {
    seq(Descent(t.events), i requires 0 <= i < Descent(t.events) => t.events[i].id)
  }

  /** Firing a timer keeps the set of live timers; setting adds a new one while ids are
      handed out in order; unsetting takes away exactly the timer named. */
  predicate Ordered(t: Timer) {
    && (forall i, j | 0 <= i < j < |t.events| :: t.events[i].id != t.events[j].id)
    && (forall i | 0 <= i < |t.events| :: 1 <= t.events[i].id <= t.lastId)
  }

  lemma RemovedAlarm(t: Timer, i: nat, a: Alarm)
    requires Ordered(t) && i < |t.events|
    ensures a in Removed(t, i).events <==> a in t.events && a != t.events[i]
  {
    var events := Removed(t, i).events;
    if a in t.events && a != t.events[i] {
      var j :| 0 <= j < |t.events| && t.events[j] == a;
      assert events[if j < i then j else j - 1] == a;
    }
    if a in events {
      var j :| 0 <= j < |events| && events[j] == a;
      assert a == t.events[if j < i then j else j + 1];
    }
  }

  lemma RemovedOrdered(t: Timer, i: nat)
    requires Ordered(t) && i < |t.events|
    ensures Ordered(Removed(t, i))
  {
    var t' := Removed(t, i);
    assert forall j | 0 <= j < |t'.events| :: t'.events[j] == t.events[if j < i then j else j + 1];
  }

  lemma RemovedAlarms(t: Timer, id: nat)
    requires Ordered(t) && Position(t.events, id) < |t.events|
    ensures
      var t' := Removed(t, Position(t.events, id));
      && Ordered(t')
      && (forall a :: a in t'.events <==> a in t.events && a.id != id)
  {
    hide Removed;
    var i := Position(t.events, id);
    RemovedOrdered(t, i);
    forall a: Alarm ensures a in Removed(t, i).events <==> a in t.events && a.id != id {
      RemovedAlarm(t, i, a);
      if a in t.events { OneAlarm(t, i, a); }
    }
  }

  lemma OneAlarm(t: Timer, i: nat, a: Alarm)
    requires Ordered(t) && i < |t.events| && a in t.events
    ensures a.id == t.events[i].id <==> a == t.events[i]
  {
    var j :| 0 <= j < |t.events| && t.events[j] == a;
  }

  /** The timer service keeps exactly the timers set and not unset, firing or not. */
  lemma TimersKept(t: Timer, id: nat, period: nat)
    requires Ordered(t)
    ensures Ordered(Set(t, period)) && forall a :: a in Set(t, period).events <==> a in t.events || a == Alarm(t.lastId + 1, period)
    ensures Unset(t, id).Failure? <==> forall a <- t.events :: a.id != id
    ensures Unset(t, id).Success? ==>
              Ordered(Unset(t, id).value) && forall a :: a in Unset(t, id).value.events <==> a in t.events && a.id != id
    ensures StepTimer(t, id).Success? <==> Unset(t, id).Success?
    ensures StepTimer(t, id).Success? ==>
              Ordered(StepTimer(t, id).value) && forall a :: a in StepTimer(t, id).value.events <==> a in t.events
  {
    var i := Position(t.events, id);
    if i < |t.events| {
      RemovedAlarms(t, id);
      SteppedAlarms(t, i);
    }
  }

  lemma SteppedAlarms(t: Timer, i: nat)
    requires Ordered(t) && i < |t.events|
    ensures
      var t' := Removed(t, i).(events := Removed(t, i).events + [t.events[i]]);
      Ordered(t') && forall a :: a in t'.events <==> a in t.events
  {
    hide Ordered;
    var events := Removed(t, i).events;
    var t' := Removed(t, i).(events := events + [t.events[i]]);
    forall a: Alarm ensures a in t'.events <==> a in t.events {
      RemovedAlarm(t, i, a);
    }
    RemovedOrdered(t, i);
    forall j | 0 <= j < |events| ensures events[j].id != t.events[i].id {
      assert events[j] in events;
      RemovedAlarm(t, i, events[j]);
      OneAlarm(t, i, events[j]);
    }
    AppendOrdered(Removed(t, i), t.events[i], t);
  }

  lemma AppendOrdered(t: Timer, a: Alarm, u: Timer)
    requires Ordered(t) && Ordered(u) && a in u.events && u.lastId == t.lastId
    requires forall j | 0 <= j < |t.events| :: t.events[j].id != a.id
    ensures Ordered(t.(events := t.events + [a]))
  {
  }

  /** A timer that fires goes behind the others, which keep their order; one that is unset
      leaves them in it. */
  lemma FiredGoesLast(t: Timer, id: nat) returns (before: seq<Alarm>, fired: Alarm, after: seq<Alarm>)
    requires StepTimer(t, id).Success?
    ensures fired.id == id && t.events == before + [fired] + after
    ensures StepTimer(t, id).value == t.(events := before + after + [fired])
    ensures Unset(t, id) == Success(t.(events := before + after))
  {
    var i := Position(t.events, id);
    before, fired, after := t.events[..i], t.events[i], t.events[i + 1..];
  }

  /** A lone timer can fire any number of times without a change. */
  lemma LoneTimer(t: Timer, a: Alarm)
    requires t.events == [a]
    ensures Offered(t) == [a.id] && StepTimer(t, a.id) == Success(t)
  {
    assert [a][..0] + [a][1..] == [];
    assert Removed(t, 0).events + [a] == [a];
  }
}
