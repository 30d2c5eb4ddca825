/** Timers ordered by deadline.  Time only enters as the instant at which a timer is set. */
module OrderedTimer {
  import opened Wrappers

  datatype TimerState = TimerState(period: nat, deadline: nat)

  /** The order of the deadline set: by instant, then by timer id. */
  predicate Sooner(a: (nat, nat), b: (nat, nat)) {
    a.0 < b.0 || (a.0 == b.0 && a.1 <= b.1)
  }

  ghost predicate Least(deadlines: set<(nat, nat)>, first: (nat, nat)) {
    first in deadlines && forall d <- deadlines :: Sooner(first, d)
  }

  lemma {:induction false} LeastExists(deadlines: set<(nat, nat)>) returns (first: (nat, nat))
    requires deadlines != {}
    ensures Least(deadlines, first)
  {
    first :| first in deadlines;
    if deadlines != {first} {
      var rest := deadlines - {first};
      var other := LeastExists(rest);
      assert forall d <- deadlines :: d == first || d in rest;
      if !Sooner(first, other) {
        first := other;
      }
    }
  }

  // What happens to the timers, seen from outside

  datatype Call = Set(now: nat, period: nat) | Unset(id: nat) | Fire(id: nat)

  /** When the timer that a call sets is due first. */
  datatype Timers = Timers(last: nat, states: map<nat, TimerState>)

  function Deadlines(states: map<nat, TimerState>): set<(nat, nat)> {
    set id <- states :: (states[id].deadline, id)
  }

  /** A timer fires if it is live and none is due before it. */
  ghost predicate Due(t: Timers, id: nat) {
    id in t.states && Least(Deadlines(t.states), (t.states[id].deadline, id))
  }

  function Refreshed(t: Timers, id: nat): Timers
    requires id in t.states
  {
    var s := t.states[id];
    t.(states := t.states[id := s.(deadline := s.deadline + s.period)])
  }

  function Apply(t: Timers, c: Call): Timers {
    match c
    case Set(now, period) => Timers(t.last + 1, t.states[t.last + 1 := TimerState(period, now + period)])
    case Unset(id) => t.(states := t.states - {id})
    case Fire(id) => if id in t.states then Refreshed(t, id) else t
  }

  function After(calls: seq<Call>): Timers {
    if calls == [] then Timers(0, map[]) else Apply(After(calls[..|calls| - 1]), calls[|calls| - 1])
  }

  function Fires(calls: seq<Call>, id: nat): nat {
    if calls == [] then 0
    else Fires(calls[..|calls| - 1], id) + if calls[|calls| - 1] == Fire(id) then 1 else 0
  }

  /** The call that handed out this id. */
  function SetBy(calls: seq<Call>, id: nat): Option<Call> {
    if calls == [] then None
    else
      var before := calls[..|calls| - 1];
      if calls[|calls| - 1].Set? && After(before).last + 1 == id then Some(calls[|calls| - 1])
      else SetBy(before, id)
  }

  /** Only live timers fire. */
  predicate FiresLive(calls: seq<Call>) {
    calls == [] ||
    var before, c := calls[..|calls| - 1], calls[|calls| - 1];
    FiresLive(before) && (c.Fire? ==> c.id in After(before).states)
  }

  lemma {:induction false} NotYetSet(calls: seq<Call>, id: nat)
    requires id > After(calls).last
    ensures id !in After(calls).states && SetBy(calls, id).None?
  {
    if calls != [] {
      NotYetSet(calls[..|calls| - 1], id);
    }
  }

  function DueAt(set_: Call, fires: nat): nat
    requires set_.Set?
  {
    set_.now + set_.period + fires * set_.period
  }

  /** No drift: a live timer is due at the instant it was set for, plus one period for every
      time it fired, however late it was fired. */
  lemma {:induction false} NoDrift(calls: seq<Call>, id: nat)
    requires FiresLive(calls) && id in After(calls).states
    ensures SetBy(calls, id).Some? && SetBy(calls, id).value.Set?
    ensures
      var set_, s := SetBy(calls, id).value, After(calls).states[id];
      s.period == set_.period && s.deadline == DueAt(set_, Fires(calls, id))
  {
    hide DueAt;
    var before, c := calls[..|calls| - 1], calls[|calls| - 1];
    if c.Set? && After(before).last + 1 == id {
      NeverFired(before, id);
      DueAtStart(c);
    } else {
      NoDrift(before, id);
      DueAgain(SetBy(before, id).value, Fires(before, id));
    }
  }

  lemma DueAtStart(set_: Call)
    requires set_.Set?
    ensures DueAt(set_, 0) == set_.now + set_.period
  {
  }

  lemma DueAgain(set_: Call, fires: nat)
    requires set_.Set?
    ensures DueAt(set_, fires + 1) == DueAt(set_, fires) + set_.period
  {
    assert (fires + 1) * set_.period == fires * set_.period + set_.period;
  }

  lemma {:induction false} NeverFired(calls: seq<Call>, id: nat)
    requires FiresLive(calls) && id > After(calls).last
    ensures Fires(calls, id) == 0
  {
    if calls != [] {
      var before := calls[..|calls| - 1];
      NeverFired(before, id);
      NotYetSet(before, id);
    }
  }

  /** A timer with this id was live and was unset. */
  predicate Unsets(calls: seq<Call>, id: nat) {
    calls != [] &&
    var before, c := calls[..|calls| - 1], calls[|calls| - 1];
    Unsets(before, id) || (c == Unset(id) && id in After(before).states)
  }

  /** The live timers are those that were set and not unset since, whatever fired. */
  lemma {:induction false} LiveExactly(calls: seq<Call>, id: nat)
    ensures id in After(calls).states <==> SetBy(calls, id).Some? && !Unsets(calls, id)
    ensures id > After(calls).last ==> !Unsets(calls, id)
  {
    if calls != [] {
      var before := calls[..|calls| - 1];
      LiveExactly(before, id);
      if id > After(before).last {
        NotYetSet(before, id);
      }
    }
  }

  /** After the least deadline fired none is left behind it. */
  lemma NoneLeftBehind(t: Timers, id: nat)
    requires Due(t, id)
    ensures forall d <- Deadlines(Refreshed(t, id).states) :: Sooner((t.states[id].deadline, id), d)
  {
    var t' := Refreshed(t, id);
    forall d <- Deadlines(t'.states) ensures Sooner((t.states[id].deadline, id), d) {
      if d.1 != id {
        assert d in Deadlines(t.states);
      }
    }
  }

  datatype Error = MissingTimer | Inconsistent | NoDeadlines

  class Timer {
    var id: nat
    var deadlines: set<(nat, nat)>
    var states: map<nat, TimerState>

    ghost function State(): Timers
      reads this
    {
      Timers(id, states)
    }

    /** The two tables agree, and ids were handed out in order. */
    ghost predicate Valid()
      reads this
    {
      deadlines == Deadlines(states) && forall i <- states :: i <= id
    }

    constructor ()
      ensures Valid() && State() == After([])
    {
      id, deadlines, states := 0, {}, map[];
    }

    method Set(now: nat, period: nat) returns (timer: nat)
      requires Valid()
      modifies this
      ensures Valid() && State() == Apply(old(State()), Call.Set(now, period)) && timer == id
      ensures timer !in old(states)
    {
      id := id + 1;
      timer := id;
      var deadline := now + period;
      ghost var before := states;
      states := states[timer := TimerState(period, deadline)];
      deadlines := deadlines + {(deadline, timer)};
      assert forall i <- before :: states[i] == before[i];
      assert timer in states;
    }

    /** The tables are never found inconsistent: it fails only for a timer that is not live. */
    method Unset(timer: nat) returns (r: Result<(), Error>)
      requires Valid()
      modifies this
      ensures Valid() && State() == Apply(old(State()), Call.Unset(timer))
      ensures r == if timer in old(states) then Success(()) else Failure(MissingTimer)
    {
      if timer !in states {
        assert states - {timer} == states;
        return Failure(MissingTimer);
      }
      var state := states[timer];
      ghost var before := states;
      states := states - {timer};
      var removed := (state.deadline, timer) in deadlines;
      deadlines := deadlines - {(state.deadline, timer)};
      assert forall i <- before :: i in states || i == timer;
      if !removed {
        return Failure(Inconsistent);
      }
      return Success(());
    }

    /** The instant at which the next timer is due. */
    method Deadline() returns (d: Option<nat>)
      requires Valid()
      ensures d.None? <==> states == map[]
      ensures d.Some? ==> (exists i <- states :: states[i].deadline == d.value) && forall i <- states :: d.value <= states[i].deadline
    {
      if deadlines == {} {
        assert forall i <- states :: (states[i].deadline, i) in deadlines;
        return None;
      }
      ghost var least := LeastExists(deadlines);
      var first :| first in deadlines && forall x <- deadlines :: Sooner(first, x);
      forall i <- states ensures first.0 <= states[i].deadline {
        assert (states[i].deadline, i) in deadlines;
        assert Sooner(first, (states[i].deadline, i));
      }
      return Some(first.0);
    }

    /** Fires a timer that is due before all others, and sets it one period later. */
    method Advance() returns (r: Result<nat, Error>)
      requires Valid()
      modifies this
      ensures Valid()
      ensures r.Failure? <==> old(states) == map[]
      ensures r.Failure? ==> r.error == NoDeadlines && State() == old(State())
      ensures r.Success? ==> Due(old(State()), r.value) && State() == Apply(old(State()), Fire(r.value))
    {
      if deadlines == {} {
        assert forall i <- states :: (states[i].deadline, i) in deadlines;
        return Failure(NoDeadlines);
      }
      ghost var least := LeastExists(deadlines);
      var first :| first in deadlines && forall x <- deadlines :: Sooner(first, x);
      deadlines := deadlines - {first};
      var timer := first.1;
      if timer !in states {
        return Failure(Inconsistent);
      }
      var state := states[timer];
      ghost var before := states;
      states := states[timer := state.(deadline := state.deadline + state.period)];
      deadlines := deadlines + {(state.deadline + state.period, timer)};
      assert forall i <- before :: i != timer ==> states[i] == before[i];
      assert timer in states;
      return Success(timer);
    }
  }
}
