/** What the breadth-first model checker explores: the runs of a state machine whose states
    are told apart by their dry states only, cut at a depth and at pruned states. */
module SearchSpec {
  import opened Wrappers

  type Error = string

  datatype Machine<!S, T, !E> = Machine(events: S -> seq<E>, step: (S, E) -> Result<S, Error>, dry: S -> T)

  /** What is checked of every new state, and where the search stops going on. */
  datatype Settings<!S> = Settings(holds: S -> bool, goal: S -> bool, prune: S -> bool, maxDepth: Option<nat>)

  datatype SearchResult<S, T, E> =
    | Failed(trace: seq<(E, T)>, event: E, error: Error)
    | InvariantViolation(trace: seq<(E, T)>)
    | GoalFound(state: S)
    | SpaceExhausted
    | Timeout

  /** The state after these events, none if one is not offered or its step fails. */
  ghost function Run<S, T, E>(m: Machine<S, T, E>, init: S, es: seq<E>): Option<S> {
    if es == [] then Some(init)
    else
      match Run(m, init, es[..|es| - 1])
      case None => None
      case Some(s) =>
        var e := es[|es| - 1];
        if e !in m.events(s) then None
        else match m.step(s, e)
          case Failure(_) => None
          case Success(next) => Some(next)
  }

  /** Where a run ends. */
  ghost function EndOf<S, T, E>(m: Machine<S, T, E>, init: S, es: seq<E>): S {
    if Run(m, init, es).Some? then Run(m, init, es).value else init
  }

  ghost predicate Reachable<S(!new), T(!new), E(!new)>(m: Machine<S, T, E>, init: S, s: S) {
    exists es :: Run(m, init, es) == Some(s)
  }

  /** The two states cannot be told apart by their events, steps or verdicts. */
  ghost predicate Alike<S(!new), T(!new), E(!new)>(m: Machine<S, T, E>, g: Settings<S>, s: S, t: S) {
    && (forall e: E :: e in m.events(s) <==> e in m.events(t))
    && (forall e: E :: m.step(s, e).Success? <==> m.step(t, e).Success?)
    && (forall e: E :: m.step(s, e).Success? ==> m.dry(m.step(s, e).value) == m.dry(m.step(t, e).value))
    && g.holds(s) == g.holds(t) && g.goal(s) == g.goal(t) && g.prune(s) == g.prune(t)
  }

  /** Reachable states with the same dry state have the same future and the same verdicts. */
  ghost predicate Congruent<S(!new), T(!new), E(!new)>(m: Machine<S, T, E>, g: Settings<S>, init: S) {
    forall s: S, t: S :: Reachable(m, init, s) && Reachable(m, init, t) && m.dry(s) == m.dry(t) ==> Alike(m, g, s, t)
  }

  /** A run the search may follow: within the depth, through states that are not pruned. */
  ghost predicate Followed<S, T, E>(m: Machine<S, T, E>, g: Settings<S>, init: S, es: seq<E>) {
    && Run(m, init, es).Some?
    && (g.maxDepth.Some? ==> |es| <= g.maxDepth.value)
    && (forall k: nat | 0 < k < |es| :: Run(m, init, es[..k]).Some? && !g.prune(EndOf(m, init, es[..k])))
  }

  /** The state at the end of a followed run would be expanded. */
  ghost predicate Expandable<S, T, E>(m: Machine<S, T, E>, g: Settings<S>, init: S, es: seq<E>) {
    && Followed(m, g, init, es)
    && (g.maxDepth.Some? ==> |es| < g.maxDepth.value)
    && (es != [] ==> !g.prune(EndOf(m, init, es)))
  }

  /** Nothing is wrong within the depth and the pruning: every new state satisfies the
      invariant and is no goal, and no step from a state that is expanded fails. */
  ghost predicate Exhausted<S(!new), T(!new), E(!new)>(m: Machine<S, T, E>, g: Settings<S>, init: S) {
    && (forall es: seq<E> :: Followed(m, g, init, es) ==>
          var s := EndOf(m, init, es);
          m.dry(s) != m.dry(init) ==> g.holds(s) && !g.goal(s))
    && (forall es: seq<E> :: Expandable(m, g, init, es) ==>
          var s := EndOf(m, init, es);
          forall e: E :: e in m.events(s) ==> m.step(s, e).Success?)
  }

  function Events<T, E>(trace: seq<(E, T)>): seq<E> {
    seq(|trace|, i requires 0 <= i < |trace| => trace[i].0)
  }

  /** The trace is a run to this state, and names the dry states along it. */
  ghost predicate RealTrace<S, T, E>(m: Machine<S, T, E>, init: S, trace: seq<(E, T)>, s: S) {
    && Run(m, init, Events(trace)) == Some(s)
    && forall k: nat | k < |trace| ::
         m.dry(EndOf(m, init, Events(trace)[..k + 1])) == trace[k].1
  }

  /** No followed run of fewer steps ends in the same dry state. */
  ghost predicate Shortest<S(!new), T(!new), E(!new)>(m: Machine<S, T, E>, g: Settings<S>, init: S, n: nat, t: T) {
    forall es: seq<E> :: Followed(m, g, init, es) && m.dry(EndOf(m, init, es)) == t ==> |es| >= n
  }
}
