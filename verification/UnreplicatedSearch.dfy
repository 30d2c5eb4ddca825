/** The search applied to the unreplicated protocol: what it assumes of dry states holds. */
module UnreplicatedSearch {
  import opened Wrappers
  import opened UnreplicatedTypes
  import opened UnreplicatedSpec
  import opened UnreplicatedState
  import opened UnreplicatedRuns
  import M = SearchSpec
  import Search

  /** A list of the events a state offers, in whatever order. */
  ghost predicate Lists(list: State -> seq<Event>) {
    forall s, e :: e in list(s) <==> Offers(s, e)
  }

  function Stepped(u: Setup, s: State, e: Event): Result<State, M.Error> {
    if |s.clients| != |u.plans| then Failure("other clients")
    else
      match Step(u, s, e)
      case Success(next) => Success(next)
      case Failure(_) => Failure("failed step")
  }

  function Checker(u: Setup, list: State -> seq<Event>): M.Machine<State, DryState, Event> {
    M.Machine(list, (s, e) => Stepped(u, s, e), Dry)
  }

  /** The search's runs are the checker's runs. */
  lemma {:induction false} SameRuns(u: Setup, list: State -> seq<Event>, es: seq<Event>)
    requires Lists(list) && Launch(u).Success?
    ensures M.Run(Checker(u, list), Launch(u).value, es) == After(u, es)
  {
    hide Step, Launch, Offers;
    if es != [] {
      SameRuns(u, list, es[..|es| - 1]);
    }
  }

  /** Reachable states with the same dry state are the same state, so no invariant, goal or
      pruning can tell them apart. */
  lemma DryStatesAreCongruent(u: Setup, list: State -> seq<Event>, g: M.Settings<State>)
    requires Lists(list) && Launch(u).Success?
    ensures M.Congruent(Checker(u, list), g, Launch(u).value)
  {
    hide Launch, Step, Rehydrate, Dry, Lists;
    var m, init := Checker(u, list), Launch(u).value;
    forall s: State, t: State | M.Reachable(m, init, s) && M.Reachable(m, init, t) && m.dry(s) == m.dry(t)
      ensures M.Alike(m, g, s, t)
    {
      var es :| M.Run(m, init, es) == Some(s);
      var fs :| M.Run(m, init, fs) == Some(t);
      SameRuns(u, list, es);
      SameRuns(u, list, fs);
      DryDeterminesState(u, es);
      DryDeterminesState(u, fs);
    }
  }

  /** Searching the launched state is complete, whatever is checked and within any depth. */
  method Check(u: Setup, list: State -> seq<Event>, g: M.Settings<State>, budget: nat)
    returns (result: Result<M.SearchResult<State, DryState, Event>, Error>)
    requires Lists(list) && g.maxDepth != Some(0)
    ensures result.Failure? <==> Launch(u).Failure?
    ensures result.Success? ==> Search.Correct(Checker(u, list), g, Launch(u).value, budget, result.value)
  {
    hide Launch;
    var launched := Launch(u);
    if launched.Failure? {
      return Failure(launched.error);
    }
    DryStatesAreCongruent(u, list, g);
    var found := Search.BreadthFirst(Checker(u, list), g, launched.value, budget);
    return Success(found);
  }
}
