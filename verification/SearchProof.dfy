/** Why the search is complete and its traces are real and shortest. */
module SearchProof {
  import opened Wrappers
  import opened SearchSpec

  /** How a dry state was found first, and after how many steps. */
  datatype Info<T, E> = Info(prev: Option<(E, T)>, depth: nat)

  type Discovered<T, E> = map<T, Info<T, E>>

  // What the table of discovered states keeps

  ghost predicate Edge<S(!new), T(!new), E(!new)>(m: Machine<S, T, E>, init: S, p: T, e: E, t: T) {
    exists s: S ::
      && Reachable(m, init, s) && m.dry(s) == p && e in m.events(s)
      && m.step(s, e).Success? && m.dry(m.step(s, e).value) == t
  }

  /** Depth falls by one along prev, down to the initial state. */
  predicate Chained<T, E>(d: Discovered<T, E>) {
    forall t <- d :: d[t].prev.Some? ==> d[t].prev.value.1 in d && d[t].depth == d[d[t].prev.value.1].depth + 1
  }

  ghost predicate LinksOk<S(!new), T(!new), E(!new)>(m: Machine<S, T, E>, init: S, d: Discovered<T, E>) {
    && m.dry(init) in d && d[m.dry(init)] == Info(None, 0)
    && Chained(d)
    && (forall t <- d :: d[t].prev.None? ==> t == m.dry(init))
    && (forall t <- d :: d[t].prev.Some? ==> Edge(m, init, d[t].prev.value.1, d[t].prev.value.0, t))
  }

  /** The state was checked when it was found. */
  ghost predicate Clean<S(!new), T(!new), E(!new)>(m: Machine<S, T, E>, g: Settings<S>, init: S, t: T) {
    exists s: S :: Reachable(m, init, s) && m.dry(s) == t && g.holds(s) && !g.goal(s)
  }

  ghost predicate Pruned<S(!new), T(!new), E(!new)>(m: Machine<S, T, E>, g: Settings<S>, init: S, t: T) {
    exists s: S :: Reachable(m, init, s) && m.dry(s) == t && g.prune(s)
  }

  /** Every step from the state succeeds and leads to a state found no later than it should. */
  ghost predicate Expanded<S(!new), T(!new), E(!new)>(m: Machine<S, T, E>, init: S, d: Discovered<T, E>, t: T)
    requires t in d
  {
    forall s: S, e: E :: Reachable(m, init, s) && m.dry(s) == t && e in m.events(s) ==>
      && m.step(s, e).Success?
      && var next := m.dry(m.step(s, e).value);
      && next in d && d[next].depth <= d[t].depth + 1
  }

  /** The search does not go on from here. */
  ghost predicate Cut<S(!new), T(!new), E(!new)>(m: Machine<S, T, E>, g: Settings<S>, init: S, d: Discovered<T, E>, t: T)
    requires t in d
  {
    || (t != m.dry(init) && Pruned(m, g, init, t))
    || (g.maxDepth.Some? && d[t].depth >= g.maxDepth.value)
  }

  ghost predicate Frontier<S(!new), T(!new), E(!new)>(m: Machine<S, T, E>, g: Settings<S>, init: S, d: Discovered<T, E>, open: set<T>) {
    forall t <- d :: t in open || Expanded(m, init, d, t) || Cut(m, g, init, d, t)
  }

  ghost predicate AllClean<S(!new), T(!new), E(!new)>(m: Machine<S, T, E>, g: Settings<S>, init: S, d: Discovered<T, E>) {
    forall t <- d :: t != m.dry(init) ==> Clean(m, g, init, t)
  }

  // Runs

  lemma RunStep<S(!new), T(!new), E(!new)>(m: Machine<S, T, E>, init: S, es: seq<E>, e: E)
    requires Run(m, init, es).Some? && e in m.events(EndOf(m, init, es))
    requires m.step(EndOf(m, init, es), e).Success?
    ensures Run(m, init, es + [e]) == Some(m.step(EndOf(m, init, es), e).value)
  {
    assert (es + [e])[..|es|] == es;
  }

  lemma NextReachable<S(!new), T(!new), E(!new)>(m: Machine<S, T, E>, init: S, s: S, e: E)
    requires Reachable(m, init, s) && e in m.events(s) && m.step(s, e).Success?
    ensures Reachable(m, init, m.step(s, e).value)
  {
    var es :| Run(m, init, es) == Some(s);
    RunStep(m, init, es, e);
  }

  lemma FollowedPrefix<S(!new), T(!new), E(!new)>(m: Machine<S, T, E>, g: Settings<S>, init: S, es: seq<E>)
    requires es != [] && Followed(m, g, init, es)
    ensures Followed(m, g, init, es[..|es| - 1])
    ensures es[..|es| - 1] != [] ==> !g.prune(EndOf(m, init, es[..|es| - 1]))
  {
    var before := es[..|es| - 1];
    forall k: nat | 0 < k < |before| ensures Run(m, init, before[..k]).Some? && !g.prune(EndOf(m, init, before[..k])) {
      assert before[..k] == es[..k];
    }
    if before != [] {
      assert es[..|before|] == before;
    }
  }

  // Every state within reach of a finished level was found in time

  lemma {:induction false} FoundInTime<S(!new), T(!new), E(!new)>(
      m: Machine<S, T, E>, g: Settings<S>, init: S, d: Discovered<T, E>, open: set<T>, level: nat, es: seq<E>)
    requires Congruent(m, g, init) && LinksOk(m, init, d) && Frontier(m, g, init, d, open)
    requires forall t <- open :: t in d && d[t].depth >= level
    requires Followed(m, g, init, es) && |es| <= level
    ensures m.dry(EndOf(m, init, es)) in d
    ensures d[m.dry(EndOf(m, init, es))].depth <= |es|
  {
    if es != [] {
      var before, e := es[..|es| - 1], es[|es| - 1];
      FollowedPrefix(m, g, init, es);
      FoundInTime(m, g, init, d, open, level, before);
      var s := EndOf(m, init, before);
      NotCut(m, g, init, d, before);
      assert Reachable(m, init, s);
    }
  }

  lemma NotCut<S(!new), T(!new), E(!new)>(m: Machine<S, T, E>, g: Settings<S>, init: S, d: Discovered<T, E>, es: seq<E>)
    requires Congruent(m, g, init) && Run(m, init, es).Some? && m.dry(EndOf(m, init, es)) in d
    requires es != [] ==> !g.prune(EndOf(m, init, es))
    requires g.maxDepth.Some? ==> d[m.dry(EndOf(m, init, es))].depth < g.maxDepth.value
    ensures !Cut(m, g, init, d, m.dry(EndOf(m, init, es)))
  {
    var s := EndOf(m, init, es);
    assert Reachable(m, init, s);
    PrunedAlike(m, g, init, s);
  }

  lemma PrunedAlike<S(!new), T(!new), E(!new)>(m: Machine<S, T, E>, g: Settings<S>, init: S, s: S)
    requires Congruent(m, g, init) && Reachable(m, init, s)
    ensures Pruned(m, g, init, m.dry(s)) ==> g.prune(s)
  {
    if Pruned(m, g, init, m.dry(s)) {
      var p: S :| Reachable(m, init, p) && m.dry(p) == m.dry(s) && g.prune(p);
      assert Alike(m, g, p, s);
    }
  }

  /** With nothing left to expand, the space is exhausted. */
  lemma NothingOpen<S(!new), T(!new), E(!new)>(m: Machine<S, T, E>, g: Settings<S>, init: S, d: Discovered<T, E>)
    requires Congruent(m, g, init) && LinksOk(m, init, d) && Frontier(m, g, init, d, {}) && AllClean(m, g, init, d)
    ensures Exhausted(m, g, init)
  {
    hide Congruent, LinksOk, Frontier, AllClean, Followed, Cut, Expanded;
    forall es: seq<E> | Followed(m, g, init, es) && m.dry(EndOf(m, init, es)) != m.dry(init)
      ensures g.holds(EndOf(m, init, es)) && !g.goal(EndOf(m, init, es))
    {
      FollowedRuns(m, g, init, es);
      FoundInTime(m, g, init, d, {}, |es|, es);
      CleanEnd(m, g, init, d, es);
    }
    forall es: seq<E>, e: E | Expandable(m, g, init, es) && e in m.events(EndOf(m, init, es))
      ensures m.step(EndOf(m, init, es), e).Success?
    {
      FollowedRuns(m, g, init, es);
      FoundInTime(m, g, init, d, {}, |es|, es);
      NotCut(m, g, init, d, es);
      ExpandedEnd(m, g, init, d, es, e);
    }
  }

  lemma FollowedRuns<S(!new), T(!new), E(!new)>(m: Machine<S, T, E>, g: Settings<S>, init: S, es: seq<E>)
    requires Followed(m, g, init, es)
    ensures Run(m, init, es).Some?
  {
  }

  lemma CleanEnd<S(!new), T(!new), E(!new)>(m: Machine<S, T, E>, g: Settings<S>, init: S, d: Discovered<T, E>, es: seq<E>)
    requires Congruent(m, g, init) && AllClean(m, g, init, d) && Run(m, init, es).Some?
    requires m.dry(EndOf(m, init, es)) in d && m.dry(EndOf(m, init, es)) != m.dry(init)
    ensures g.holds(EndOf(m, init, es)) && !g.goal(EndOf(m, init, es))
  {
    var s := EndOf(m, init, es);
    assert Reachable(m, init, s);
    assert Clean(m, g, init, m.dry(s));
    var p: S :| Reachable(m, init, p) && m.dry(p) == m.dry(s) && g.holds(p) && !g.goal(p);
    assert Alike(m, g, p, s);
  }

  lemma ExpandedEnd<S(!new), T(!new), E(!new)>(m: Machine<S, T, E>, g: Settings<S>, init: S, d: Discovered<T, E>, es: seq<E>, e: E)
    requires Frontier(m, g, init, d, {}) && Run(m, init, es).Some? && m.dry(EndOf(m, init, es)) in d
    requires !Cut(m, g, init, d, m.dry(EndOf(m, init, es))) && e in m.events(EndOf(m, init, es))
    ensures m.step(EndOf(m, init, es), e).Success?
  {
    assert Reachable(m, init, EndOf(m, init, es));
  }

  // Traces

  /** The events and dry states that led to a discovered state, from the initial one on. */
  function Trace<T, E>(d: Discovered<T, E>, t: T): (trace: seq<(E, T)>)
    requires Chained(d) && t in d
    decreases d[t].depth
  {
    if d[t].prev.None? then []
    else
      var (e, p) := d[t].prev.value;
      Trace(d, p) + [(e, t)]
  }

  lemma {:induction false} TraceIsReal<S(!new), T(!new), E(!new)>(m: Machine<S, T, E>, g: Settings<S>, init: S, d: Discovered<T, E>, t: T)
    returns (s: S)
    requires Congruent(m, g, init) && LinksOk(m, init, d) && t in d
    ensures RealTrace(m, init, Trace(d, t), s) && m.dry(s) == t && |Trace(d, t)| == d[t].depth
    decreases d[t].depth
  {
    if d[t].prev.None? {
      s := init;
    } else {
      var (e, p) := d[t].prev.value;
      var before := TraceIsReal(m, g, init, d, p);
      assert Edge(m, init, p, e, t);
      var q: S :| Reachable(m, init, q) && m.dry(q) == p && e in m.events(q) && m.step(q, e).Success? && m.dry(m.step(q, e).value) == t;
      assert Reachable(m, init, before);
      assert Alike(m, g, q, before);
      s := m.step(before, e).value;
      ExtendTrace(m, init, Trace(d, p), before, e, t);
    }
  }

  lemma ExtendTrace<S(!new), T(!new), E(!new)>(m: Machine<S, T, E>, init: S, trace: seq<(E, T)>, s: S, e: E, t: T)
    requires RealTrace(m, init, trace, s) && e in m.events(s) && m.step(s, e).Success? && m.dry(m.step(s, e).value) == t
    ensures RealTrace(m, init, trace + [(e, t)], m.step(s, e).value)
  {
    var more := trace + [(e, t)];
    assert Events(more) == Events(trace) + [e];
    RunStep(m, init, Events(trace), e);
    hide Run;
    forall k: nat | k < |more|
      ensures m.dry(EndOf(m, init, Events(more)[..k + 1])) == more[k].1
    {
      if k < |trace| {
        assert Events(more)[..k + 1] == Events(trace)[..k + 1];
      } else {
        assert Events(more)[..k + 1] == Events(more);
      }
    }
  }

  /** A state found on this level or the next cannot be reached with fewer steps. */
  lemma FoundIsShortest<S(!new), T(!new), E(!new)>(
      m: Machine<S, T, E>, g: Settings<S>, init: S, d: Discovered<T, E>, open: set<T>, level: nat, t: T)
    requires Congruent(m, g, init) && LinksOk(m, init, d) && Frontier(m, g, init, d, open)
    requires forall q <- open :: q in d && d[q].depth >= level
    requires t in d && d[t].depth <= level + 1
    ensures Shortest(m, g, init, d[t].depth, t)
  {
    hide Congruent, LinksOk, Frontier, Followed;
    forall es: seq<E> | Followed(m, g, init, es) && m.dry(EndOf(m, init, es)) == t ensures |es| >= d[t].depth {
      FollowedRuns(m, g, init, es);
      if |es| <= level {
        FoundInTime(m, g, init, d, open, level, es);
      }
    }
  }
}
