/** The breadth-first search level by level: any state of a level may be taken next, new
    states go to the next level, and a level ends when its queue is empty. */
module Search {
  import opened Wrappers
  import opened SearchSpec
  import opened SearchProof

  /** What a verdict claims.  A trace is a shortest run to a state where something is wrong. */
  ghost predicate Justified<S(!new), T(!new), E(!new)>(m: Machine<S, T, E>, g: Settings<S>, init: S, r: SearchResult<S, T, E>) {
    match r
    case Failed(trace, e, _) =>
      exists s: S ::
        && RealTrace(m, init, trace, s) && e in m.events(s) && m.step(s, e).Failure?
        && Shortest(m, g, init, |trace|, m.dry(s))
    case InvariantViolation(trace) =>
      exists s: S :: RealTrace(m, init, trace, s) && !g.holds(s) && Shortest(m, g, init, |trace|, m.dry(s))
    case GoalFound(s) =>
      && Reachable(m, init, s) && g.goal(s)
      && exists trace: seq<(E, T)>, q: S ::
           RealTrace(m, init, trace, q) && m.dry(q) == m.dry(s) && Shortest(m, g, init, |trace|, m.dry(s))
    case SpaceExhausted => Exhausted(m, g, init)
    case Timeout => false
  }

  /** A followed run of this many steps ends in a state the search goes on from. */
  ghost predicate GoesOn<S(!new), T(!new), E(!new)>(m: Machine<S, T, E>, g: Settings<S>, init: S, s: S, depth: nat) {
    exists es: seq<E> :: |es| == depth && Run(m, init, es) == Some(s) && Expandable(m, g, init, es)
  }

  /** So does one that ends in this dry state. */
  ghost predicate ToExpand<S(!new), T(!new), E(!new)>(m: Machine<S, T, E>, g: Settings<S>, init: S, t: T) {
    exists s: S, depth: nat :: GoesOn(m, g, init, s, depth) && m.dry(s) == t
  }

  ghost predicate AllToExpand<S(!new), T(!new), E(!new)>(m: Machine<S, T, E>, g: Settings<S>, init: S, some: set<T>) {
    forall t <- some :: ToExpand(m, g, init, t)
  }

  /** More dry states are there to be expanded than the budget allows. */
  ghost predicate OverBudget<S(!new), T(!new), E(!new)>(m: Machine<S, T, E>, g: Settings<S>, init: S, budget: nat) {
    exists some: set<T> :: |some| > budget && AllToExpand(m, g, init, some)
  }

  /** What the search's result claims: its verdict, or that the budget was too small. */
  ghost predicate Correct<S(!new), T(!new), E(!new)>(
      m: Machine<S, T, E>, g: Settings<S>, init: S, budget: nat, r: SearchResult<S, T, E>) {
    if r.Timeout? then OverBudget(m, g, init, budget) else Justified(m, g, init, r)
  }

  // What holds between two states

  ghost predicate LevelOk<S(!new), T(!new), E(!new)>(
      m: Machine<S, T, E>, g: Settings<S>, init: S, d: Discovered<T, E>, level: nat, open: set<T>) {
    && Congruent(m, g, init) && LinksOk(m, init, d) && Frontier(m, g, init, d, open)
    && (forall q <- open :: q in d && d[q].depth >= level)
    && (forall t <- d :: d[t].depth <= level + 1)
  }

  /** The states of a queue were found at this depth, each once, and are to be expanded. */
  ghost predicate QueueOk<S(!new), T(!new), E(!new)>(
      m: Machine<S, T, E>, g: Settings<S>, init: S, d: Discovered<T, E>, queue: seq<(S, T)>, depth: nat) {
    && (forall x <- queue :: GoesOn(m, g, init, x.0, depth) && m.dry(x.0) == x.1 && x.1 in d && d[x.1].depth == depth)
    && (forall i: nat, j: nat | i < j < |queue| :: queue[i].1 != queue[j].1)
  }

  lemma GoesOnReaches<S(!new), T(!new), E(!new)>(m: Machine<S, T, E>, g: Settings<S>, init: S, s: S, depth: nat)
    requires GoesOn(m, g, init, s, depth)
    ensures Reachable(m, init, s)
  {
  }

  /** One step further, if depth and pruning let the search go on. */
  lemma GoesFurther<S(!new), T(!new), E(!new)>(m: Machine<S, T, E>, g: Settings<S>, init: S, s: S, e: E, depth: nat)
    requires GoesOn(m, g, init, s, depth) && e in m.events(s) && m.step(s, e).Success?
    requires DepthLeft(g, depth + 1) && !g.prune(m.step(s, e).value)
    ensures GoesOn(m, g, init, m.step(s, e).value, depth + 1)
  {
    var es: seq<E> :| |es| == depth && Run(m, init, es) == Some(s) && Expandable(m, g, init, es);
    var more := es + [e];
    RunStep(m, init, es, e);
    forall k: nat | 0 < k < |more| ensures Run(m, init, more[..k]).Some? && !g.prune(EndOf(m, init, more[..k])) {
      assert more[..k] == es[..k];
      if k == |es| {
        assert es[..k] == es;
      }
    }
    assert Expandable(m, g, init, more);
  }

  ghost function Drys<S, T>(queue: seq<(S, T)>): set<T> {
    set x <- queue :: x.1
  }

  predicate DepthLeft<S>(g: Settings<S>, depth: nat) {
    g.maxDepth != Some(depth)
  }

  lemma StartLevel<S(!new), T(!new), E(!new)>(m: Machine<S, T, E>, g: Settings<S>, init: S)
    requires Congruent(m, g, init) && g.maxDepth != Some(0)
    ensures
      var d := map[m.dry(init) := Info(None, 0)];
      && LevelOk(m, g, init, d, 0, {m.dry(init)}) && AllClean(m, g, init, d)
      && QueueOk(m, g, init, d, [(init, m.dry(init))], 0)
  {
    var none: seq<E> := [];
    assert |none| == 0 && Run(m, init, none) == Some(init) && Expandable(m, g, init, none);
    assert GoesOn(m, g, init, init, 0);
  }

  // A new state

  ghost predicate Steps<S(!new), T(!new), E(!new)>(m: Machine<S, T, E>, init: S, s: S, t: T, e: E, nd: T) {
    && Reachable(m, init, s) && m.dry(s) == t && e in m.events(s)
    && m.step(s, e).Success? && m.dry(m.step(s, e).value) == nd
  }

  lemma Discover<S(!new), T(!new), E(!new)>(
      m: Machine<S, T, E>, g: Settings<S>, init: S, d: Discovered<T, E>, level: nat, open: set<T>, s: S, t: T, e: E, nd: T)
    requires LevelOk(m, g, init, d, level, open) && t in d && d[t].depth == level && nd !in d
    requires Steps(m, init, s, t, e, nd)
    ensures LevelOk(m, g, init, d[nd := Info(Some((e, t)), level + 1)], level, open + {nd})
  {
    var d' := d[nd := Info(Some((e, t)), level + 1)];
    assert Edge(m, init, t, e, nd);
    forall q <- d' ensures q in open + {nd} || Expanded(m, init, d', q) || Cut(m, g, init, d', q) {
      if q in d && q !in open && Expanded(m, init, d, q) {
        StaysExpanded(m, init, d, d', q);
      }
    }
  }

  lemma StaysExpanded<S(!new), T(!new), E(!new)>(m: Machine<S, T, E>, init: S, d: Discovered<T, E>, d': Discovered<T, E>, q: T)
    requires q in d && Expanded(m, init, d, q) && forall t <- d :: t in d' && d'[t] == d[t]
    ensures Expanded(m, init, d', q)
  {
  }

  /** A new state that is not pushed is one the search does not go on from. */
  lemma NotPushed<S(!new), T(!new), E(!new)>(
      m: Machine<S, T, E>, g: Settings<S>, init: S, d: Discovered<T, E>, level: nat, open: set<T>, next: S)
    requires LevelOk(m, g, init, d, level, open + {m.dry(next)}) && Reachable(m, init, next)
    requires m.dry(next) in d && d[m.dry(next)].depth == level + 1 && m.dry(next) != m.dry(init)
    requires !DepthLeft(g, level + 1) || g.prune(next)
    ensures LevelOk(m, g, init, d, level, open)
  {
    assert Cut(m, g, init, d, m.dry(next));
  }

  lemma StaysClean<S(!new), T(!new), E(!new)>(
      m: Machine<S, T, E>, g: Settings<S>, init: S, d: Discovered<T, E>, next: S, info: Info<T, E>)
    requires AllClean(m, g, init, d) && Reachable(m, init, next) && g.holds(next) && !g.goal(next)
    ensures AllClean(m, g, init, d[m.dry(next) := info])
  {
    assert Clean(m, g, init, m.dry(next));
  }

  /** A state all of whose events were tried is expanded. */
  lemma Tried<S(!new), T(!new), E(!new)>(
      m: Machine<S, T, E>, g: Settings<S>, init: S, d: Discovered<T, E>, level: nat, open: set<T>, s: S, t: T)
    requires LevelOk(m, g, init, d, level, open + {t}) && t in d && d[t].depth == level
    requires Reachable(m, init, s) && m.dry(s) == t
    requires forall e <- m.events(s) :: m.step(s, e).Success? && m.dry(m.step(s, e).value) in d
    ensures LevelOk(m, g, init, d, level, open)
  {
    forall q: S, e: E | Reachable(m, init, q) && m.dry(q) == t && e in m.events(q)
      ensures m.step(q, e).Success? && m.dry(m.step(q, e).value) in d && d[m.dry(m.step(q, e).value)].depth <= level + 1
    {
      assert Alike(m, g, s, q);
    }
    assert Expanded(m, init, d, t);
  }

  // The results

  lemma FailedIsCorrect<S(!new), T(!new), E(!new)>(
      m: Machine<S, T, E>, g: Settings<S>, init: S, d: Discovered<T, E>, level: nat, open: set<T>, s: S, e: E, error: Error)
    requires LevelOk(m, g, init, d, level, open) && m.dry(s) in d && Reachable(m, init, s)
    requires e in m.events(s) && m.step(s, e).Failure?
    ensures Justified(m, g, init, Failed(Trace(d, m.dry(s)), e, error))
  {
    var q := TraceIsReal(m, g, init, d, m.dry(s));
    FoundIsShortest(m, g, init, d, open, level, m.dry(s));
    assert Reachable(m, init, q);
    assert Alike(m, g, s, q);
  }

  lemma ViolationIsCorrect<S(!new), T(!new), E(!new)>(
      m: Machine<S, T, E>, g: Settings<S>, init: S, d: Discovered<T, E>, level: nat, open: set<T>, s: S)
    requires LevelOk(m, g, init, d, level, open) && m.dry(s) in d && Reachable(m, init, s) && !g.holds(s)
    ensures Justified(m, g, init, InvariantViolation(Trace(d, m.dry(s))))
  {
    var q := TraceIsReal(m, g, init, d, m.dry(s));
    FoundIsShortest(m, g, init, d, open, level, m.dry(s));
    assert Reachable(m, init, q);
    assert Alike(m, g, s, q);
  }

  lemma GoalIsCorrect<S(!new), T(!new), E(!new)>(
      m: Machine<S, T, E>, g: Settings<S>, init: S, d: Discovered<T, E>, level: nat, open: set<T>, s: S)
    requires LevelOk(m, g, init, d, level, open) && m.dry(s) in d && Reachable(m, init, s) && g.goal(s)
    ensures Justified<S, T, E>(m, g, init, GoalFound(s))
  {
    var q := TraceIsReal(m, g, init, d, m.dry(s));
    FoundIsShortest(m, g, init, d, open, level, m.dry(s));
  }

  // The algorithm

  /** Follow prev from a discovered state back to the initial one. */
  method TraceBack<T(==), E>(d: Discovered<T, E>, target: T) returns (trace: seq<(E, T)>)
    requires Chained(d) && target in d
    ensures trace == Trace(d, target)
    decreases d[target].depth
  {
    var info := d[target];
    if info.prev.None? {
      return [];
    }
    var (event, state) := info.prev.value;
    trace := TraceBack(d, state);
    trace := trace + [(event, target)];
  }

  /** Where the search stands while it expands a state of a level. */
  ghost predicate Expanding<S(!new), T(!new), E(!new)>(
      m: Machine<S, T, E>, g: Settings<S>, init: S, d: Discovered<T, E>, level: nat,
      queue: seq<(S, T)>, pushing: seq<(S, T)>, state: S, dry: T) {
    && LevelOk(m, g, init, d, level, Drys(queue) + Drys(pushing) + {dry}) && AllClean(m, g, init, d)
    && QueueOk(m, g, init, d, queue, level) && QueueOk(m, g, init, d, pushing, level + 1)
    && (pushing != [] ==> DepthLeft(g, level + 1))
    && GoesOn(m, g, init, state, level) && m.dry(state) == dry && dry in d && d[dry].depth == level
  }

  lemma QueueGrows<S(!new), T(!new), E(!new)>(
      m: Machine<S, T, E>, g: Settings<S>, init: S, d: Discovered<T, E>, queue: seq<(S, T)>, depth: nat, nd: T, info: Info<T, E>)
    requires QueueOk(m, g, init, d, queue, depth) && nd !in d
    ensures QueueOk(m, g, init, d[nd := info], queue, depth)
  {
  }

  /** What was discovered stays as it was. */
  ghost predicate Grown<T, E>(d: Discovered<T, E>, d': Discovered<T, E>) {
    forall t <- d :: t in d' && d'[t] == d[t]
  }

  /** Try one event of a state; a result means the search is over. */
  method TryEvent<S(!new), T(==, !new), E(!new)>(
      m: Machine<S, T, E>, g: Settings<S>, ghost init: S, state: S, dry: T, event: E, level: nat,
      ghost queue: seq<(S, T)>, known: Discovered<T, E>, pushed: seq<(S, T)>)
    returns (d: Discovered<T, E>, pushing: seq<(S, T)>, result: Option<SearchResult<S, T, E>>)
    requires Expanding(m, g, init, known, level, queue, pushed, state, dry) && event in m.events(state)
    ensures result.Some? ==> Justified(m, g, init, result.value)
    ensures result.None? ==>
              && Expanding(m, g, init, d, level, queue, pushing, state, dry)
              && m.step(state, event).Success? && m.dry(m.step(state, event).value) in d
              && Grown(known, d)
  {
    hide LevelOk, AllClean, Reachable, Justified, QueueOk, GoesOn;
    d, pushing, result := known, pushed, None;
    GoesOnReaches(m, g, init, state, level);
    ghost var open := Drys(queue) + Drys(pushing) + {dry};
    LevelLinks(m, g, init, d, level, open);
    var step := m.step(state, event);
    if step.Failure? {
      FailedIsCorrect(m, g, init, d, level, open, state, event, step.error);
      var trace := TraceBack(d, dry);
      return d, pushing, Some(Failed(trace, event, step.error));
    }
    var next := step.value;
    var nextDry := m.dry(next);
    if nextDry in d {
      return;
    }
    var info := Info(Some((event, dry)), level + 1);
    NextReachable(m, init, state, event);
    Discover(m, g, init, d, level, open, state, dry, event, nextDry);
    d := d[nextDry := info];
    LevelLinks(m, g, init, d, level, open + {nextDry});
    if !g.holds(next) {
      ViolationIsCorrect(m, g, init, d, level, open + {nextDry}, next);
      var trace := TraceBack(d, nextDry);
      return d, pushing, Some(InvariantViolation(trace));
    }
    if g.goal(next) {
      GoalIsCorrect(m, g, init, d, level, open + {nextDry}, next);
      return d, pushing, Some(GoalFound(next));
    }
    StaysClean(m, g, init, known, next, info);
    QueueGrows(m, g, init, known, queue, level, nextDry, info);
    QueueGrows(m, g, init, known, pushed, level + 1, nextDry, info);
    if DepthLeft(g, level + 1) && !g.prune(next) {
      PushedDrys(pushing, next, nextDry);
      GoesFurther(m, g, init, state, event, level);
      PushedOk(m, g, init, known, d, pushing, level + 1, next);
      pushing := pushing + [(next, nextDry)];
      assert open + {nextDry} == Drys(queue) + Drys(pushing) + {dry};
    } else {
      NotPushed(m, g, init, d, level, open, next);
    }
  }

  lemma PushedOk<S(!new), T(!new), E(!new)>(
      m: Machine<S, T, E>, g: Settings<S>, init: S, known: Discovered<T, E>, d: Discovered<T, E>, queue: seq<(S, T)>, depth: nat, s: S)
    requires QueueOk(m, g, init, known, queue, depth) && QueueOk(m, g, init, d, queue, depth) && m.dry(s) !in known
    requires GoesOn(m, g, init, s, depth) && m.dry(s) in d && d[m.dry(s)].depth == depth
    ensures QueueOk(m, g, init, d, queue + [(s, m.dry(s))], depth)
  {
  }

  /** Try every event of one state; a result means the search is over. */
  method Expand<S(!new), T(==, !new), E(!new)>(
      m: Machine<S, T, E>, g: Settings<S>, ghost init: S, state: S, dry: T, level: nat,
      ghost queue: seq<(S, T)>, known: Discovered<T, E>, pushed: seq<(S, T)>)
    returns (d: Discovered<T, E>, pushing: seq<(S, T)>, result: Option<SearchResult<S, T, E>>)
    requires Expanding(m, g, init, known, level, queue, pushed, state, dry)
    ensures result.Some? ==> Justified(m, g, init, result.value)
    ensures result.None? ==>
              && LevelOk(m, g, init, d, level, Drys(queue) + Drys(pushing)) && AllClean(m, g, init, d)
              && QueueOk(m, g, init, d, queue, level) && QueueOk(m, g, init, d, pushing, level + 1)
              && (pushing != [] ==> DepthLeft(g, level + 1))
              && Grown(known, d)
  {
    hide LevelOk, AllClean, Reachable, Justified, QueueOk, GoesOn;
    d, pushing, result := known, pushed, None;
    var events := m.events(state);
    var k := 0;
    while k < |events|
      invariant k <= |events|
      invariant Expanding(m, g, init, d, level, queue, pushing, state, dry) && Grown(known, d)
      invariant forall j: nat | j < k :: m.step(state, events[j]).Success? && m.dry(m.step(state, events[j]).value) in d
    {
      d, pushing, result := TryEvent(m, g, init, state, dry, events[k], level, queue, d, pushing);
      if result.Some? {
        return;
      }
      k := k + 1;
    }
    result := None;
    GoesOnReaches(m, g, init, state, level);
    Tried(m, g, init, d, level, Drys(queue) + Drys(pushing), state, dry);
  }

  lemma PushedDrys<S, T>(queue: seq<(S, T)>, s: S, t: T)
    ensures Drys(queue + [(s, t)]) == Drys(queue) + {t}
  {
    assert (queue + [(s, t)])[|queue|] == (s, t);
    forall x <- queue ensures x in queue + [(s, t)] {}
  }

  lemma LevelLinks<S(!new), T(!new), E(!new)>(m: Machine<S, T, E>, g: Settings<S>, init: S, d: Discovered<T, E>, level: nat, open: set<T>)
    requires LevelOk(m, g, init, d, level, open)
    ensures Chained(d) && m.dry(init) in d
  {
  }

  /** What was expanded so far: one dry state for every unit of budget spent. */
  ghost predicate Spent<S(!new), T(!new), E(!new)>(
      m: Machine<S, T, E>, g: Settings<S>, init: S, d: Discovered<T, E>, level: nat, queue: seq<(S, T)>, expanded: set<T>) {
    && AllToExpand(m, g, init, expanded) && expanded !! Drys(queue)
    && forall t <- expanded :: t in d && d[t].depth <= level
  }

  lemma SpendOne<S(!new), T(!new), E(!new)>(
      m: Machine<S, T, E>, g: Settings<S>, init: S, d: Discovered<T, E>, level: nat, queue: seq<(S, T)>, expanded: set<T>, i: nat)
    requires QueueOk(m, g, init, d, queue, level) && Spent(m, g, init, d, level, queue, expanded) && i < |queue|
    ensures
      var rest, more := queue[..i] + queue[i + 1..], expanded + {queue[i].1};
      && QueueOk(m, g, init, d, rest, level) && Spent(m, g, init, d, level, rest, more) && |more| == |expanded| + 1
  {
    hide GoesOn;
    var rest, x := queue[..i] + queue[i + 1..], queue[i];
    assert x in queue && x.1 in Drys(queue);
    assert ToExpand(m, g, init, x.1);
    assert forall j: nat | j < |rest| :: rest[j] == queue[if j < i then j else j + 1];
    forall t <- Drys(rest) ensures t in Drys(queue) && t != x.1 {
      var j: nat :| j < |rest| && rest[j].1 == t;
      assert rest[j] in queue;
    }
  }

  lemma StaysSpent<S(!new), T(!new), E(!new)>(
      m: Machine<S, T, E>, g: Settings<S>, init: S, d: Discovered<T, E>, d': Discovered<T, E>, level: nat, queue: seq<(S, T)>,
      expanded: set<T>)
    requires Spent(m, g, init, d, level, queue, expanded) && Grown(d, d')
    ensures Spent(m, g, init, d', level, queue, expanded)
  {
  }

  lemma NextSpent<S(!new), T(!new), E(!new)>(
      m: Machine<S, T, E>, g: Settings<S>, init: S, d: Discovered<T, E>, level: nat, queue: seq<(S, T)>, pushing: seq<(S, T)>,
      expanded: set<T>)
    requires Spent(m, g, init, d, level, queue, expanded) && QueueOk(m, g, init, d, pushing, level + 1)
    ensures Spent(m, g, init, d, level + 1, pushing, expanded)
  {
  }

  lemma OutOfBudget<S(!new), T(!new), E(!new)>(
      m: Machine<S, T, E>, g: Settings<S>, init: S, d: Discovered<T, E>, level: nat, queue: seq<(S, T)>, expanded: set<T>)
    requires QueueOk(m, g, init, d, queue, level) && Spent(m, g, init, d, level, queue, expanded) && queue != []
    ensures OverBudget(m, g, init, |expanded|)
  {
    SpendOne(m, g, init, d, level, queue, expanded, 0);
    assert AllToExpand(m, g, init, expanded + {queue[0].1});
  }

  /** The search: complete when it exhausts the space, and right about what it finds.  The
      budget stands for the time limit: it gives up only with more states to expand than
      that. */
  method BreadthFirst<S(!new), T(==, !new), E(!new)>(m: Machine<S, T, E>, g: Settings<S>, init: S, budget: nat)
    returns (result: SearchResult<S, T, E>)
    requires Congruent(m, g, init) && g.maxDepth != Some(0)
    ensures Correct(m, g, init, budget, result)
  {
    hide LevelOk, AllClean, Congruent, Reachable, Justified, QueueOk, Spent, GoesOn, OverBudget, Drys, Expanding,
         AllToExpand;
    var queue := [(init, m.dry(init))];
    var discovered: Discovered<T, E> := map[m.dry(init) := Info(None, 0)];
    var level, left := 0, budget;
    ghost var expanded: set<T> := {};
    StartLevel(m, g, init);
    NothingSpent(m, g, init, discovered, queue);
    OneDry(init, m.dry(init));
    while true
      invariant LevelOk(m, g, init, discovered, level, Drys(queue)) && AllClean(m, g, init, discovered)
      invariant QueueOk(m, g, init, discovered, queue, level) && queue != []
      invariant Spent(m, g, init, discovered, level, queue, expanded) && |expanded| + left == budget
      decreases left
    {
      var pushing: seq<(S, T)> := [];
      EmptyQueue(m, g, init, discovered, level + 1);
      NoDrys<S, T>();
      assert Drys(queue) + Drys(pushing) == Drys(queue);
      ghost var leftBefore := left;
      while queue != []
        invariant LevelOk(m, g, init, discovered, level, Drys(queue) + Drys(pushing)) && AllClean(m, g, init, discovered)
        invariant QueueOk(m, g, init, discovered, queue, level) && QueueOk(m, g, init, discovered, pushing, level + 1)
        invariant pushing != [] ==> DepthLeft(g, level + 1)
        invariant Spent(m, g, init, discovered, level, queue, expanded) && |expanded| + left == budget
        invariant left <= leftBefore && (queue == [] ==> left < leftBefore)
        decreases left
      {
        if left == 0 {
          OutOfBudget(m, g, init, discovered, level, queue, expanded);
          return Timeout;
        }
        left := left - 1;
        var i: nat :| i < |queue|;
        var (state, dry) := queue[i];
        Pop(m, g, init, discovered, level, queue, pushing, expanded, i);
        expanded := expanded + {dry};
        queue := queue[..i] + queue[i + 1..];
        var found;
        ghost var before := discovered;
        discovered, pushing, found := Expand(m, g, init, state, dry, level, queue, discovered, pushing);
        if found.Some? {
          IsVerdict(m, g, init, found.value);
          return found.value;
        }
        StaysSpent(m, g, init, before, discovered, level, queue, expanded);
      }
      if pushing == [] {
        assert Drys(queue) + Drys(pushing) == {};
        AllExpanded(m, g, init, discovered, level);
        return SpaceExhausted;
      }
      assert g.maxDepth != Some(level + 1);
      assert Drys(queue) + Drys(pushing) == Drys(pushing);
      NextLevel(m, g, init, discovered, level, pushing);
      NextSpent(m, g, init, discovered, level, queue, pushing, expanded);
      queue := pushing;
      level := level + 1;
    }
  }

  lemma OneDry<S, T>(s: S, t: T)
    ensures Drys([(s, t)]) == {t}
  {
    assert [(s, t)][0] == (s, t);
  }

  lemma NoDrys<S, T>()
    ensures Drys<S, T>([]) == {}
  {
  }

  /** Taking any state from the queue to expand it. */
  lemma Pop<S(!new), T(!new), E(!new)>(
      m: Machine<S, T, E>, g: Settings<S>, init: S, d: Discovered<T, E>, level: nat, queue: seq<(S, T)>, pushing: seq<(S, T)>,
      expanded: set<T>, i: nat)
    requires LevelOk(m, g, init, d, level, Drys(queue) + Drys(pushing)) && AllClean(m, g, init, d)
    requires QueueOk(m, g, init, d, queue, level) && QueueOk(m, g, init, d, pushing, level + 1)
    requires pushing != [] ==> DepthLeft(g, level + 1)
    requires Spent(m, g, init, d, level, queue, expanded) && i < |queue|
    ensures
      var rest, more := queue[..i] + queue[i + 1..], expanded + {queue[i].1};
      && Expanding(m, g, init, d, level, rest, pushing, queue[i].0, queue[i].1)
      && Spent(m, g, init, d, level, rest, more) && |more| == |expanded| + 1
  {
    hide LevelOk, AllClean, GoesOn, QueueOk, Spent;
    PoppedDrys(queue, i);
    PoppedGoesOn(m, g, init, d, queue, level, i);
    SpendOne(m, g, init, d, level, queue, expanded, i);
    var rest := queue[..i] + queue[i + 1..];
    assert Drys(queue) + Drys(pushing) == Drys(rest) + Drys(pushing) + {queue[i].1};
  }

  lemma EmptyQueue<S(!new), T(!new), E(!new)>(m: Machine<S, T, E>, g: Settings<S>, init: S, d: Discovered<T, E>, depth: nat)
    ensures QueueOk(m, g, init, d, [], depth)
  {
  }

  lemma IsVerdict<S(!new), T(!new), E(!new)>(m: Machine<S, T, E>, g: Settings<S>, init: S, r: SearchResult<S, T, E>)
    requires Justified(m, g, init, r)
    ensures !r.Timeout?
  {
  }

  lemma NothingSpent<S(!new), T(!new), E(!new)>(
      m: Machine<S, T, E>, g: Settings<S>, init: S, d: Discovered<T, E>, queue: seq<(S, T)>)
    ensures Spent(m, g, init, d, 0, queue, {})
  {
  }

  lemma PoppedGoesOn<S(!new), T(!new), E(!new)>(
      m: Machine<S, T, E>, g: Settings<S>, init: S, d: Discovered<T, E>, queue: seq<(S, T)>, depth: nat, i: nat)
    requires QueueOk(m, g, init, d, queue, depth) && i < |queue|
    ensures
      var (s, t) := queue[i];
      GoesOn(m, g, init, s, depth) && m.dry(s) == t && t in d && d[t].depth == depth
  {
    assert queue[i] in queue;
  }

  lemma PoppedDrys<S, T>(queue: seq<(S, T)>, i: nat)
    requires i < |queue|
    ensures Drys(queue) == Drys(queue[..i] + queue[i + 1..]) + {queue[i].1}
    ensures forall x <- queue[..i] + queue[i + 1..] :: x in queue
    ensures queue[i] in queue
  {
    var rest := queue[..i] + queue[i + 1..];
    forall x <- queue ensures x in rest || x == queue[i] {
      var j: nat :| j < |queue| && queue[j] == x;
      if j != i {
        assert rest[if j < i then j else j - 1] == x;
      }
    }
  }

  lemma AllExpanded<S(!new), T(!new), E(!new)>(m: Machine<S, T, E>, g: Settings<S>, init: S, d: Discovered<T, E>, level: nat)
    requires LevelOk<S, T, E>(m, g, init, d, level, {}) && AllClean(m, g, init, d)
    ensures Justified<S, T, E>(m, g, init, SpaceExhausted)
  {
    NothingOpen(m, g, init, d);
  }

  /** The next level begins where this one ends. */
  lemma NextLevel<S(!new), T(!new), E(!new)>(
      m: Machine<S, T, E>, g: Settings<S>, init: S, d: Discovered<T, E>, level: nat, pushing: seq<(S, T)>)
    requires LevelOk(m, g, init, d, level, Drys(pushing)) && QueueOk(m, g, init, d, pushing, level + 1)
    ensures LevelOk(m, g, init, d, level + 1, Drys(pushing))
  {
  }
}
