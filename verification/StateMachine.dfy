/**
 * The state-machine validator of `contracts.py`: the worklist walk, what acceptance of a machine
 * guarantees about all its runs, and what the safety-path checks guarantee beyond that.
 */
module StateMachine {

  type State = string
  type Graph = map<State, set<State>>

  datatype Transition = Transition(
    id: string,
    source: State,
    target: State,
    actor: string,
    command: string,
    event: string,
    automatic: bool,
    preconditions: set<string>)

  datatype Machine = Machine(
    states: seq<State>,
    initial: State,
    terminals: set<State>,
    owner: string,
    store: string,
    transitions: seq<Transition>)

  /** The identifiers a machine may refer to. */
  datatype Catalog = Catalog(components: set<string>, stores: set<string>, commands: set<string>, events: set<string>)

  /** A `defaultdict(set)`: a state without an entry has no neighbours. */
  function Next(g: Graph, s: State): set<State> {
    if s in g then g[s] else {}
  }

  // ---------------------------------------------------------------------------------------------
  // Reachability.

  ghost predicate Path(g: Graph, p: seq<State>) {
    p != [] && forall i | 0 <= i < |p| - 1 :: p[i + 1] in Next(g, p[i])
  }

  ghost predicate PathFromTo(g: Graph, p: seq<State>, from: State, to: State) {
    Path(g, p) && p[0] == from && p[|p| - 1] == to
  }

  ghost predicate Reaches(g: Graph, from: State, to: State) {
    exists p :: PathFromTo(g, p, from, to)
  }

  ghost predicate ReachedFrom(g: Graph, starts: set<State>, to: State) {
    exists from | from in starts :: Reaches(g, from, to)
  }

  lemma {:induction false} ReachesItself(g: Graph, s: State)
    ensures Reaches(g, s, s)
  {
    assert PathFromTo(g, [s], s, s);
  }

  lemma {:induction false} ReachStep(g: Graph, starts: set<State>, mid: State, to: State)
    requires ReachedFrom(g, starts, mid) && to in Next(g, mid)
    ensures ReachedFrom(g, starts, to)
  {
    var from :| from in starts && Reaches(g, from, mid);
    var p :| PathFromTo(g, p, from, mid);
    assert PathFromTo(g, p + [to], from, to);
  }

  ghost predicate Closed(g: Graph, s: set<State>) {
    forall a, b | a in s && b in Next(g, a) :: b in s
  }

  lemma {:induction false} ClosedHoldsPaths(g: Graph, s: set<State>, p: seq<State>, i: nat)
    requires Closed(g, s) && Path(g, p) && p[0] in s && i < |p|
    ensures p[i] in s
    decreases i
  {
    if i > 0 {
      ClosedHoldsPaths(g, s, p, i - 1);
    }
  }

  ghost function Nodes(starts: set<State>, g: Graph): set<State> {
    starts + set a, b | a in g.Keys && b in g[a] :: b
  }

  /** What one turn of the worklist did: the neighbours of a state are visited, the new ones queued. */
  ghost predicate Enqueued(targets: set<State>, visited: set<State>, queue: seq<State>, visited': set<State>, queue': seq<State>) {
    && visited' == visited + targets
    && (targets <= visited ==> queue' == queue)
    && (forall s | s in queue' :: s in queue || s in targets)
    && (forall s | s in queue :: s in queue')
    && (forall s | s in targets && s !in visited :: s in queue')
  }

  /** The inner loop of the walk: the neighbours of one state, in any order. */
  method Visit(targets: set<State>, visited: set<State>, queue: seq<State>)
    returns (visited': set<State>, queue': seq<State>)
    ensures Enqueued(targets, visited, queue, visited', queue')
  {
    visited', queue' := visited, queue;
    var rest := targets;
    while rest != {}
      invariant rest <= targets
      invariant Enqueued(targets - rest, visited, queue, visited', queue')
      decreases rest
    {
      var target :| target in rest;
      ghost var done := targets - rest;
      rest := rest - {target};
      assert targets - rest == done + {target};
      if target !in visited' {
        visited' := visited' + {target};
        queue' := queue' + [target];
      }
    }
    assert targets - rest == targets;
  }

  /** The invariant of the worklist: what is visited is reached, and only queued states are unexplored. */
  ghost predicate Frontier(g: Graph, starts: set<State>, visited: set<State>, queue: seq<State>) {
    && starts <= visited <= Nodes(starts, g)
    && (forall s | s in queue :: s in visited)
    && (forall s | s in visited :: ReachedFrom(g, starts, s))
    && (forall a | a in visited && a !in queue :: Next(g, a) <= visited)
  }

  lemma {:induction false} FrontierAdvances(g: Graph, starts: set<State>, visited: set<State>, queue: seq<State>, visited': set<State>, queue': seq<State>)
    requires queue != [] && Frontier(g, starts, visited, queue)
    requires Enqueued(Next(g, queue[0]), visited, queue[1..], visited', queue')
    ensures Frontier(g, starts, visited', queue')
    ensures |Nodes(starts, g) - visited'| < |Nodes(starts, g) - visited|
         || (|Nodes(starts, g) - visited'| == |Nodes(starts, g) - visited| && |queue'| < |queue|)
  {
    var current := queue[0];
    assert current in visited;
    forall s | s in Next(g, current)
      ensures ReachedFrom(g, starts, s)
    {
      ReachStep(g, starts, current, s);
    }
    forall a | a in visited' && a !in queue'
      ensures Next(g, a) <= visited'
    {
      if a != current {
        assert a in visited && a !in queue;
      }
    }
    if visited' == visited {
      assert queue' == queue[1..];
    }
    assert visited' <= Nodes(starts, g);
    WorklistShrinks(Nodes(starts, g), visited, visited');
  }

  lemma {:induction false} ReachedIsInside(g: Graph, starts: set<State>, inside: set<State>, s: State)
    requires Closed(g, inside) && starts <= inside && ReachedFrom(g, starts, s)
    ensures s in inside
  {
    var from :| from in starts && Reaches(g, from, s);
    var p :| PathFromTo(g, p, from, s);
    ClosedHoldsPaths(g, inside, p, |p| - 1);
  }

  lemma {:induction false} FinishedWalk(g: Graph, starts: set<State>, visited: set<State>, s: State)
    requires Frontier(g, starts, visited, [])
    ensures s in visited <==> ReachedFrom(g, starts, s)
  {
    assert Closed(g, visited);
    if ReachedFrom(g, starts, s) {
      ReachedIsInside(g, starts, visited, s);
    }
  }

  /** `_walk` returns exactly the states some path leads to from a start. */
  method Walk(starts: set<State>, startQueue: seq<State>, g: Graph) returns (visited: set<State>)
    requires forall s :: s in startQueue <==> s in starts
    ensures forall s :: s in visited <==> ReachedFrom(g, starts, s)
  {
    visited := starts;
    var queue := startQueue;
    forall s | s in starts
      ensures ReachedFrom(g, starts, s)
    {
      ReachesItself(g, s);
    }
    while queue != []
      invariant Frontier(g, starts, visited, queue)
      decreases |Nodes(starts, g) - visited|, |queue|
    {
      ghost var seen, waiting := visited, queue;
      visited, queue := Visit(Next(g, queue[0]), visited, queue[1..]);
      FrontierAdvances(g, starts, seen, waiting, visited, queue);
    }
    forall s
      ensures s in visited <==> ReachedFrom(g, starts, s)
    {
      FinishedWalk(g, starts, visited, s);
    }
  }

  lemma {:induction false} WorklistShrinks(nodes: set<State>, seen: set<State>, visited: set<State>)
    requires seen <= visited <= nodes
    ensures |nodes - visited| <= |nodes - seen|
    ensures seen != visited ==> |nodes - visited| < |nodes - seen|
  {
    assert nodes - seen == (nodes - visited) + (visited - seen);
  }

  // ---------------------------------------------------------------------------------------------
  // Runs of a machine.

  /** The state before the `i`-th transition of a run from `s`. */
  ghost function StateAt(s: State, ts: seq<Transition>, i: nat): State
    requires i <= |ts|
  {
    if i == 0 then s else ts[i - 1].target
  }

  ghost predicate RunFrom(m: Machine, s: State, ts: seq<Transition>) {
    forall i {:trigger StateAt(s, ts, i)} | 0 <= i < |ts| :: ts[i] in m.transitions && ts[i].source == StateAt(s, ts, i)
  }

  ghost function End(s: State, ts: seq<Transition>): State {
    StateAt(s, ts, |ts|)
  }

  ghost predicate RunFromTo(m: Machine, ts: seq<Transition>, from: State, to: State) {
    RunFrom(m, from, ts) && End(from, ts) == to
  }

  ghost predicate CanRun(m: Machine, from: State, to: State) {
    exists ts :: RunFromTo(m, ts, from, to)
  }

  ghost predicate HasEdge(m: Machine, a: State, b: State) {
    exists t | t in m.transitions :: t.source == a && t.target == b
  }

  /** `graph` holds the edges of the machine, `reverse` the same edges turned round. */
  ghost predicate Edges(m: Machine, graph: Graph) {
    forall a, b :: b in Next(graph, a) <==> HasEdge(m, a, b)
  }

  ghost predicate ReversedEdges(m: Machine, reverse: Graph) {
    forall a, b :: b in Next(reverse, a) <==> HasEdge(m, b, a)
  }

  lemma {:induction false} ExtendRun(m: Machine, ts: seq<Transition>, from: State, t: Transition)
    requires RunFrom(m, from, ts) && t in m.transitions && t.source == End(from, ts)
    ensures RunFromTo(m, ts + [t], from, t.target)
  {
    var longer := ts + [t];
    forall i | 0 <= i < |longer|
      ensures longer[i] in m.transitions && longer[i].source == StateAt(from, longer, i)
    {
      if i < |ts| {
        assert longer[i] == ts[i] && StateAt(from, longer, i) == StateAt(from, ts, i);
      }
    }
  }

  lemma {:induction false} PrependRun(m: Machine, t: Transition, ts: seq<Transition>)
    requires t in m.transitions && RunFrom(m, t.target, ts)
    ensures RunFromTo(m, [t] + ts, t.source, End(t.target, ts))
  {
    var longer := [t] + ts;
    forall i | 0 <= i < |longer|
      ensures longer[i] in m.transitions && longer[i].source == StateAt(t.source, longer, i)
    {
      if i > 0 {
        assert longer[i] == ts[i - 1] && StateAt(t.source, longer, i) == StateAt(t.target, ts, i - 1);
      }
    }
  }

  lemma {:induction false} PathIsRun(m: Machine, graph: Graph, p: seq<State>, i: nat)
    requires Edges(m, graph) && Path(graph, p) && i < |p|
    ensures CanRun(m, p[0], p[i])
    decreases i
  {
    if i == 0 {
      assert RunFromTo(m, [], p[0], p[0]);
    } else {
      PathIsRun(m, graph, p, i - 1);
      var ts :| RunFromTo(m, ts, p[0], p[i - 1]);
      assert p[i - 1 + 1] in Next(graph, p[i - 1]);
      assert HasEdge(m, p[i - 1], p[i]);
      var t :| t in m.transitions && t.source == p[i - 1] && t.target == p[i];
      ExtendRun(m, ts, p[0], t);
    }
  }

  lemma {:induction false} ReversePathIsRun(m: Machine, reverse: Graph, p: seq<State>, i: nat)
    requires ReversedEdges(m, reverse) && Path(reverse, p) && i < |p|
    ensures CanRun(m, p[i], p[0])
    decreases i
  {
    if i == 0 {
      assert RunFromTo(m, [], p[0], p[0]);
    } else {
      ReversePathIsRun(m, reverse, p, i - 1);
      var ts :| RunFromTo(m, ts, p[i - 1], p[0]);
      assert p[i - 1 + 1] in Next(reverse, p[i - 1]);
      assert HasEdge(m, p[i], p[i - 1]);
      var t :| t in m.transitions && t.source == p[i] && t.target == p[i - 1];
      PrependRun(m, t, ts);
    }
  }

  /** The states a run passes, in order. */
  ghost function Passed(s: State, ts: seq<Transition>): seq<State> {
    seq(|ts| + 1, i requires 0 <= i <= |ts| => StateAt(s, ts, i))
  }

  lemma {:induction false} RunIsPath(m: Machine, graph: Graph, ts: seq<Transition>, from: State, to: State)
    requires Edges(m, graph) && RunFromTo(m, ts, from, to)
    ensures Reaches(graph, from, to)
  {
    var p := Passed(from, ts);
    forall i | 0 <= i < |p| - 1
      ensures p[i + 1] in Next(graph, p[i])
    {
      assert ts[i].source == StateAt(from, ts, i);
      assert HasEdge(m, p[i], p[i + 1]);
    }
    assert PathFromTo(graph, p, from, to);
  }

  /** The states a run passes, last one first. */
  ghost function PassedBack(s: State, ts: seq<Transition>): seq<State> {
    seq(|ts| + 1, i requires 0 <= i <= |ts| => StateAt(s, ts, |ts| - i))
  }

  lemma {:induction false} RunIsReversePath(m: Machine, reverse: Graph, ts: seq<Transition>, from: State, to: State)
    requires ReversedEdges(m, reverse) && RunFromTo(m, ts, from, to)
    ensures Reaches(reverse, to, from)
  {
    var p := PassedBack(from, ts);
    forall i | 0 <= i < |p| - 1
      ensures p[i + 1] in Next(reverse, p[i])
    {
      var j := |ts| - i - 1;
      assert p[i] == StateAt(from, ts, j + 1) == ts[j].target;
      assert p[i + 1] == StateAt(from, ts, j) == ts[j].source;
      assert HasEdge(m, p[i + 1], p[i]);
    }
    assert PathFromTo(reverse, p, to, from);
  }

  lemma {:induction false} ReachableIsRun(m: Machine, graph: Graph, from: State, to: State)
    requires Edges(m, graph)
    ensures Reaches(graph, from, to) <==> CanRun(m, from, to)
  {
    if Reaches(graph, from, to) {
      var p :| PathFromTo(graph, p, from, to);
      PathIsRun(m, graph, p, |p| - 1);
    }
    if CanRun(m, from, to) {
      var ts :| RunFromTo(m, ts, from, to);
      RunIsPath(m, graph, ts, from, to);
    }
  }

  lemma {:induction false} ReverseReachableIsRun(m: Machine, reverse: Graph, from: State, to: State)
    requires ReversedEdges(m, reverse)
    ensures Reaches(reverse, to, from) <==> CanRun(m, from, to)
  {
    if Reaches(reverse, to, from) {
      var p :| PathFromTo(reverse, p, to, from);
      ReversePathIsRun(m, reverse, p, |p| - 1);
    }
    if CanRun(m, from, to) {
      var ts :| RunFromTo(m, ts, from, to);
      RunIsReversePath(m, reverse, ts, from, to);
    }
  }

  // ---------------------------------------------------------------------------------------------
  // Validation.

  predicate HasDuplicates(values: seq<string>) {
    exists i, j | 0 <= i < j < |values| :: values[i] == values[j]
  }

  function TransitionIds(ts: seq<Transition>): seq<string> {
    seq(|ts|, i requires 0 <= i < |ts| => ts[i].id)
  }

  /** The checks on a machine's header. */
  predicate HeaderAccepted(m: Machine, catalog: Catalog) {
    && !HasDuplicates(m.states)
    && m.initial in m.states
    && m.initial !in m.terminals
    && (forall s | s in m.terminals :: s in m.states)
    && m.owner in catalog.components
    && m.store in catalog.stores
    && !HasDuplicates(TransitionIds(m.transitions))
  }

  /** The checks on one transition. */
  predicate TransitionAccepted(m: Machine, catalog: Catalog, t: Transition) {
    && t.source in m.states && t.target in m.states
    && t.source !in m.terminals
    && t.actor in catalog.components && t.command in catalog.commands && t.event in catalog.events
  }

  ghost predicate TransitionsAccepted(m: Machine, catalog: Catalog) {
    forall t {:trigger TransitionAccepted(m, catalog, t)} | t in m.transitions :: TransitionAccepted(m, catalog, t)
  }

  ghost predicate AllReachable(m: Machine) {
    forall s {:trigger CanRun(m, m.initial, s)} | s in m.states :: CanRun(m, m.initial, s)
  }

  ghost predicate CanTerminate(m: Machine, s: State) {
    exists terminal | terminal in m.terminals :: CanRun(m, s, terminal)
  }

  ghost predicate NoneTrapped(m: Machine) {
    forall s {:trigger CanTerminate(m, s)} | s in m.states :: CanTerminate(m, s)
  }

  /** The machines the validator accepts, in terms of their runs. */
  ghost predicate Accepted(m: Machine, catalog: Catalog) {
    HeaderAccepted(m, catalog) && TransitionsAccepted(m, catalog) && AllReachable(m) && NoneTrapped(m)
  }

  ghost predicate HasEdgeUpTo(m: Machine, n: nat, a: State, b: State)
    requires n <= |m.transitions|
  {
    exists k | 0 <= k < n :: m.transitions[k].source == a && m.transitions[k].target == b
  }

  /** The tables hold the edges of the first `n` transitions. */
  ghost predicate EdgesUpTo(m: Machine, n: nat, graph: Graph, reverse: Graph)
    requires n <= |m.transitions|
  {
    && (forall a, b :: b in Next(graph, a) <==> HasEdgeUpTo(m, n, a, b))
    && (forall a, b :: a in Next(reverse, b) <==> HasEdgeUpTo(m, n, a, b))
  }

  lemma {:induction false} OneMoreEdge(m: Machine, n: nat, a: State, b: State)
    requires n < |m.transitions|
    ensures HasEdgeUpTo(m, n + 1, a, b) <==>
            HasEdgeUpTo(m, n, a, b) || (m.transitions[n].source == a && m.transitions[n].target == b)
  {
    if HasEdgeUpTo(m, n, a, b) {
      var k :| 0 <= k < n && m.transitions[k].source == a && m.transitions[k].target == b;
      assert k < n + 1;
    }
  }

  lemma {:induction false} AddEdge(m: Machine, n: nat, graph: Graph, reverse: Graph)
    requires n < |m.transitions| && EdgesUpTo(m, n, graph, reverse)
    ensures
      var t := m.transitions[n];
      EdgesUpTo(m, n + 1, graph[t.source := Next(graph, t.source) + {t.target}],
                reverse[t.target := Next(reverse, t.target) + {t.source}])
  {
    var t := m.transitions[n];
    var graph' := graph[t.source := Next(graph, t.source) + {t.target}];
    var reverse' := reverse[t.target := Next(reverse, t.target) + {t.source}];
    forall a, b
      ensures b in Next(graph', a) <==> HasEdgeUpTo(m, n + 1, a, b)
    {
      OneMoreEdge(m, n, a, b);
    }
    forall a, b
      ensures a in Next(reverse', b) <==> HasEdgeUpTo(m, n + 1, a, b)
    {
      OneMoreEdge(m, n, a, b);
    }
  }

  lemma {:induction false} AllEdges(m: Machine, graph: Graph, reverse: Graph)
    requires EdgesUpTo(m, |m.transitions|, graph, reverse)
    ensures Edges(m, graph) && ReversedEdges(m, reverse)
  {
    forall a, b
      ensures HasEdge(m, a, b) <==> HasEdgeUpTo(m, |m.transitions|, a, b)
    {
      if HasEdge(m, a, b) {
        var t :| t in m.transitions && t.source == a && t.target == b;
        var k :| 0 <= k < |m.transitions| && m.transitions[k] == t;
      }
    }
    forall a, b
      ensures b in Next(graph, a) <==> HasEdge(m, a, b)
      ensures b in Next(reverse, a) <==> HasEdge(m, b, a)
    {
    }
  }

  /** The transition loop: the two adjacency tables, or a refusal. */
  method BuildGraphs(m: Machine, catalog: Catalog) returns (ok: bool, graph: Graph, reverse: Graph)
    ensures ok <==> TransitionsAccepted(m, catalog)
    ensures ok ==> Edges(m, graph) && ReversedEdges(m, reverse)
  {
    graph, reverse := map[], map[];
    for n := 0 to |m.transitions|
      invariant forall k | 0 <= k < n :: TransitionAccepted(m, catalog, m.transitions[k])
      invariant EdgesUpTo(m, n, graph, reverse)
    {
      var t := m.transitions[n];
      if !TransitionAccepted(m, catalog, t) {
        return false, graph, reverse;
      }
      AddEdge(m, n, graph, reverse);
      graph := graph[t.source := Next(graph, t.source) + {t.target}];
      reverse := reverse[t.target := Next(reverse, t.target) + {t.source}];
    }
    AllEdges(m, graph, reverse);
    return true, graph, reverse;
  }

  /** Any order of a set will do for the worklist. */
  method Listed(s: set<State>) returns (queue: seq<State>)
    ensures forall x :: x in queue <==> x in s
  {
    queue := [];
    var rest := s;
    while rest != {}
      invariant rest <= s
      invariant forall x :: x in queue <==> x in s - rest
      decreases rest
    {
      var x :| x in rest;
      queue, rest := queue + [x], rest - {x};
    }
  }

  method ValidateStateMachine(m: Machine, catalog: Catalog) returns (ok: bool)
    ensures ok <==> Accepted(m, catalog)
  {
    if !HeaderAccepted(m, catalog) {
      return false;
    }
    var built, graph, reverse := BuildGraphs(m, catalog);
    if !built {
      return false;
    }
    ok := CheckReachable(m, graph);
    if ok {
      ok := CheckTrapped(m, reverse);
    }
  }

  /** The first walk: no state is unreachable. */
  method CheckReachable(m: Machine, graph: Graph) returns (ok: bool)
    requires Edges(m, graph)
    ensures ok <==> AllReachable(m)
  {
    var reachable := Walk({m.initial}, [m.initial], graph);
    forall s
      ensures s in reachable <==> CanRun(m, m.initial, s)
    {
      ReachableIsRun(m, graph, m.initial, s);
    }
    ok := forall s | s in m.states :: s in reachable;
  }

  /** The second walk, over the reversed edges: no state is trapped. */
  method CheckTrapped(m: Machine, reverse: Graph) returns (ok: bool)
    requires ReversedEdges(m, reverse)
    ensures ok <==> NoneTrapped(m)
  {
    var ends := Listed(m.terminals);
    var canTerminate := Walk(m.terminals, ends, reverse);
    forall s
      ensures s in canTerminate || s in m.terminals <==> CanTerminate(m, s)
    {
      ReverseWalkDecides(m, reverse, s);
    }
    ok := forall s | s in m.states :: s in canTerminate || s in m.terminals;
  }

  lemma {:induction false} ReverseWalkDecides(m: Machine, reverse: Graph, s: State)
    requires ReversedEdges(m, reverse)
    ensures ReachedFrom(reverse, m.terminals, s) <==> CanTerminate(m, s)
    ensures s in m.terminals ==> CanTerminate(m, s)
  {
    forall terminal | terminal in m.terminals
      ensures Reaches(reverse, terminal, s) <==> CanRun(m, s, terminal)
    {
      ReverseReachableIsRun(m, reverse, s, terminal);
    }
    ReachesItself(reverse, s);
  }

  // ---------------------------------------------------------------------------------------------
  // What acceptance guarantees about runs.

  lemma {:induction false} RunStaysInside(m: Machine, catalog: Catalog, s: State, ts: seq<Transition>)
    requires TransitionsAccepted(m, catalog) && s in m.states && RunFrom(m, s, ts)
    ensures End(s, ts) in m.states
  {
    if ts != [] {
      var t := ts[|ts| - 1];
      assert t.source == StateAt(s, ts, |ts| - 1);
      assert TransitionAccepted(m, catalog, t);
    }
  }

  lemma StateAtJoin(s: State, ts: seq<Transition>, more: seq<Transition>, i: nat)
    requires i <= |ts| + |more|
    ensures StateAt(s, ts + more, i) == if i <= |ts| then StateAt(s, ts, i) else StateAt(End(s, ts), more, i - |ts|)
    ensures i == |ts| ==> StateAt(s, ts + more, i) == StateAt(End(s, ts), more, 0)
  {
  }

  lemma {:induction false} JoinRuns(m: Machine, s: State, ts: seq<Transition>, more: seq<Transition>)
    requires RunFrom(m, s, ts) && RunFrom(m, End(s, ts), more)
    ensures RunFromTo(m, ts + more, s, End(End(s, ts), more))
  {
    var all := ts + more;
    forall i | 0 <= i < |all|
      ensures all[i] in m.transitions && all[i].source == StateAt(s, all, i)
    {
      StateAtJoin(s, ts, more, i);
      assert all[i] == if i < |ts| then ts[i] else more[i - |ts|];
    }
    StateAtJoin(s, ts, more, |all|);
  }

  ghost predicate CompletedBy(m: Machine, ts: seq<Transition>, more: seq<Transition>) {
    && RunFrom(m, m.initial, ts + more)
    && End(m.initial, ts + more) in m.terminals
    && (End(m.initial, ts) in m.terminals ==> more == [])
  }

  lemma {:induction false} RunIsCompleted(m: Machine, ts: seq<Transition>, more: seq<Transition>, terminal: State)
    requires RunFrom(m, m.initial, ts) && End(m.initial, ts) !in m.terminals
    requires RunFromTo(m, more, End(m.initial, ts), terminal) && terminal in m.terminals
    ensures CompletedBy(m, ts, more)
  {
    JoinRuns(m, m.initial, ts, more);
  }

  lemma {:induction false} RunTerminates(m: Machine, catalog: Catalog, ts: seq<Transition>)
    requires TransitionsAccepted(m, catalog) && NoneTrapped(m) && m.initial in m.states
    requires RunFrom(m, m.initial, ts)
    ensures exists more :: CompletedBy(m, ts, more)
  {
    var s := End(m.initial, ts);
    if s in m.terminals {
      assert ts + [] == ts;
      assert CompletedBy(m, ts, []);
    } else {
      assert CanTerminate(m, s) by {
        RunStaysInside(m, catalog, m.initial, ts);
      }
      var terminal :| terminal in m.terminals && CanRun(m, s, terminal);
      var more :| RunFromTo(m, more, s, terminal);
      RunIsCompleted(m, ts, more, terminal);
    }
  }

  /** Every finite run of an accepted machine goes on to a terminal state, or already stands in one. */
  lemma {:induction false} EveryRunTerminates(m: Machine, catalog: Catalog, ts: seq<Transition>)
    requires Accepted(m, catalog) && RunFrom(m, m.initial, ts)
    ensures exists more :: CompletedBy(m, ts, more)
  {
    RunTerminates(m, catalog, ts);
  }

  lemma {:induction false} NoStepFromTerminal(m: Machine, catalog: Catalog, s: State, ts: seq<Transition>, i: nat)
    requires TransitionsAccepted(m, catalog) && RunFrom(m, s, ts) && i < |ts|
    ensures StateAt(s, ts, i) !in m.terminals
  {
    assert ts[i].source == StateAt(s, ts, i);
    assert TransitionAccepted(m, catalog, ts[i]);
  }

  /** A step that refers to nothing unregistered: known states, actor, command and event. */
  ghost predicate Registered(m: Machine, catalog: Catalog, t: Transition) {
    && t.source in m.states && t.target in m.states
    && t.actor in catalog.components && t.command in catalog.commands && t.event in catalog.events
  }

  /**
   * Every step of every run of an accepted machine is registered, its identifier names it among all
   * steps of all runs, and a run that has come to an end has taken a step.
   */
  lemma {:induction false} AcceptedRunsAreRegistered(m: Machine, catalog: Catalog, ts: seq<Transition>, others: seq<Transition>, i: nat, j: nat)
    requires Accepted(m, catalog) && RunFrom(m, m.initial, ts) && RunFrom(m, m.initial, others)
    ensures m.owner in catalog.components && m.store in catalog.stores
    ensures i < |ts| ==> Registered(m, catalog, ts[i])
    ensures i < |ts| && j < |others| && ts[i].id == others[j].id ==> ts[i] == others[j]
    ensures End(m.initial, ts) in m.terminals ==> ts != []
  {
    if i < |ts| {
      assert ts[i].source == StateAt(m.initial, ts, i);
      assert TransitionAccepted(m, catalog, ts[i]);
      if j < |others| && ts[i].id == others[j].id {
        assert others[j].source == StateAt(m.initial, others, j);
        var k :| 0 <= k < |m.transitions| && m.transitions[k] == ts[i];
        var l :| 0 <= l < |m.transitions| && m.transitions[l] == others[j];
        var ids := TransitionIds(m.transitions);
        assert ids[k] == ids[l];
      }
    }
  }

  /** Names and states stand for themselves in an accepted machine: no state is listed twice, and every one is visited by a run. */
  lemma {:induction false} StatesAreVisited(m: Machine, catalog: Catalog, k: nat, l: nat)
    requires Accepted(m, catalog) && k < |m.states| && l < |m.states|
    ensures m.states[k] == m.states[l] ==> k == l
    ensures exists ts :: RunFromTo(m, ts, m.initial, m.states[k])
    ensures forall s | s in m.terminals :: s in m.states
  {
    assert CanRun(m, m.initial, m.states[k]);
  }

  /** Terminal states absorb: a run visits one only at its end. */
  lemma {:induction false} TerminalsAbsorb(m: Machine, catalog: Catalog, s: State, ts: seq<Transition>, i: nat)
    requires TransitionsAccepted(m, catalog) && RunFrom(m, s, ts) && i <= |ts|
    requires StateAt(s, ts, i) in m.terminals
    ensures i == |ts|
  {
    if i < |ts| {
      NoStepFromTerminal(m, catalog, s, ts, i);
    }
  }

  // ---------------------------------------------------------------------------------------------
  // Safety paths.

  /** `next(...)` over the transitions: the first one between the two states, if there is one. */
  function FirstBetween(ts: seq<Transition>, n: nat, source: State, target: State): nat
    requires n <= |ts|
    decreases |ts| - n
  {
    if n == |ts| || (ts[n].source == source && ts[n].target == target) then n
    else FirstBetween(ts, n + 1, source, target)
  }

  /** The transitions that enter a state, in order. */
  function Entering(ts: seq<Transition>, n: nat, target: State): seq<Transition>
    requires n <= |ts|
  {
    if n == 0 then [] else Entering(ts, n - 1, target) + if ts[n - 1].target == target then [ts[n - 1]] else []
  }

  predicate Requires(t: Transition, expected: set<string>) {
    expected <= t.preconditions
  }

  predicate FirstRequires(m: Machine, source: State, target: State, expected: set<string>) {
    var first := FirstBetween(m.transitions, 0, source, target);
    first < |m.transitions| && Requires(m.transitions[first], expected)
  }

  const ACTION_DISPATCH := {
    "matching_tenant", "valid_authorization", "valid_approval_if_R2", "valid_approval_digest",
    "valid_resource_version", "current_policy_allow", "idempotency_reserved"}

  const RUNTIME_COMMIT := {"valid_fencing_token", "matching_attempt_id", "checkpoint_committed"}

  predicate ActionSafe(action: Machine) {
    var dispatches := Entering(action.transitions, |action.transitions|, "EXECUTING");
    && |dispatches| == 1 && dispatches[0].source == "APPROVED"
    && Requires(dispatches[0], ACTION_DISPATCH)
    && (exists t | t in action.transitions :: t.source == "UNCERTAIN")
    && (forall t | t in action.transitions && t.source == "UNCERTAIN" ::
          !t.automatic && t.command == "CMD-RECONCILE-ACTION" && t.target in {"VERIFYING", "MANUAL"})
  }

  predicate RuntimeSafe(runtime: Machine) {
    var completion := Entering(runtime.transitions, |runtime.transitions|, "SUCCEEDED");
    && |completion| == 1
    && Requires(completion[0], RUNTIME_COMMIT)
    && (forall t | t in runtime.transitions && t.target == "SUCCEEDED" :: t.source == "RUNNING")
  }

  const INCIDENT_EXECUTION := {"valid_approval_digest", "valid_resource_version", "approval_not_expired"}

  const GRAPH_DISPATCH := {"valid_approval_digest", "valid_resource_version", "matching_tenant"}

  /** `_validate_safety_paths`. Of the incident and the agent graph only the first matching transition is looked at. */
  predicate SafetyPathsAccepted(incident: Machine, graph: Machine, action: Machine, runtime: Machine) {
    && FirstRequires(incident, "WAITING_APPROVAL", "EXECUTING", INCIDENT_EXECUTION)
    && FirstRequires(graph, "AWAIT_APPROVAL", "DISPATCH_ACTION", GRAPH_DISPATCH)
    && ActionSafe(action)
    && RuntimeSafe(runtime)
  }

  /** No run steps from the one state to the other without the preconditions. */
  ghost predicate RunsRequire(m: Machine, source: State, target: State, expected: set<string>) {
    forall ts | RunFrom(m, m.initial, ts) :: RunRequires(m.initial, ts, source, target, expected)
  }

  ghost predicate RunRequires(s: State, ts: seq<Transition>, source: State, target: State, expected: set<string>) {
    forall i | 0 <= i < |ts| && StateAt(s, ts, i) == source && ts[i].target == target :: Requires(ts[i], expected)
  }

  predicate IsStep(t: Transition, source: State, target: State) {
    t.source == source && t.target == target
  }

  /** After the first transition between the two states, no other one lacks the preconditions. */
  predicate LaterRequire(m: Machine, source: State, target: State, expected: set<string>) {
    forall k | FirstBetween(m.transitions, 0, source, target) < k < |m.transitions| && IsStep(m.transitions[k], source, target) ::
      Requires(m.transitions[k], expected)
  }

  lemma {:induction false} FirstIsFirst(ts: seq<Transition>, n: nat, source: State, target: State)
    requires n <= |ts|
    ensures n <= FirstBetween(ts, n, source, target) <= |ts|
    ensures FirstBetween(ts, n, source, target) < |ts| ==> IsStep(ts[FirstBetween(ts, n, source, target)], source, target)
    ensures forall k | n <= k < FirstBetween(ts, n, source, target) :: !IsStep(ts[k], source, target)
    decreases |ts| - n
  {
    if n < |ts| && !IsStep(ts[n], source, target) {
      FirstIsFirst(ts, n + 1, source, target);
    }
  }

  lemma {:induction false} RunThrough(m: Machine, t: Transition) returns (ts: seq<Transition>)
    requires AllReachable(m) && t in m.transitions && t.source in m.states
    ensures RunFrom(m, m.initial, ts) && ts != [] && ts[|ts| - 1] == t && StateAt(m.initial, ts, |ts| - 1) == t.source
  {
    assert CanRun(m, m.initial, t.source);
    var to :| RunFromTo(m, to, m.initial, t.source);
    ExtendRun(m, to, m.initial, t);
    ts := to + [t];
    assert ts[..|to|] == to;
  }

  lemma {:induction false} GuardedRunsNeedGuards(m: Machine, source: State, target: State, expected: set<string>, t: Transition)
    requires AllReachable(m) && RunsRequire(m, source, target, expected)
    requires t in m.transitions && t.source in m.states && IsStep(t, source, target)
    ensures Requires(t, expected)
  {
    var ts := RunThrough(m, t);
    assert RunRequires(m.initial, ts, source, target, expected);
  }

  lemma {:induction false} GuardsBindRun(m: Machine, source: State, target: State, expected: set<string>, ts: seq<Transition>)
    requires FirstRequires(m, source, target, expected) && LaterRequire(m, source, target, expected)
    requires RunFrom(m, m.initial, ts)
    ensures RunRequires(m.initial, ts, source, target, expected)
  {
    FirstIsFirst(m.transitions, 0, source, target);
    forall i | 0 <= i < |ts| && StateAt(m.initial, ts, i) == source && ts[i].target == target
      ensures Requires(ts[i], expected)
    {
      assert ts[i] in m.transitions && IsStep(ts[i], source, target);
      var k :| 0 <= k < |m.transitions| && m.transitions[k] == ts[i];
    }
  }

  /** With every state reachable, the check binds every run exactly if the transitions it does not look at comply. */
  lemma {:induction false} CheckBindsRunsIff(m: Machine, catalog: Catalog, source: State, target: State, expected: set<string>)
    requires AllReachable(m) && TransitionsAccepted(m, catalog) && FirstRequires(m, source, target, expected)
    ensures RunsRequire(m, source, target, expected) <==> LaterRequire(m, source, target, expected)
  {
    if RunsRequire(m, source, target, expected) {
      FirstIsFirst(m.transitions, 0, source, target);
      forall k | FirstBetween(m.transitions, 0, source, target) < k < |m.transitions| && IsStep(m.transitions[k], source, target)
        ensures Requires(m.transitions[k], expected)
      {
        assert TransitionAccepted(m, catalog, m.transitions[k]);
        GuardedRunsNeedGuards(m, source, target, expected, m.transitions[k]);
      }
    }
    if LaterRequire(m, source, target, expected) {
      forall ts | RunFrom(m, m.initial, ts) ensures RunRequires(m.initial, ts, source, target, expected) {
        GuardsBindRun(m, source, target, expected, ts);
      }
    }
  }

  /** Some run takes a step between the two states. */
  ghost predicate RunsTake(m: Machine, source: State, target: State) {
    exists ts: seq<Transition> :: ts != [] && RunFrom(m, m.initial, ts) && IsStep(ts[|ts| - 1], source, target)
  }

  /** The step a check looks at is one that some run takes. */
  lemma {:induction false} SomeRunTakes(m: Machine, catalog: Catalog, source: State, target: State, expected: set<string>)
    requires AllReachable(m) && TransitionsAccepted(m, catalog) && FirstRequires(m, source, target, expected)
    ensures RunsTake(m, source, target)
  {
    FirstIsFirst(m.transitions, 0, source, target);
    var first := m.transitions[FirstBetween(m.transitions, 0, source, target)];
    assert TransitionAccepted(m, catalog, first);
    var ts := RunThrough(m, first);
  }

  /** In accepted machines, approval binds every run of the incident and the agent graph under these conditions only. */
  lemma {:induction false} ApprovalBindsRunsIff(incident: Machine, graph: Machine, action: Machine, runtime: Machine, catalog: Catalog)
    requires SafetyPathsAccepted(incident, graph, action, runtime) && Accepted(incident, catalog) && Accepted(graph, catalog)
    ensures
      var guards := {"valid_approval_digest", "valid_resource_version", "approval_not_expired"};
      && RunsTake(incident, "WAITING_APPROVAL", "EXECUTING")
      && (RunsRequire(incident, "WAITING_APPROVAL", "EXECUTING", guards) <==> LaterRequire(incident, "WAITING_APPROVAL", "EXECUTING", guards))
    ensures
      var guards := {"valid_approval_digest", "valid_resource_version", "matching_tenant"};
      && RunsTake(graph, "AWAIT_APPROVAL", "DISPATCH_ACTION")
      && (RunsRequire(graph, "AWAIT_APPROVAL", "DISPATCH_ACTION", guards) <==> LaterRequire(graph, "AWAIT_APPROVAL", "DISPATCH_ACTION", guards))
  {
    CheckBindsRunsIff(incident, catalog, "WAITING_APPROVAL", "EXECUTING", INCIDENT_EXECUTION);
    CheckBindsRunsIff(graph, catalog, "AWAIT_APPROVAL", "DISPATCH_ACTION", GRAPH_DISPATCH);
    SomeRunTakes(incident, catalog, "WAITING_APPROVAL", "EXECUTING", INCIDENT_EXECUTION);
    SomeRunTakes(graph, catalog, "AWAIT_APPROVAL", "DISPATCH_ACTION", GRAPH_DISPATCH);
  }

  /** The machine with its first transition between the two states listed again, unguarded. */
  function WithSecond(m: Machine, source: State, target: State, id: string): Machine
    requires FirstBetween(m.transitions, 0, source, target) < |m.transitions|
  {
    var first := m.transitions[FirstBetween(m.transitions, 0, source, target)];
    m.(transitions := m.transitions + [first.(id := id, preconditions := {})])
  }

  lemma {:induction false} FirstStays(ts: seq<Transition>, more: seq<Transition>, n: nat, source: State, target: State)
    requires n <= |ts| && FirstBetween(ts, n, source, target) < |ts|
    ensures FirstBetween(ts + more, n, source, target) == FirstBetween(ts, n, source, target)
    decreases |ts| - n
  {
    assert n < |ts| ==> (ts + more)[n] == ts[n];
    if n < |ts| && !IsStep(ts[n], source, target) {
      FirstStays(ts, more, n + 1, source, target);
    }
  }

  lemma {:induction false} MoreRuns(m: Machine, larger: Machine, from: State, to: State)
    requires CanRun(m, from, to) && m.transitions <= larger.transitions
    ensures CanRun(larger, from, to)
  {
    var ts: seq<Transition> :| RunFromTo(m, ts, from, to);
    forall i | 0 <= i < |ts|
      ensures ts[i] in larger.transitions && ts[i].source == StateAt(from, ts, i)
    {
      assert ts[i].source == StateAt(from, ts, i) && ts[i] in m.transitions;
      var k :| 0 <= k < |m.transitions| && m.transitions[k] == ts[i];
      assert larger.transitions[k] == ts[i];
    }
    assert RunFromTo(larger, ts, from, to);
  }

  lemma {:induction false} MoreReach(m: Machine, larger: Machine)
    requires AllReachable(m) && NoneTrapped(m) && m.transitions <= larger.transitions
    requires larger.states == m.states && larger.initial == m.initial && larger.terminals == m.terminals
    ensures AllReachable(larger) && NoneTrapped(larger)
  {
    forall s | s in m.states ensures CanRun(larger, m.initial, s) {
      MoreRuns(m, larger, m.initial, s);
    }
    forall s | s in m.states ensures CanTerminate(larger, s) {
      assert CanTerminate(m, s);
      var terminal :| terminal in m.terminals && CanRun(m, s, terminal);
      MoreRuns(m, larger, s, terminal);
    }
  }

  lemma {:induction false} OneMoreAccepted(m: Machine, catalog: Catalog, t: Transition, larger: Machine)
    requires Accepted(m, catalog) && TransitionAccepted(m, catalog, t) && t.id !in TransitionIds(m.transitions)
    requires larger == m.(transitions := m.transitions + [t])
    ensures Accepted(larger, catalog)
  {
    MoreReach(m, larger);
    assert TransitionIds(larger.transitions) == TransitionIds(m.transitions) + [t.id];
    forall other | other in larger.transitions ensures TransitionAccepted(larger, catalog, other) {
      assert other in m.transitions || other == t;
      assert other in m.transitions ==> TransitionAccepted(m, catalog, other);
    }
  }

  /**
   * The failing input: to any accepted machine that passes the check, add the checked transition a
   * second time, without preconditions. The machine is accepted, it passes the check, and it has
   * runs that take the unguarded step.
   */
  lemma {:induction false} SecondStepIsUnchecked(m: Machine, catalog: Catalog, source: State, target: State, expected: set<string>, id: string)
    requires Accepted(m, catalog) && FirstRequires(m, source, target, expected) && expected != {}
    requires id !in TransitionIds(m.transitions)
    ensures
      var larger := WithSecond(m, source, target, id);
      Accepted(larger, catalog) && FirstRequires(larger, source, target, expected) && !RunsRequire(larger, source, target, expected)
  {
    FirstIsFirst(m.transitions, 0, source, target);
    var first := m.transitions[FirstBetween(m.transitions, 0, source, target)];
    assert TransitionAccepted(m, catalog, first);
    var second := first.(id := id, preconditions := {});
    var larger := WithSecond(m, source, target, id);
    OneMoreAccepted(m, catalog, second, larger);
    FirstStays(m.transitions, [second], 0, source, target);
    assert !Requires(second, expected);
    if RunsRequire(larger, source, target, expected) {
      assert larger.transitions[|m.transitions|] == second;
      GuardedRunsNeedGuards(larger, source, target, expected, second);
    }
  }

  /** The preconditions of a dispatch, one by one. */
  ghost predicate Dispatchable(t: Transition) {
    && "matching_tenant" in t.preconditions && "valid_authorization" in t.preconditions
    && "valid_approval_if_R2" in t.preconditions && "valid_approval_digest" in t.preconditions
    && "valid_resource_version" in t.preconditions && "current_policy_allow" in t.preconditions
    && "idempotency_reserved" in t.preconditions
  }

  /** And those of a commit. */
  ghost predicate Fenced(t: Transition) {
    && "valid_fencing_token" in t.preconditions && "matching_attempt_id" in t.preconditions
    && "checkpoint_committed" in t.preconditions
  }

  /** When one transition enters a state, every transition into that state is that one. */
  lemma {:induction false} OnlyEntry(ts: seq<Transition>, n: nat, target: State, k: nat)
    requires k < n <= |ts| && ts[k].target == target
    ensures ts[k] in Entering(ts, n, target)
    decreases n
  {
    if k < n - 1 {
      OnlyEntry(ts, n - 1, target, k);
    }
  }

  lemma {:induction false} SingleEntry(m: Machine, target: State, t: Transition)
    requires |Entering(m.transitions, |m.transitions|, target)| == 1
    requires t in m.transitions && t.target == target
    ensures t == Entering(m.transitions, |m.transitions|, target)[0]
  {
    var k :| 0 <= k < |m.transitions| && m.transitions[k] == t;
    OnlyEntry(m.transitions, |m.transitions|, target, k);
  }

  /**
   * In every run of a checked action machine, an action enters EXECUTING only from APPROVED and
   * under the full dispatch precondition; and it leaves UNCERTAIN only by a non-automatic
   * reconciliation, which is possible.
   */
  lemma {:induction false} ActionRunsAreGuarded(action: Machine, s: State, ts: seq<Transition>, i: nat)
    requires ActionSafe(action) && RunFrom(action, s, ts) && i < |ts|
    ensures ts[i].target == "EXECUTING" ==> StateAt(s, ts, i) == "APPROVED" && Dispatchable(ts[i])
    ensures StateAt(s, ts, i) == "UNCERTAIN" ==>
              !ts[i].automatic && ts[i].command == "CMD-RECONCILE-ACTION" && ts[i].target in {"VERIFYING", "MANUAL"}
    ensures exists t | t in action.transitions :: t.source == "UNCERTAIN" && t.target in {"VERIFYING", "MANUAL"}
  {
    assert ts[i].source == StateAt(s, ts, i);
    if ts[i].target == "EXECUTING" {
      SingleEntry(action, "EXECUTING", ts[i]);
    }
  }

  /** No blind retry: from UNCERTAIN back to EXECUTING leads only through a new entry into APPROVED. */
  lemma {:induction false} UncertainIsReapproved(action: Machine, s: State, ts: seq<Transition>, i: nat, j: nat)
    requires ActionSafe(action) && RunFrom(action, s, ts) && i < j < |ts|
    requires StateAt(s, ts, i) == "UNCERTAIN" && ts[j].target == "EXECUTING"
    ensures exists k | i < k < j :: ts[k].target == "APPROVED"
  {
    ActionRunsAreGuarded(action, s, ts, i);
    ActionRunsAreGuarded(action, s, ts, j);
    assert StateAt(s, ts, i + 1) == ts[i].target;
    assert ts[j - 1].target == StateAt(s, ts, j) == "APPROVED";
  }

  /** Every entry to SUCCEEDED, in any run, is the same fenced commit from RUNNING. */
  lemma {:induction false} RuntimeCommitIsSingle(runtime: Machine, s: State, ts: seq<Transition>, i: nat)
    requires RuntimeSafe(runtime) && RunFrom(runtime, s, ts) && i < |ts|
    requires ts[i].target == "SUCCEEDED"
    ensures forall t | t in runtime.transitions && t.target == "SUCCEEDED" :: t == ts[i]
    ensures StateAt(s, ts, i) == "RUNNING" && Fenced(ts[i])
  {
    assert ts[i].source == StateAt(s, ts, i);
    SingleEntry(runtime, "SUCCEEDED", ts[i]);
    assert Requires(ts[i], RUNTIME_COMMIT);
    forall t | t in runtime.transitions && t.target == "SUCCEEDED" ensures t == ts[i] {
      SingleEntry(runtime, "SUCCEEDED", t);
    }
  }

  /** Where SUCCEEDED is terminal in an accepted machine, a run commits at most once, at its end. */
  lemma {:induction false} CommitEndsTheRun(runtime: Machine, catalog: Catalog, s: State, ts: seq<Transition>, i: nat)
    requires TransitionsAccepted(runtime, catalog) && RuntimeSafe(runtime) && "SUCCEEDED" in runtime.terminals
    requires RunFrom(runtime, s, ts) && i < |ts| && ts[i].target == "SUCCEEDED"
    ensures i == |ts| - 1
  {
    assert StateAt(s, ts, i + 1) == "SUCCEEDED";
    TerminalsAbsorb(runtime, catalog, s, ts, i + 1);
  }
}
