/** The minimal state-graph runner of amin_agent/graph.py: a registry of node
    functions, static edges, conditional routers and an entry point, walked
    from the entry for at most 50 steps while each node's result is merged
    into a shared state dictionary.

    Python stores callables in the registries. Here a registry holds values of
    the type parameters `F` (node functions) and `R` (routers), and a
    `Semantics` value says what calling one of them does, so that the
    registries can be compared and reasoned about as plain maps. */
module Graph {
  import opened Wrappers

  const END: string := "__END__"
  const MAX_VISITS: nat := 50

  type State<V> = map<string, V>

  /** What the registered callables do when the runner calls them: a node
      function returns None, returns a dict, or raises; a router returns the
      name of the next node or raises. */
  datatype Semantics<!F, !R, !V> = Semantics(
    call: (F, State<V>) -> Result<Option<State<V>>, string>,
    route: (R, State<V>) -> Result<string, string>)

  /** The registrations of a graph at one moment. */
  datatype Spec<F, R> = Spec(
    nodes: map<string, F>,
    edges: map<string, seq<string>>,
    conditional: map<string, R>,
    entry: Option<string>)

  /** `state.update(res)` after `res = {} if res is None`: the keys of the
      result overwrite, every other key keeps its value. */
  function Merge<V>(s: State<V>, res: Option<State<V>>): (r: State<V>)
    ensures res.None? ==> r == s
    ensures res.Some? ==> r.Keys == s.Keys + res.value.Keys
    ensures res.Some? ==> forall k :: k in res.value ==> r[k] == res.value[k]
    ensures forall k :: k in s && (res.None? || k !in res.value) ==> r[k] == s[k]
  {
    match res
    case None => s
    case Some(u) => s + u
  }

  /** The node after `name` when it has no router: the first registered edge,
      or END when it has none. */
  function FirstEdge(edges: map<string, seq<string>>, name: string): string {
    if name in edges && |edges[name]| > 0 then edges[name][0] else END
  }

  function NoNodeMessage(current: Option<string>): string {
    "No node named " + (match current case Some(n) => n case None => "None")
  }

  /** How a walk ended: the state as it stands when the walk stops, how many
      loop iterations ran, and the exception, if one was raised. */
  datatype Walk<V> = Walk(state: State<V>, visits: nat, error: Option<string>)

  /** The walk from `current`, `visits` iterations having run already. Each
      iteration runs at most one node, so at most 50 node functions run, on
      any graph. */
  function Run<F, R, V>(g: Spec<F, R>, sem: Semantics<F, R, V>, current: Option<string>,
                        state: State<V>, visits: nat): (w: Walk<V>)
    requires visits <= MAX_VISITS
    ensures visits <= w.visits <= MAX_VISITS
    ensures w.visits == visits <==> current == Some(END) || visits == MAX_VISITS
    decreases MAX_VISITS - visits
  {
    if current == Some(END) || visits == MAX_VISITS then Walk(state, visits, None)
    else if current.None? || current.value !in g.nodes then
      Walk(state, visits + 1, Some(NoNodeMessage(current)))
    else
      var name := current.value;
      match sem.call(g.nodes[name], state)
      case Failure(e) => Walk(state, visits + 1, Some(e))
      case Success(res) =>
        var s := Merge(state, res);
        if name in g.conditional then
          match sem.route(g.conditional[name], s)
          case Failure(e) => Walk(s, visits + 1, Some(e))
          case Success(next) => Run(g, sem, Some(next), s, visits + 1)
        else
          Run(g, sem, Some(FirstEdge(g.edges, name)), s, visits + 1)
  }

  /** The walk `Runnable.invoke` performs: from the entry, with nothing run yet. */
  function Invoked<F, R, V>(g: Spec<F, R>, sem: Semantics<F, R, V>, state: State<V>): Walk<V> {
    Run(g, sem, g.entry, state, 0)
  }

  /** A name with no registered node raises "No node named ...", and walking
      stops there with the state as it was. */
  lemma UnknownNodeRaises<F, R, V>(g: Spec<F, R>, sem: Semantics<F, R, V>, name: Option<string>,
                                   state: State<V>, visits: nat)
    requires visits < MAX_VISITS
    requires name != Some(END) && (name.None? || name.value !in g.nodes)
    ensures Run(g, sem, name, state, visits) == Walk(state, visits + 1, Some(NoNodeMessage(name)))
  {
  }

  /** A node with a router hands over to the node the router names, with
      the node's result merged. */
  lemma RoutedStep<F, R, V>(g: Spec<F, R>, sem: Semantics<F, R, V>, name: string, state: State<V>, visits: nat,
                            res: Option<State<V>>, next: string)
    requires visits < MAX_VISITS && name != END && name in g.nodes && name in g.conditional
    requires sem.call(g.nodes[name], state) == Success(res)
    requires sem.route(g.conditional[name], Merge(state, res)) == Success(next)
    ensures Run(g, sem, Some(name), state, visits) == Run(g, sem, Some(next), Merge(state, res), visits + 1)
  {
  }

  /** The same step taken from the entry point. */
  lemma EntryRoutedStep<F, R, V>(g: Spec<F, R>, sem: Semantics<F, R, V>, state: State<V>,
                                 res: Option<State<V>>, next: string)
    requires g.entry.Some? && g.entry.value != END && g.entry.value in g.nodes && g.entry.value in g.conditional
    requires sem.call(g.nodes[g.entry.value], state) == Success(res)
    requires sem.route(g.conditional[g.entry.value], Merge(state, res)) == Success(next)
    ensures Invoked(g, sem, state) == Run(g, sem, Some(next), Merge(state, res), 1)
  {
    RoutedStep(g, sem, g.entry.value, state, 0, res, next);
  }

  /** An entry whose router names an unregistered node raises on the second
      iteration, the entry's result merged. */
  lemma EntryRoutesToUnknown<F, R, V>(g: Spec<F, R>, sem: Semantics<F, R, V>, state: State<V>,
                                      res: Option<State<V>>, next: string)
    requires g.entry.Some? && g.entry.value != END && g.entry.value in g.nodes && g.entry.value in g.conditional
    requires sem.call(g.nodes[g.entry.value], state) == Success(res)
    requires sem.route(g.conditional[g.entry.value], Merge(state, res)) == Success(next)
    requires next != END && next !in g.nodes
    ensures Invoked(g, sem, state) == Walk(Merge(state, res), 2, Some(NoNodeMessage(Some(next))))
  {
    EntryRoutedStep(g, sem, state, res, next);
    UnknownNodeRaises(g, sem, Some(next), Merge(state, res), 1);
  }

  /** A graph whose entry was never set raises "No node named None". */
  lemma NoEntryRaises<F, R, V>(g: Spec<F, R>, sem: Semantics<F, R, V>, state: State<V>)
    requires g.entry.None?
    ensures Invoked(g, sem, state) == Walk(state, 1, Some("No node named None"))
  {
    assert NoNodeMessage(None) == "No node named None";
  }

  /** A node with no router and no edges leads to END: after it runs, the walk
      stops without error, holding the merged state. */
  lemma DeadEndStops<F, R, V>(g: Spec<F, R>, sem: Semantics<F, R, V>, name: string,
                              state: State<V>, visits: nat)
    requires visits < MAX_VISITS && name != END
    requires name in g.nodes && name !in g.conditional && (name !in g.edges || g.edges[name] == [])
    requires sem.call(g.nodes[name], state).Success?
    ensures Run(g, sem, Some(name), state, visits) ==
            Walk(Merge(state, sem.call(g.nodes[name], state).value), visits + 1, None)
  {
    var s := Merge(state, sem.call(g.nodes[name], state).value);
    assert FirstEdge(g.edges, name) == END;
    assert Run(g, sem, Some(END), s, visits + 1) == Walk(s, visits + 1, None);
  }

  /** On a cycle the limit is what stops the walk: a node that always
      succeeds and whose only edge leads back to itself runs until the 50th
      iteration, and the walk ends there without error. */
  lemma {:induction false} SelfLoopRunsToLimit<F, R, V>(g: Spec<F, R>, sem: Semantics<F, R, V>, name: string,
                                                       state: State<V>, visits: nat)
    requires visits <= MAX_VISITS && name != END
    requires name in g.nodes && name !in g.conditional && name in g.edges && |g.edges[name]| > 0
    requires g.edges[name][0] == name
    requires forall s :: sem.call(g.nodes[name], s).Success?
    ensures Run(g, sem, Some(name), state, visits).visits == MAX_VISITS
    ensures Run(g, sem, Some(name), state, visits).error.None?
    decreases MAX_VISITS - visits
  {
    if visits < MAX_VISITS {
      var s := Merge(state, sem.call(g.nodes[name], state).value);
      assert FirstEdge(g.edges, name) == name;
      SelfLoopRunsToLimit(g, sem, name, s, visits + 1);
    }
  }

  /** `add_edge` appends, but only the first edge of a source is ever
      followed: appending another destination to a source that already has
      one changes no walk. */
  lemma {:induction false} LaterEdgesIgnored<F, R, V>(g: Spec<F, R>, sem: Semantics<F, R, V>, src: string, dst: string,
                                                     current: Option<string>, state: State<V>, visits: nat)
    requires visits <= MAX_VISITS
    requires src in g.edges && |g.edges[src]| > 0
    ensures Run(g.(edges := g.edges[src := g.edges[src] + [dst]]), sem, current, state, visits) ==
            Run(g, sem, current, state, visits)
    decreases MAX_VISITS - visits
  {
    var g' := g.(edges := g.edges[src := g.edges[src] + [dst]]);
    if current == Some(END) || visits == MAX_VISITS || current.None? || current.value !in g.nodes {
    } else {
      var name := current.value;
      assert FirstEdge(g'.edges, name) == FirstEdge(g.edges, name);
      match sem.call(g.nodes[name], state)
      case Failure(e) =>
      case Success(res) =>
        var s := Merge(state, res);
        if name in g.conditional {
          match sem.route(g.conditional[name], s)
          case Failure(e) =>
          case Success(next) => LaterEdgesIgnored(g, sem, src, dst, Some(next), s, visits + 1);
        } else {
          LaterEdgesIgnored(g, sem, src, dst, Some(FirstEdge(g.edges, name)), s, visits + 1);
        }
    }
  }

  /** A router takes precedence over static edges: whatever edges a routed
      node has, no walk changes. */
  lemma {:induction false} RouterOverridesEdges<F, R, V>(g: Spec<F, R>, sem: Semantics<F, R, V>, src: string, outs: seq<string>,
                                                        current: Option<string>, state: State<V>, visits: nat)
    requires visits <= MAX_VISITS
    requires src in g.conditional
    ensures Run(g.(edges := g.edges[src := outs]), sem, current, state, visits) == Run(g, sem, current, state, visits)
    decreases MAX_VISITS - visits
  {
    var g' := g.(edges := g.edges[src := outs]);
    if current == Some(END) || visits == MAX_VISITS || current.None? || current.value !in g.nodes {
    } else {
      var name := current.value;
      match sem.call(g.nodes[name], state)
      case Failure(e) =>
      case Success(res) =>
        var s := Merge(state, res);
        if name in g.conditional {
          match sem.route(g.conditional[name], s)
          case Failure(e) =>
          case Success(next) => RouterOverridesEdges(g, sem, src, outs, Some(next), s, visits + 1);
        } else {
          assert name != src;
          assert FirstEdge(g'.edges, name) == FirstEdge(g.edges, name);
          RouterOverridesEdges(g, sem, src, outs, Some(FirstEdge(g.edges, name)), s, visits + 1);
        }
    }
  }

  /** The state dictionary the runner mutates; callers keep a reference to it. */
  class StateDict<V> {
    var entries: State<V>

    constructor (init: State<V>)
      ensures entries == init
    {
      entries := init;
    }
  }

  class StateGraph<F, R> {
    var nodes: map<string, F>
    var edges: map<string, seq<string>>
    var conditional: map<string, R>
    var entry: Option<string>

    function View(): Spec<F, R>
      reads this
    {
      Spec(nodes, edges, conditional, entry)
    }

    constructor ()
      ensures View() == Spec(map[], map[], map[], None)
    {
      nodes, edges, conditional, entry := map[], map[], map[], None;
    }

    /** Registers (or re-registers, overwriting) the node function of `name`. */
    method AddNode(name: string, f: F)
      modifies this
      ensures View() == old(View()).(nodes := old(nodes)[name := f])
    {
      nodes := nodes[name := f];
    }

    /** Appends `dst` to the destinations of `src`, in call order. */
    method AddEdge(src: string, dst: string)
      modifies this
      ensures View() == old(View()).(edges := old(edges)[src := (if src in old(edges) then old(edges)[src] else []) + [dst]])
    {
      var outs := if src in edges then edges[src] else [];
      edges := edges[src := outs + [dst]];
    }

    /** Registers (overwriting) the router of `source`. */
    method AddConditionalEdges(source: string, path: R)
      modifies this
      ensures View() == old(View()).(conditional := old(conditional)[source := path])
    {
      conditional := conditional[source := path];
    }

    /** Sets (overwriting) the entry point. */
    method SetEntryPoint(name: string)
      modifies this
      ensures View() == old(View()).(entry := Some(name))
    {
      entry := Some(name);
    }

    /** The runnable keeps a reference to this graph, so registrations made
        after compiling are seen by later invocations. */
    method Compile() returns (r: Runnable<F, R>)
      ensures fresh(r) && r.graph == this
    {
      r := new Runnable(this);
    }
  }

  class Runnable<F, R> {
    const graph: StateGraph<F, R>

    constructor (g: StateGraph<F, R>)
      ensures graph == g
    {
      graph := g;
    }

    /** Walks the graph from its entry, merging node results into `state`.
        The dictionary passed in is the one mutated and, on success, the one
        returned; on an exception it still holds every merge made before. */
    method Invoke<V>(state: StateDict<V>, sem: Semantics<F, R, V>) returns (r: Result<StateDict<V>, string>)
      modifies state
      ensures state.entries == Invoked(graph.View(), sem, old(state.entries)).state
      ensures Invoked(graph.View(), sem, old(state.entries)).error.None? ==> r == Success(state)
      ensures Invoked(graph.View(), sem, old(state.entries)).error.Some? ==>
                r == Failure(Invoked(graph.View(), sem, old(state.entries)).error.value)
    {
      var nodes, edges, conditional := graph.nodes, graph.edges, graph.conditional;
      ghost var g := Spec(nodes, edges, conditional, graph.entry);
      ghost var w := Run(g, sem, g.entry, state.entries, 0);
      var current := graph.entry;
      var visited := 0;
      while current != Some(END) && visited < MAX_VISITS
        invariant visited <= MAX_VISITS
        invariant Run(g, sem, current, state.entries, visited) == w
        decreases MAX_VISITS - visited
      {
        visited := visited + 1;
        if current.None? || current.value !in nodes {
          return Failure(NoNodeMessage(current));
        }
        var res := sem.call(nodes[current.value], state.entries);
        if res.Failure? {
          return Failure(res.error);
        }
        state.entries := Merge(state.entries, res.value);
        if current.value in conditional {
          var next := sem.route(conditional[current.value], state.entries);
          if next.Failure? {
            return Failure(next.error);
          }
          current := Some(next.value);
          continue;
        }
        current := Some(FirstEdge(edges, current.value));
      }
      return Success(state);
    }
  }
}
