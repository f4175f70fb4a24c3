/** The agent of amin_agent/main.py: an oracle node that asks the LLM for
    the next action, a tool node that runs it, a router that follows the
    action's tool name, the graph wiring them together, and the
    conversation loop around the compiled graph. */
module AminMain {
  import opened Wrappers
  import opened Values
  import Graph
  import AdapterTools
  import opened AminActions

  /** A value of the agent state dict: the input text, the chat history,
      the list of intermediate steps, or the final output. */
  datatype Slot = Text(s: string) | History(messages: seq<Message>) | Steps(actions: seq<Action>) | Out(v: Value)

  type AgentState = Graph.State<Slot>

  /** The node functions registered in the graph. */
  datatype Node = RunOracleNode | RunToolNode

  /** The router of the oracle node: `router` as written, which names the
      last step's tool even when that is an assistant reply, and the
      corrected one, which ends the walk on an assistant reply. */
  datatype Router = RouteToTool | RouteReplyToEnd

  /** The state holds the three keys `run_oracle` reads, with values of the
      kinds it expects. */
  predicate OracleReady(state: AgentState) {
    "input" in state && state["input"].Text? && "chat_history" in state && state["chat_history"].History? &&
    "intermediate_steps" in state && state["intermediate_steps"].Steps?
  }

  /** The LLM call of the oracle: the action for the input, the chat
      history and the intermediate steps. */
  type Llm = (string, seq<Message>, seq<Action>) -> Action

  /** The tools by name, called with keyword arguments. */
  type Tools = (string, map<string, Value>) -> Result<Value, string>

  /** `call_llm` with the agent's system prompt, which never raises on the
      wrapper's reply. */
  function AgentLlm(h: Host, systemPrompt: string): Llm {
    (userInput: string, history: seq<Message>, steps: seq<Action>) =>
      CallLlmOf(h, userInput, history, steps, systemPrompt).value
  }

  /** The oracle's LLM call is `call_llm` itself. */
  lemma AgentLlmCalls(h: Host, systemPrompt: string, userInput: string, history: seq<Message>, steps: seq<Action>)
    ensures Success(AgentLlm(h, systemPrompt)(userInput, history, steps)) == CallLlmOf(h, userInput, history, steps, systemPrompt)
  {
  }

  /** A reply that is not a tool call becomes an assistant reply wrapping
      the reply text. */
  lemma AgentLlmPlainReply(h: Host, systemPrompt: string, userInput: string, history: seq<Message>, steps: seq<Action>)
    requires !IsToolCall(h, Str(h.chat(Messages(h, userInput, history, steps, systemPrompt))))
    ensures var text := h.chat(Messages(h, userInput, history, steps, systemPrompt));
            AgentLlm(h, systemPrompt)(userInput, history, steps) == Action(ASSISTANT_REPLY, map["content" := Str(text)], None)
  {
    var text := h.chat(Messages(h, userInput, history, steps, systemPrompt));
    assert ContentOf(Response(text)) == Success(Str(text));
  }

  /** The action the LLM call returns for the state. */
  function OracleAction(llm: Llm, state: AgentState): Action
    requires OracleReady(state)
  {
    llm(state["input"].s, state["chat_history"].messages, state["intermediate_steps"].actions)
  }

  /** `run_oracle(state)`: one LLM call; the new step list holds only its
      action. A missing key raises KeyError. */
  function RunOracle(llm: Llm, state: AgentState): (r: Result<Option<AgentState>, string>)
    ensures r.Success? <==> OracleReady(state)
    ensures r.Success? ==> r.value == Some(map["intermediate_steps" := Steps([OracleAction(llm, state)])])
  {
    if "input" !in state then Failure("KeyError: 'input'")
    else if "chat_history" !in state then Failure("KeyError: 'chat_history'")
    else if "intermediate_steps" !in state then Failure("KeyError: 'intermediate_steps'")
    else if !OracleReady(state) then Failure("TypeError: unexpected state " + "value")
    else Success(Some(map["intermediate_steps" := Steps([OracleAction(llm, state)])]))
  }

  /** The oracle's step list replaces the old one instead of extending it,
      and every other key of the state is kept. */
  lemma OracleReplacesSteps(llm: Llm, state: AgentState)
    requires OracleReady(state)
    ensures var s := Graph.Merge(state, RunOracle(llm, state).value);
            s.Keys == state.Keys &&
            s["intermediate_steps"] == Steps([OracleAction(llm, state)]) &&
            forall k :: k in state && k != "intermediate_steps" ==> s[k] == state[k]
  {
  }

  /** `router(state)`: the tool name of the last step when the steps are a
      list (IndexError when it is empty), and "final_answer" otherwise. The
      corrected router ends the walk instead of naming an assistant reply. */
  function Route(router: Router, state: AgentState): (r: Result<string, string>)
    ensures r.Success? <==> "intermediate_steps" in state && (state["intermediate_steps"].Steps? ==> |state["intermediate_steps"].actions| > 0)
    ensures r.Success? && !state["intermediate_steps"].Steps? ==> r.value == "final_answer"
    ensures r.Success? && state["intermediate_steps"].Steps? ==>
              var last := state["intermediate_steps"].actions[|state["intermediate_steps"].actions| - 1];
              r.value == (if router == RouteReplyToEnd && last.toolName == ASSISTANT_REPLY then Graph.END else last.toolName)
  {
    if "intermediate_steps" !in state then Failure("KeyError: 'intermediate_steps'")
    else
      match state["intermediate_steps"]
      case Steps(actions) =>
        if |actions| == 0 then Failure("IndexError: list index out of " + "range")
        else
          var name := actions[|actions| - 1].toolName;
          if router == RouteReplyToEnd && name == ASSISTANT_REPLY then Success(Graph.END) else Success(name)
      case _ => Success("final_answer")
  }

  /** The scraper's candidates as the list of their dictionaries. */
  function CandidateList(found: seq<AdapterTools.Candidate>): (r: Value)
    ensures r.List? && |r.items| == |found|
    ensures forall i :: 0 <= i < |found| ==> r.items[i] == Dict(AdapterTools.CandidateDict(found[i]))
  {
    List(seq(|found|, i requires 0 <= i < |found| => Dict(AdapterTools.CandidateDict(found[i]))))
  }

  /** `tool_str_to_func[tool_name](**tool_args)`: an unknown name raises
      KeyError; otherwise the arguments are bound and the tool runs. */
  function CallTool(h: Host, name: string, args: map<string, Value>): (r: Result<Value, string>)
    ensures name != "linkedin_scraper" && name != "final_answer" ==> r.Failure?
    ensures name == "final_answer" ==>
              r == (match Bind("final_answer", AdapterTools.FINAL_ANSWER_FORMALS, args)
                    case Failure(e) => Failure(e)
                    case Success(bound) => AdapterTools.FinalAnswerOf(h, bound["candidates"], bound["role"]))
    ensures name == "linkedin_scraper" ==>
              r == (match Bind("linkedin_scraper", AdapterTools.SCRAPER_FORMALS, args)
                    case Failure(e) => Failure(e)
                    case Success(bound) =>
                      match AdapterTools.ScraperOnValues(bound["query"], bound["max_results"])
                      case Failure(e) => Failure(e)
                      case Success(found) => Success(CandidateList(found)))
  {
    if name == "linkedin_scraper" then
      var bound :- Bind("linkedin_scraper", AdapterTools.SCRAPER_FORMALS, args);
      var found :- AdapterTools.ScraperOnValues(bound["query"], bound["max_results"]);
      Success(CandidateList(found))
    else if name == "final_answer" then
      var bound :- Bind("final_answer", AdapterTools.FINAL_ANSWER_FORMALS, args);
      AdapterTools.FinalAnswerOf(h, bound["candidates"], bound["role"])
    else Failure("KeyError: '" + name + "'")
  }

  /** `run_tool(state)`: runs the last step's tool. The final answer puts
      only its result under "output"; any other tool gives a one-step list
      holding the same call with `str(out)` as its output. */
  function RunTool(h: Host, tools: Tools, state: AgentState): (r: Result<Option<AgentState>, string>)
    ensures r.Success? ==> "intermediate_steps" in state && state["intermediate_steps"].Steps? && |state["intermediate_steps"].actions| > 0
    ensures r.Success? ==>
              var last := state["intermediate_steps"].actions[|state["intermediate_steps"].actions| - 1];
              var out := tools(last.toolName, last.toolInput);
              out.Success? &&
              (last.toolName == "final_answer" ==> r.value == Some(map["output" := Out(out.value)])) &&
              (last.toolName != "final_answer" ==>
                 r.value == Some(map["intermediate_steps" := Steps([Action(last.toolName, last.toolInput, Some(Format(h, out.value)))])]))
  {
    if "intermediate_steps" !in state then Failure("KeyError: 'intermediate_steps'")
    else if !state["intermediate_steps"].Steps? then Failure("TypeError: object is not " + "subscriptable")
    else
      var steps := state["intermediate_steps"].actions;
      if |steps| == 0 then Failure("IndexError: list index out of " + "range")
      else
        var last := steps[|steps| - 1];
        var out :- tools(last.toolName, last.toolInput);
        if last.toolName == "final_answer" then Success(Some(map["output" := Out(out)]))
        else Success(Some(map["intermediate_steps" := Steps([Action(last.toolName, last.toolInput, Some(Format(h, out)))])]))
  }

  /** The agent's tools: `tool_str_to_func`. */
  function AgentTools(h: Host): Tools {
    (name: string, args: map<string, Value>) => CallTool(h, name, args)
  }

  /** What the registered node functions and routers do, for an LLM call
      and a tool table. */
  function Sem(h: Host, llm: Llm, tools: Tools): Graph.Semantics<Node, Router, Slot> {
    Graph.Semantics(
      (f: Node, s: AgentState) => match f case RunOracleNode => RunOracle(llm, s) case RunToolNode => RunTool(h, tools, s),
      (r: Router, s: AgentState) => Route(r, s))
  }

  /** The agent's own semantics: `call_llm` and `tool_str_to_func`. */
  function AgentSem(h: Host, systemPrompt: string): Graph.Semantics<Node, Router, Slot> {
    Sem(h, AgentLlm(h, systemPrompt), AgentTools(h))
  }

  /** The graph `create_runnable` builds, with the given router on the
      oracle. */
  function AgentGraph(router: Router): Graph.Spec<Node, Router> {
    Graph.Spec(
      map["oracle" := RunOracleNode, "linkedin_scraper" := RunToolNode, "final_answer" := RunToolNode],
      map["linkedin_scraper" := ["oracle"], "final_answer" := [Graph.END]],
      map["oracle" := router],
      Some("oracle"))
  }

  /** `create_runnable()`: the registrations in the order the source makes
      them. */
  method CreateRunnable(router: Router) returns (r: Graph.Runnable<Node, Router>)
    ensures fresh(r) && fresh(r.graph)
    ensures r.graph.View() == AgentGraph(router)
  {
    var graph := new Graph.StateGraph<Node, Router>();
    graph.AddNode("oracle", RunOracleNode);
    graph.AddNode("linkedin_scraper", RunToolNode);
    graph.AddNode("final_answer", RunToolNode);
    graph.SetEntryPoint("oracle");
    graph.AddConditionalEdges("oracle", router);
    assert graph.View() == Graph.Spec(AgentGraph(router).nodes, map[], map["oracle" := router], Some("oracle"));
    graph.AddEdge("linkedin_scraper", "oracle");
    assert [] + ["oracle"] == ["oracle"];
    assert graph.edges == map["linkedin_scraper" := ["oracle"]];
    graph.AddEdge("final_answer", Graph.END);
    assert [] + [Graph.END] == [Graph.END];
    assert graph.edges == AgentGraph(router).edges;
    r := graph.Compile();
  }

  /** The state `run_with_input` starts from. */
  function InitialState(userInput: string): AgentState {
    map["input" := Text(userInput), "chat_history" := History([]), "intermediate_steps" := Steps([]), "output" := Out(Dict(map[]))]
  }

  /** `state.get("intermediate_steps") or []`, for the step lists the nodes
      write. */
  function StepsOf(state: AgentState): seq<Action> {
    if "intermediate_steps" in state && state["intermediate_steps"].Steps? then state["intermediate_steps"].actions else []
  }

  /** How `run_with_input` returns: the state itself, or the dict holding an
      assistant reply's content and the state. */
  datatype Outcome = Returned(state: AgentState) | AssistantReplied(content: Value, state: AgentState)

  /** The result of the conversation loop together with the number of graph
      invocations it made. */
  datatype Conversation = Conversation(result: Result<Outcome, string>, invocations: nat)

  /** The loop of `run_with_input` with `rounds` iterations left: invoke the
      graph, then stop on no steps, on an assistant reply, or (after one
      more invocation) on a final answer; otherwise go round again. */
  function Loop(g: Graph.Spec<Node, Router>, sem: Graph.Semantics<Node, Router, Slot>, state: AgentState, rounds: nat): (c: Conversation)
    ensures c.invocations <= rounds + 1
    ensures rounds > 0 ==> c.invocations >= 1
    decreases rounds
  {
    if rounds == 0 then Conversation(Success(Returned(state)), 0)
    else
      var w := Graph.Invoked(g, sem, state);
      if w.error.Some? then Conversation(Failure(w.error.value), 1)
      else
        var steps := StepsOf(w.state);
        if |steps| == 0 then Conversation(Success(Returned(w.state)), 1)
        else
          var last := steps[|steps| - 1];
          if last.toolName == ASSISTANT_REPLY then
            Conversation(Success(AssistantReplied(Get(last.toolInput, "content", Null), w.state)), 1)
          else if last.toolName == "final_answer" then
            var w2 := Graph.Invoked(g, sem, w.state);
            Conversation(if w2.error.Some? then Failure(w2.error.value) else Success(Returned(w2.state)), 2)
          else
            var c := Loop(g, sem, w.state, rounds - 1);
            Conversation(c.result, c.invocations + 1)
  }

  const ROUNDS: nat := 8

  /** The loop of `run_with_input` on a compiled graph and a state dict:
      the dict is the one every invocation updates. */
  method Converse(runnable: Graph.Runnable<Node, Router>, sem: Graph.Semantics<Node, Router, Slot>, state: Graph.StateDict<Slot>)
    returns (r: Result<Outcome, string>)
    modifies state
    ensures r == Loop(runnable.graph.View(), sem, old(state.entries), ROUNDS).result
  {
    ghost var g := runnable.graph.View();
    ghost var expected := Loop(g, sem, state.entries, ROUNDS).result;
    var current := state;
    for i := 0 to ROUNDS
      invariant current == state
      invariant Loop(g, sem, state.entries, ROUNDS - i).result == expected
    {
      ghost var before := state.entries;
      var invoked := runnable.Invoke(current, sem);
      if invoked.Failure? {
        return Failure(invoked.error);
      }
      current := invoked.value;
      var steps := StepsOf(current.entries);
      if |steps| == 0 {
        return Success(Returned(current.entries));
      }
      var last := steps[|steps| - 1];
      if last.toolName == ASSISTANT_REPLY {
        return Success(AssistantReplied(Get(last.toolInput, "content", Null), current.entries));
      }
      if last.toolName == "final_answer" {
        invoked := runnable.Invoke(current, sem);
        if invoked.Failure? {
          return Failure(invoked.error);
        }
        return Success(Returned(invoked.value.entries));
      }
      assert Loop(g, sem, before, ROUNDS - i).result == Loop(g, sem, state.entries, ROUNDS - i - 1).result;
    }
    return Success(Returned(current.entries));
  }

  /** `run_with_input(user_input)`, on the graph with the corrected router. */
  method RunWithInput(h: Host, systemPrompt: string, userInput: string) returns (r: Result<Outcome, string>)
    ensures r == Loop(AgentGraph(RouteReplyToEnd), AgentSem(h, systemPrompt), InitialState(userInput), ROUNDS).result
  {
    var runnable := CreateRunnable(RouteReplyToEnd);
    var state := new Graph.StateDict(InitialState(userInput));
    r := Converse(runnable, AgentSem(h, systemPrompt), state);
  }

  /** The loop makes at most 8 invocations, plus the one after a final
      answer. */
  lemma RunWithInputBound(h: Host, systemPrompt: string, userInput: string, router: Router)
    ensures 1 <= Loop(AgentGraph(router), AgentSem(h, systemPrompt), InitialState(userInput), ROUNDS).invocations <= ROUNDS + 1
  {
  }

  /** Calling a registered node or router does what its token stands for. */
  lemma SemApplies(h: Host, llm: Llm, tools: Tools, state: AgentState, router: Router)
    ensures Sem(h, llm, tools).call(RunOracleNode, state) == RunOracle(llm, state)
    ensures Sem(h, llm, tools).call(RunToolNode, state) == RunTool(h, tools, state)
    ensures Sem(h, llm, tools).route(router, state) == Route(router, state)
  {
  }

  /** The loop stops on the first invocation that raises, with its error. */
  lemma LoopStopsOnError(g: Graph.Spec<Node, Router>, sem: Graph.Semantics<Node, Router, Slot>, state: AgentState, rounds: nat)
    requires rounds > 0 && Graph.Invoked(g, sem, state).error.Some?
    ensures Loop(g, sem, state, rounds).result == Failure(Graph.Invoked(g, sem, state).error.value)
  {
  }

  /** The loop stops on an invocation whose last step is an assistant reply,
      with the reply's content and the state. */
  lemma LoopStopsOnReply(g: Graph.Spec<Node, Router>, sem: Graph.Semantics<Node, Router, Slot>, state: AgentState, rounds: nat)
    requires rounds > 0
    requires var w := Graph.Invoked(g, sem, state);
             w.error.None? && |StepsOf(w.state)| > 0 && StepsOf(w.state)[|StepsOf(w.state)| - 1].toolName == ASSISTANT_REPLY
    ensures var w := Graph.Invoked(g, sem, state);
            Loop(g, sem, state, rounds).result ==
              Success(AssistantReplied(Get(StepsOf(w.state)[|StepsOf(w.state)| - 1].toolInput, "content", Null), w.state))
  {
  }

  /** Semantics whose oracle answers `state` with the single step `a` and
      whose routers are `router` above. */
  ghost predicate OracleAnswers(sem: Graph.Semantics<Node, Router, Slot>, state: AgentState, a: Action) {
    sem.call(RunOracleNode, state) == Success(Some(map["intermediate_steps" := Steps([a])])) &&
    forall r, s :: sem.route(r, s) == Route(r, s)
  }

  /** The semantics answer a ready state with the action the LLM call
      returns. */
  lemma SemAnswers(h: Host, llm: Llm, tools: Tools, state: AgentState)
    requires OracleReady(state)
    ensures OracleAnswers(Sem(h, llm, tools), state, OracleAction(llm, state))
  {
    SemApplies(h, llm, tools, state, RouteToTool);
    forall r, s ensures Sem(h, llm, tools).route(r, s) == Route(r, s) {
      SemApplies(h, llm, tools, s, r);
    }
  }

  /** As written, an oracle step that is an assistant reply makes the router
      name "assistant_reply", which is no node: the invocation raises. */
  lemma ReplyRaisesOn(sem: Graph.Semantics<Node, Router, Slot>, state: AgentState, a: Action)
    requires OracleAnswers(sem, state, a) && a.toolName == ASSISTANT_REPLY
    ensures Graph.Invoked(AgentGraph(RouteToTool), sem, state).error == Some(Graph.NoNodeMessage(Some(ASSISTANT_REPLY)))
  {
    var g := AgentGraph(RouteToTool);
    var res := Some(map["intermediate_steps" := Steps([a])]);
    var s := Graph.Merge(state, res);
    assert s["intermediate_steps"] == Steps([a]);
    assert sem.route(g.conditional["oracle"], s) == Success(ASSISTANT_REPLY);
    Graph.EntryRoutesToUnknown(g, sem, state, res, ASSISTANT_REPLY);
  }

  /** With the corrected router the same step ends the walk after the one
      oracle call. */
  lemma ReplyReturnedOn(sem: Graph.Semantics<Node, Router, Slot>, state: AgentState, a: Action)
    requires OracleAnswers(sem, state, a) && a.toolName == ASSISTANT_REPLY
    ensures var s := Graph.Merge(state, Some(map["intermediate_steps" := Steps([a])]));
            Graph.Invoked(AgentGraph(RouteReplyToEnd), sem, state) == Graph.Walk(s, 1, None) && StepsOf(s) == [a]
  {
    var g := AgentGraph(RouteReplyToEnd);
    var res := Some(map["intermediate_steps" := Steps([a])]);
    var s := Graph.Merge(state, res);
    assert s["intermediate_steps"] == Steps([a]);
    assert sem.route(g.conditional["oracle"], s) == Success(Graph.END);
    Graph.EntryRoutedStep(g, sem, state, res, Graph.END);
  }

  /** As written, an assistant reply from the oracle raises "No node named
      assistant_reply", and the conversation loop propagates the error
      instead of returning the reply. */
  lemma AssistantReplyRaises(h: Host, llm: Llm, tools: Tools, state: AgentState, rounds: nat)
    requires rounds > 0
    requires OracleReady(state)
    requires OracleAction(llm, state).toolName == ASSISTANT_REPLY
    ensures Graph.Invoked(AgentGraph(RouteToTool), Sem(h, llm, tools), state).error == Some("No node named " + ASSISTANT_REPLY)
    ensures Loop(AgentGraph(RouteToTool), Sem(h, llm, tools), state, rounds).result == Failure("No node named " + ASSISTANT_REPLY)
  {
    SemAnswers(h, llm, tools, state);
    ReplyRaisesOn(Sem(h, llm, tools), state, OracleAction(llm, state));
    LoopStopsOnError(AgentGraph(RouteToTool), Sem(h, llm, tools), state, rounds);
  }

  /** With the corrected router, the same reply ends the walk after the one
      oracle call and the loop returns its content with the state. */
  lemma AssistantReplyReturned(h: Host, llm: Llm, tools: Tools, state: AgentState, rounds: nat)
    requires rounds > 0
    requires OracleReady(state)
    requires OracleAction(llm, state).toolName == ASSISTANT_REPLY
    ensures var a := OracleAction(llm, state);
            var s := Graph.Merge(state, RunOracle(llm, state).value);
            Graph.Invoked(AgentGraph(RouteReplyToEnd), Sem(h, llm, tools), state) == Graph.Walk(s, 1, None) &&
            Loop(AgentGraph(RouteReplyToEnd), Sem(h, llm, tools), state, rounds).result ==
              Success(AssistantReplied(Get(a.toolInput, "content", Null), s))
  {
    SemAnswers(h, llm, tools, state);
    ReplyReturnedOn(Sem(h, llm, tools), state, OracleAction(llm, state));
    LoopStopsOnReply(AgentGraph(RouteReplyToEnd), Sem(h, llm, tools), state, rounds);
  }
}
