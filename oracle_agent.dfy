/** The oracle agent of base_agents/oracle_agent.py: a reader of LLM replies
    that raises where amin_agent's falls back, a prompt that lists the tools
    as JSON lines, action messages that never carry None, the scratchpad,
    the call to the LLM with the search tool as the only tool, and the tool
    runner, which turns a failing tool call into an error text. */
module BaseOracle {
  import opened Wrappers
  import opened Values
  import Py
  import AminActions

  const PARSE_ERROR: string := "RuntimeError: Failed to parse " + "ollama response: "

  /** `AgentAction.from_ollama(response)`: the same calls as amin_agent reads,
      parameters defaulting to `{}`; every failure is re-raised as
      RuntimeError. */
  function FromOllama(h: Host, response: Value): (r: Result<Action, string>)
    ensures r.Success? <==> AminActions.ContentOf(response).Success? && AminActions.IsToolCall(h, AminActions.ContentOf(response).value)
    ensures r.Success? ==>
              var v := h.loads(AminActions.ContentOf(response).value.s).value;
              r.value == Action(v.fields["name"].s, Get(v.fields, "parameters", Dict(map[])).fields, None)
    ensures r.Failure? ==> |PARSE_ERROR| <= |r.error| && r.error[..|PARSE_ERROR|] == PARSE_ERROR
  {
    match AminActions.ContentOf(response)
    case Failure(e) => Failure(PARSE_ERROR + e)
    case Success(content) =>
      if !content.Str? then Failure(PARSE_ERROR + ("TypeError: the JSON object " + "must be str"))
      else
        match h.loads(content.s)
        case Failure(e) => Failure(PARSE_ERROR + e)
        case Success(parsed) =>
          if !parsed.Dict? then Failure(PARSE_ERROR + ("TypeError: indices must be " + "integers"))
          else if "name" !in parsed.fields then Failure(PARSE_ERROR + "KeyError: 'name'")
          else
            var name := parsed.fields["name"];
            var params := Get(parsed.fields, "parameters", Dict(map[]));
            if name.Str? && params.Dict? then Success(Action(name.s, params.fields, None))
            else Failure(PARSE_ERROR + "ValidationError: AgentAction")
  }

  /** Against amin_agent's reader: the same action wherever this one
      succeeds; where this one raises on a reply that has content, amin_agent
      makes an assistant reply of it instead. */
  lemma AgreesWithAminReader(h: Host, response: Value)
    ensures FromOllama(h, response).Success? ==> AminActions.FromOllama(h, response) == FromOllama(h, response)
    ensures FromOllama(h, response).Failure? && AminActions.ContentOf(response).Success? ==>
              AminActions.FromOllama(h, response) ==
                Success(Action(AminActions.ASSISTANT_REPLY, map["content" := AminActions.ContentOf(response).value], None))
  {
  }

  /** `get_system_tools_prompt(system_prompt, tools)`: one JSON line per
      tool after the header. */
  function SystemToolsPrompt(h: Host, systemPrompt: string, tools: seq<Value>): (p: string)
    ensures systemPrompt + ("\n\nYou may use the following " + "tools:\n") <= p
    ensures |tools| == 0 ==> p == systemPrompt + ("\n\nYou may use the following " + "tools:\n")
  {
    systemPrompt + ("\n\nYou may use the following " + "tools:\n") +
    Py.Join("\n", seq(|tools|, i requires 0 <= i < |tools| => h.dumps(tools[i])))
  }

  /** The tool lines of the prompt split back into the tools: each line is
      the JSON of one tool, in order, when no JSON text holds a line break. */
  lemma PromptToolLines(h: Host, systemPrompt: string, tools: seq<Value>)
    requires JsonRoundTrips(h) && |tools| >= 1
    requires forall i :: 0 <= i < |tools| ==> '\n' !in h.dumps(tools[i])
    ensures var header := systemPrompt + ("\n\nYou may use the following " + "tools:\n");
            var prompt := SystemToolsPrompt(h, systemPrompt, tools);
            var lines := Py.SplitOn(prompt[|header|..], '\n');
            prompt[..|header|] == header && |lines| == |tools| &&
            forall i :: 0 <= i < |tools| ==> h.loads(lines[i]) == Success(tools[i])
  {
    var header := systemPrompt + ("\n\nYou may use the following " + "tools:\n");
    var texts := seq(|tools|, i requires 0 <= i < |tools| => h.dumps(tools[i]));
    var prompt := SystemToolsPrompt(h, systemPrompt, tools);
    assert prompt == header + Py.Join("\n", texts);
    assert prompt[|header|..] == Py.Join("\n", texts);
    assert "\n" == ['\n'];
    Py.SplitOnJoin(texts, '\n');
    forall i | 0 <= i < |tools|
      ensures h.loads(texts[i]) == Success(tools[i])
    {
    }
  }

  /** `action_to_message`: the call as JSON, then the output or "". */
  function ActionToMessage(h: Host, a: Action): (ms: seq<Message>)
    ensures |ms| == 2 && ms[0] == Message("assistant", Some(h.dumps(AminActions.CallValue(a))))
    ensures ms[1] == Message("user", Some(if a.toolOutput.Some? then a.toolOutput.value else ""))
  {
    [Message("assistant", Some(h.dumps(AminActions.CallValue(a)))),
     Message("user", Some(if a.toolOutput.Some? then a.toolOutput.value else ""))]
  }

  /** The assistant message reads back as the action without its output. */
  lemma ActionMessageRoundTrip(h: Host, a: Action)
    requires JsonRoundTrips(h)
    ensures FromOllama(h, AminActions.Response(ActionToMessage(h, a)[0].content.value)) == Success(a.(toolOutput := None))
  {
    var text := h.dumps(AminActions.CallValue(a));
    assert h.loads(text) == Success(AminActions.CallValue(a));
    assert AminActions.ContentOf(AminActions.Response(text)) == Success(Str(text));
  }

  /** The messages of the actions, one pair per action. */
  function Pairs(h: Host, kept: seq<Action>): (ms: seq<Message>)
    ensures |ms| == 2 * |kept|
    ensures forall k :: 0 <= k < |kept| ==> ms[2 * k] == ActionToMessage(h, kept[k])[0] && ms[2 * k + 1] == ActionToMessage(h, kept[k])[1]
    decreases |kept|
  {
    if |kept| == 0 then []
    else
      var init := kept[..|kept| - 1];
      assert forall k :: 0 <= k < |init| ==> init[k] == kept[k];
      Pairs(h, init) + ActionToMessage(h, kept[|kept| - 1])
  }

  /** What `create_scratchpad(steps)` returns. */
  function Scratchpad(h: Host, steps: seq<Action>): (ms: seq<Message>)
    ensures |ms| == 2 * |AminActions.Kept(steps)|
    ensures forall k :: 0 <= k < |AminActions.Kept(steps)| ==>
              ms[2 * k] == Message("assistant", Some(h.dumps(AminActions.CallValue(AminActions.Kept(steps)[k])))) &&
              ms[2 * k + 1] == Message("user", AminActions.Kept(steps)[k].toolOutput)
  {
    var kept := AminActions.Kept(steps);
    assert forall k :: 0 <= k < |kept| ==> kept[k] in kept;
    Pairs(h, kept)
  }

  /** Only actions with an output are kept, so the "" default never shows:
      the scratchpad is amin_agent's, message for message. */
  lemma {:induction false} PairsOfKept(h: Host, kept: seq<Action>)
    requires forall k :: 0 <= k < |kept| ==> kept[k].toolOutput.Some?
    ensures Pairs(h, kept) == AminActions.Pairs(h, kept)
    decreases |kept|
  {
    if |kept| > 0 {
      var init := kept[..|kept| - 1];
      PairsOfKept(h, init);
      assert AminActions.Pairs(h, kept) == AminActions.Pairs(h, init) + AminActions.ActionToMessage(h, kept[|kept| - 1]);
    }
  }

  lemma ScratchpadAsAmin(h: Host, steps: seq<Action>)
    ensures Scratchpad(h, steps) == AminActions.Scratchpad(h, steps)
    ensures |Scratchpad(h, steps)| == 2 * |AminActions.Kept(steps)|
  {
    var kept := AminActions.Kept(steps);
    forall k | 0 <= k < |kept|
      ensures kept[k].toolOutput.Some?
    {
      assert kept[k] in kept;
    }
    PairsOfKept(h, kept);
  }

  /** `create_scratchpad`: the filter, then two messages per kept action. */
  method CreateScratchpad(h: Host, intermediateSteps: seq<Action>) returns (scratch: seq<Message>)
    ensures scratch == Scratchpad(h, intermediateSteps)
  {
    var steps := AminActions.Kept(intermediateSteps);
    scratch := [];
    for i := 0 to |steps|
      invariant scratch == Pairs(h, steps[..i])
    {
      assert steps[..i + 1][..i] == steps[..i];
      scratch := scratch + ActionToMessage(h, steps[i]);
    }
    assert steps[..|steps|] == steps;
  }

  /** The messages `call_llm` sends: the search schema is the only tool. */
  function Messages(h: Host, systemPrompt: string, searchSchema: Value, userInput: string, history: seq<Message>,
                    steps: seq<Action>): (ms: seq<Message>)
    ensures |ms| == |history| + 2 + 2 * |AminActions.Kept(steps)|
    ensures ms[0] == Message("system", Some(SystemToolsPrompt(h, systemPrompt, [searchSchema])))
    ensures ms[1..|history| + 1] == history && ms[|history| + 1] == Message("user", Some(userInput))
    ensures ms[|history| + 2..] == Scratchpad(h, steps)
  {
    AminActions.Layout(SystemToolsPrompt(h, systemPrompt, [searchSchema]), history, userInput, Scratchpad(h, steps))
  }

  /** `call_llm(user_input, chat_history, intermediate_steps)`. */
  function CallLlm(h: Host, systemPrompt: string, searchSchema: Value, userInput: string, history: seq<Message>,
                   steps: seq<Action>): (r: Result<Action, string>)
    ensures var reply := h.chat(Messages(h, systemPrompt, searchSchema, userInput, history, steps));
            r.Success? <==> AminActions.IsToolCall(h, Str(reply))
    ensures r.Success? ==> r.value.toolOutput.None?
    ensures r.Failure? ==> PARSE_ERROR <= r.error
  {
    FromOllama(h, AminActions.Response(h.chat(Messages(h, systemPrompt, searchSchema, userInput, history, steps))))
  }

  /** The prompt names one tool: its header is followed by the schema's JSON
      and nothing else. */
  lemma OneToolOffered(h: Host, systemPrompt: string, searchSchema: Value, userInput: string, history: seq<Message>,
                       steps: seq<Action>)
    ensures Messages(h, systemPrompt, searchSchema, userInput, history, steps)[0] ==
            Message("system", Some(systemPrompt + ("\n\nYou may use the following " + "tools:\n") + h.dumps(searchSchema)))
  {
    var texts := seq(1, i requires 0 <= i < 1 => h.dumps([searchSchema][i]));
    assert texts == [h.dumps(searchSchema)];
  }

  /** The registry key of `linkedin_search_tool`, the only tool. */
  const SEARCH_TOOL: string := "linkedin_search_tool"
  const SEARCH_FORMALS: seq<Formal> := [Formal("query", None), Formal("num_candidates", Some(Int(5)))]

  /** The search service, which answers every call with links. */
  type Search = (Value, Value) -> Value

  /** What `linkedin_search_tool` itself guarantees: it never raises and
      answers with a non-empty list, the remote links or the fallback ones.
      No lemma here needs it. */
  ghost predicate AnswersWithLinks(search: Search) {
    forall q, n :: search(q, n).List? && |search(q, n).items| > 0
  }

  /** What the tool call yields: the service's answer, or the error text
      when the arguments do not bind. */
  function ToolOut(search: Search, args: map<string, Value>): (v: Value)
    ensures args.Keys <= {"query", "num_candidates"} && "query" in args ==>
              v == search(args["query"], Get(args, "num_candidates", Int(5)))
    ensures !(args.Keys <= {"query", "num_candidates"} && "query" in args) ==> v.Str? && "[tool_error] " <= v.s
  {
    match Bind(SEARCH_TOOL, SEARCH_FORMALS, args)
    case Failure(e) => Str("[tool_error] " + e)
    case Success(bound) => search(bound["query"], bound["num_candidates"])
  }

  /** `run_tool(state)`, given `state["intermediate_steps"]` (None when
      the key is missing): the new one-step list. */
  function RunTool(h: Host, search: Search, steps: Option<seq<Action>>): (r: Result<seq<Action>, string>)
    ensures r.Failure? <==> steps.None? || |steps.value| == 0 || steps.value[|steps.value| - 1].toolName != SEARCH_TOOL
    ensures steps.Some? && |steps.value| > 0 && r.Failure? ==>
              r.error == ("RuntimeError: Unknown tool " + "requested: ") + steps.value[|steps.value| - 1].toolName
    ensures r.Success? ==>
              var last := steps.value[|steps.value| - 1];
              r.value == [Action(last.toolName, last.toolInput, Some(Format(h, ToolOut(search, last.toolInput))))]
  {
    if steps.None? then Failure("KeyError: 'intermediate_steps'")
    else if |steps.value| == 0 then Failure("RuntimeError: run_tool called " + "but no intermediate_steps are " + "present")
    else
      var last := steps.value[|steps.value| - 1];
      if last.toolName != SEARCH_TOOL then Failure(("RuntimeError: Unknown tool " + "requested: ") + last.toolName)
      else Success([Action(last.toolName, last.toolInput, Some(Format(h, ToolOut(search, last.toolInput))))])
  }

  /** A call whose arguments do not bind is reported in the output, not
      raised: unknown keys or a missing query give a "[tool_error]" text. */
  lemma ToolErrorReported(h: Host, search: Search, steps: seq<Action>)
    requires |steps| > 0 && steps[|steps| - 1].toolName == SEARCH_TOOL
    requires "query" !in steps[|steps| - 1].toolInput
    ensures var r := RunTool(h, search, Some(steps));
            r.Success? && |r.value| == 1 &&
            var out := r.value[0].toolOutput.value;
            |out| >= 13 && out[..13] == "[tool_error] "
  {
    var args := steps[|steps| - 1].toolInput;
    assert Required(SEARCH_FORMALS, "query");
    assert "query" in Names(SEARCH_FORMALS);
    var e := Bind(SEARCH_TOOL, SEARCH_FORMALS, args).error;
    assert ToolOut(search, args) == Str("[tool_error] " + e);
    assert ("[tool_error] " + e)[..13] == "[tool_error] ";
  }
}
