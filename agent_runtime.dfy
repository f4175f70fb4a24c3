/** The agent runtime of ollama_recruiter/agent_runtime.py: the recommendation
    record and its rendering, a strict reading of LLM replies (no plain-reply
    fallback), the module-level registry of tool functions that the runtime
    fills, running one action, and the two-turn `invoke` that searches and
    then answers. The prompt, the action messages and the scratchpad are
    the same as in amin_agent/actions.py and are taken from there. */
module RecruiterRuntime {
  import opened Wrappers
  import opened Values
  import Py
  import AminActions

  /** `Rec(top_candidates_liks)`. */
  datatype Rec = Rec(links: seq<string>)

  const REC_HEADER: string := "Top Candidates Links:"

  /** `str(rec)`: the header line, then one line per link. */
  function RecText(r: Rec): (t: string)
    ensures REC_HEADER + "\n" <= t
    ensures |r.links| == 0 ==> t == REC_HEADER + "\n"
    ensures |r.links| == 1 ==> t == REC_HEADER + "\n" + r.links[0]
  {
    REC_HEADER + "\n" + Py.Join("\n", r.links)
  }

  /** Split into lines, the rendering gives back the header and the links,
      provided no link holds a line break; without links there is one empty
      line after the header. */
  lemma RecTextLines(r: Rec)
    requires forall k :: 0 <= k < |r.links| ==> '\n' !in r.links[k]
    ensures Py.SplitOn(RecText(r), '\n') == [REC_HEADER] + (if |r.links| == 0 then [""] else r.links)
  {
    var parts := [REC_HEADER] + (if |r.links| == 0 then [""] else r.links);
    assert parts[1..] == (if |r.links| == 0 then [""] else r.links);
    assert Py.Join("\n", parts) == REC_HEADER + "\n" + Py.Join("\n", parts[1..]);
    assert Py.Join("\n", parts[1..]) == Py.Join("\n", r.links);
    assert "\n" == ['\n'];
    assert forall k :: 0 <= k < |parts| ==> '\n' !in parts[k] by {
      assert '\n' !in REC_HEADER;
    }
    Py.SplitOnJoin(parts, '\n');
  }

  /** The reply content is a call: a string whose JSON is a dict with both a
      string "name" and dict "parameters". */
  predicate IsCall(h: Host, content: Value) {
    content.Str? && h.loads(content.s).Success? &&
    var v := h.loads(content.s).value;
    v.Dict? && "name" in v.fields && "parameters" in v.fields && v.fields["name"].Str? && v.fields["parameters"].Dict?
  }

  /** `AgentAction.from_ollama(response)`: every failure to read the call is
      re-raised; there is no plain-reply fallback and no default for the
      parameters. */
  function FromOllama(h: Host, response: Value): (r: Result<Action, string>)
    ensures r.Success? <==> AminActions.ContentOf(response).Success? && IsCall(h, AminActions.ContentOf(response).value)
    ensures r.Success? ==>
              var v := h.loads(AminActions.ContentOf(response).value.s).value;
              r.value == Action(v.fields["name"].s, v.fields["parameters"].fields, None)
  {
    var content :- AminActions.ContentOf(response);
    if !content.Str? then Failure("TypeError: the JSON object " + "must be str")
    else
      var output :- h.loads(content.s);
      if !output.Dict? then Failure("TypeError: indices must be " + "integers")
      else if "name" !in output.fields then Failure("KeyError: 'name'")
      else if "parameters" !in output.fields then Failure("KeyError: 'parameters'")
      else
        var name := output.fields["name"];
        var params := output.fields["parameters"];
        if name.Str? && params.Dict? then Success(Action(name.s, params.fields, None))
        else Failure("ValidationError: AgentAction")
  }

  /** The assistant message of an action reads back as the same action
      without its output. */
  lemma ActionMessageRoundTrip(h: Host, a: Action)
    requires JsonRoundTrips(h)
    ensures FromOllama(h, AminActions.Response(AminActions.ActionToMessage(h, a)[0].content.value)) == Success(a.(toolOutput := None))
  {
    var text := h.dumps(AminActions.CallValue(a));
    assert h.loads(text) == Success(AminActions.CallValue(a));
    assert AminActions.ContentOf(AminActions.Response(text)) == Success(Str(text));
  }

  /** The messages `call_llm` sends. */
  function Messages(h: Host, systemPrompt: string, tools: seq<Value>, userInput: string, history: seq<Message>,
                    steps: seq<Action>): (ms: seq<Message>)
    ensures |ms| == |history| + 2 + 2 * |AminActions.Kept(steps)|
    ensures ms[0] == Message("system", Some(AminActions.SystemToolsPrompt(h, systemPrompt, tools)))
    ensures ms[|history| + 1] == Message("user", Some(userInput))
  {
    [Message("system", Some(AminActions.SystemToolsPrompt(h, systemPrompt, tools)))] + history +
    [Message("user", Some(userInput))] + AminActions.Scratchpad(h, steps)
  }

  /** The prompt listing the given tools, the history, the user input, then
      the scratchpad, with no reminder after it. */
  lemma MessagesLayout(h: Host, systemPrompt: string, tools: seq<Value>, userInput: string, history: seq<Message>,
                       steps: seq<Action>)
    ensures var ms := Messages(h, systemPrompt, tools, userInput, history, steps);
            |ms| == |history| + 2 + 2 * |AminActions.Kept(steps)| &&
            ms[0] == Message("system", Some(AminActions.SystemToolsPrompt(h, systemPrompt, tools))) &&
            ms[1..|history| + 1] == history && ms[|history| + 1] == Message("user", Some(userInput)) &&
            ms[|history| + 2..] == AminActions.Scratchpad(h, steps)
  {
    var ms := Messages(h, systemPrompt, tools, userInput, history, steps);
    var pre := [Message("system", Some(AminActions.SystemToolsPrompt(h, systemPrompt, tools)))] + history + [Message("user", Some(userInput))];
    assert ms == pre + AminActions.Scratchpad(h, steps);
    assert ms[|history| + 2..] == AminActions.Scratchpad(h, steps);
    assert ms[1..|history| + 1] == pre[1..|history| + 1];
  }

  /** `call_llm(user_input, chat_history, intermediate_steps, tools)`. */
  function CallLlm(h: Host, systemPrompt: string, tools: seq<Value>, userInput: string, history: seq<Message>,
                   steps: seq<Action>): (r: Result<Action, string>)
    ensures var reply := h.chat(Messages(h, systemPrompt, tools, userInput, history, steps));
            r.Success? <==> IsCall(h, Str(reply))
    ensures var reply := h.chat(Messages(h, systemPrompt, tools, userInput, history, steps));
            r.Success? ==>
              r.value.toolName == h.loads(reply).value.fields["name"].s &&
              r.value.toolInput == h.loads(reply).value.fields["parameters"].fields && r.value.toolOutput.None?
  {
    FromOllama(h, AminActions.Response(h.chat(Messages(h, systemPrompt, tools, userInput, history, steps))))
  }

  /** The tools the runtime registers. `semantic_router` names a schema after
      its function, so these are the registry keys. */
  const SEARCH_TOOL: string := "linkedin_search_tool"
  const FINAL_TOOL: string := "final_answer"

  datatype Tool = SearchTool | FinalTool

  const SEARCH_FORMALS: seq<Formal> := [Formal("query", None), Formal("num_candidates", Some(Int(5)))]
  const FINAL_FORMALS: seq<Formal> := [Formal("answer", None)]

  /** The search service: `linkedin_search_tool(query, num_candidates)`
      catches every failure itself and answers with links. */
  type Search = (Value, Value) -> Value

  /** What `linkedin_search_tool` itself guarantees: it never raises and
      answers with a non-empty list, the remote links or the fallback ones.
      No lemma here needs it. */
  ghost predicate AnswersWithLinks(search: Search) {
    forall q, n :: search(q, n).List? && |search(q, n).items| > 0
  }

  /** `fn(**tool_input)` for a registered tool: the arguments are bound, the
      search asks the service and `final_answer` returns its answer. */
  function RunTool(search: Search, tool: Tool, args: map<string, Value>): (r: Result<Value, string>)
    ensures tool == FinalTool ==> (r.Success? <==> "answer" in args && args.Keys <= {"answer"})
    ensures tool == FinalTool && r.Success? ==> r.value == args["answer"]
    ensures tool == SearchTool ==> (r.Success? <==> "query" in args && args.Keys <= {"query", "num_candidates"})
    ensures tool == SearchTool && r.Success? ==> r.value == search(args["query"], Get(args, "num_candidates", Int(5)))
  {
    match tool
    case SearchTool =>
      var bound :- Bind(SEARCH_TOOL, SEARCH_FORMALS, args);
      Success(search(bound["query"], bound["num_candidates"]))
    case FinalTool =>
      var bound :- Bind(FINAL_TOOL, FINAL_FORMALS, args);
      Success(bound["answer"])
  }

  /** `_execute_action(action)`: the same call with, as output, nothing when
      the tool is not registered or returned None, and `str(out)` otherwise;
      a tool that raises makes the whole call raise. */
  function Execute(h: Host, search: Search, funcs: map<string, Tool>, a: Action): (r: Result<Action, string>)
    ensures a.toolName !in funcs ==> r == Success(Action(a.toolName, a.toolInput, None))
    ensures a.toolName in funcs ==>
              (r.Success? <==> RunTool(search, funcs[a.toolName], a.toolInput).Success?) &&
              (r.Success? ==>
                 var out := RunTool(search, funcs[a.toolName], a.toolInput).value;
                 r.value == Action(a.toolName, a.toolInput, if out.Null? then None else Some(Format(h, out))))
  {
    if a.toolName !in funcs then Success(Action(a.toolName, a.toolInput, None))
    else
      var out :- RunTool(search, funcs[a.toolName], a.toolInput);
      Success(Action(a.toolName, a.toolInput, if out.Null? then None else Some(Format(h, out))))
  }

  /** What `invoke` returns: `{"assistant", "actions", "tool_outputs"}`. */
  datatype Reply = Reply(assistant: Value, actions: seq<Value>, toolOutputs: seq<string>)

  const FOLLOW_UP: string := "Please produce the final " + "recruiter recommendation " + "based on the latest search " + "results."
  const FALLBACK: string := "I've processed your request. " + "Let me know if you'd like me " + "to search or refine the " + "results."

  /** An output that `if tool_output:` accepts. */
  function Outputs(o: Option<string>): (r: seq<string>)
    ensures |r| <= 1 && forall k :: 0 <= k < |r| ==> r[k] != ""
    ensures (o.Some? && o.value != "") <==> |r| == 1
  {
    if o.Some? && o.value != "" then [o.value] else []
  }

  /** The assistant text a final call leaves: its "answer" parameter, unless
      it produced an output other than "None". */
  function AnswerText(e: Action): Value {
    if e.toolOutput.Some? && e.toolOutput.value != "" && e.toolOutput.value != "None" then Str(e.toolOutput.value)
    else Get(e.toolInput, "answer", Null)
  }

  /** `if not assistant_text:` falls back to the fixed sentence. */
  function OrFallback(text: Value): (r: Value)
    ensures Truthy(r)
    ensures Truthy(text) ==> r == text
  {
    if Truthy(text) then text else Str(FALLBACK)
  }

  /** The inputs of `invoke` besides the user's turn: the host, the search
      service, the registry, the schemas offered and the system prompt. */
  datatype Env = Env(h: Host, search: Search, funcs: map<string, Tool>, schemas: seq<Value>, systemPrompt: string)

  /** The first turn's LLM call, on an empty scratchpad. */
  function FirstCall(env: Env, userInput: string, history: seq<Message>): Result<Action, string> {
    CallLlm(env.h, env.systemPrompt, env.schemas, userInput, history, [])
  }

  /** The follow-up call, with the executed first action as the only step. */
  function SecondCall(env: Env, history: seq<Message>, e1: Action): Result<Action, string> {
    CallLlm(env.h, env.systemPrompt, env.schemas, FOLLOW_UP, history, [e1])
  }

  /** The actions `invoke` executes, given the first call's result and how
      the follow-up call answers an executed first action: the first call's
      action, and the follow-up's when the first was the search. */
  function Turns(h: Host, search: Search, funcs: map<string, Tool>, first: Result<Action, string>,
                 follow: Action -> Result<Action, string>): (r: Result<seq<Action>, string>)
    ensures r.Success? ==> first.Success? && (|r.value| == 1 || |r.value| == 2)
  {
    var a1 :- first;
    var e1 :- Execute(h, search, funcs, a1);
    if e1.toolName != SEARCH_TOOL then Success([e1])
    else
      var a2 :- follow(e1);
      var e2 :- Execute(h, search, funcs, a2);
      Success([e1, e2])
  }

  /** One action, or two exactly when the first was the search; each is the
      execution of what the LLM asked for. */
  lemma TurnsShape(h: Host, search: Search, funcs: map<string, Tool>, first: Result<Action, string>,
                   follow: Action -> Result<Action, string>)
    ensures var r := Turns(h, search, funcs, first, follow);
            r.Success? ==>
              (|r.value| == 2 <==> r.value[0].toolName == SEARCH_TOOL) &&
              Execute(h, search, funcs, first.value) == Success(r.value[0]) &&
              r.value[0].toolName == first.value.toolName &&
              (|r.value| == 2 ==>
                 follow(r.value[0]).Success? && Execute(h, search, funcs, follow(r.value[0]).value) == Success(r.value[1]))
  {
  }

  /** The turns of `invoke(user_input, history)`. */
  function Executed(env: Env, userInput: string, history: seq<Message>): Result<seq<Action>, string> {
    Turns(env.h, env.search, env.funcs, FirstCall(env, userInput, history), (e1: Action) => SecondCall(env, history, e1))
  }

  /** The reply built from the executed actions. */
  function ReplyOf(es: seq<Action>): (r: Reply)
    requires |es| == 1 || |es| == 2
    ensures |r.actions| == |es| && forall k :: 0 <= k < |es| ==> r.actions[k] == AminActions.CallValue(es[k])
    ensures forall k :: 0 <= k < |r.toolOutputs| ==> r.toolOutputs[k] != ""
    ensures |r.toolOutputs| <= |es| && Outputs(es[0].toolOutput) <= r.toolOutputs
    ensures Truthy(r.assistant)
    ensures (|es| == 1 || es[1].toolName != FINAL_TOOL) ==> r.assistant == Str(FALLBACK)
    ensures |es| == 2 && es[1].toolName == FINAL_TOOL ==>
              r.assistant == OrFallback(AnswerText(es[1])) && r.toolOutputs == Outputs(es[0].toolOutput)
    ensures |es| == 1 ==> r.toolOutputs == Outputs(es[0].toolOutput)
    ensures |es| == 2 && es[1].toolName != FINAL_TOOL ==>
              r.toolOutputs == Outputs(es[0].toolOutput) + Outputs(es[1].toolOutput)
  {
    if |es| == 1 then Reply(Str(FALLBACK), [AminActions.CallValue(es[0])], Outputs(es[0].toolOutput))
    else
      var actions := [AminActions.CallValue(es[0]), AminActions.CallValue(es[1])];
      if es[1].toolName == FINAL_TOOL then Reply(OrFallback(AnswerText(es[1])), actions, Outputs(es[0].toolOutput))
      else Reply(Str(FALLBACK), actions, Outputs(es[0].toolOutput) + Outputs(es[1].toolOutput))
  }

  /** `invoke(user_input, history)`. */
  function InvokeOf(env: Env, userInput: string, history: seq<Message>): (r: Result<Reply, string>)
    ensures r.Success? <==> Executed(env, userInput, history).Success?
    ensures r.Success? ==>
              (|r.value.actions| == 1 || |r.value.actions| == 2) && Truthy(r.value.assistant) &&
              r.value.actions[0] == AminActions.CallValue(Executed(env, userInput, history).value[0]) &&
              forall k :: 0 <= k < |r.value.toolOutputs| ==> r.value.toolOutputs[k] != ""
  {
    var es :- Executed(env, userInput, history);
    Success(ReplyOf(es))
  }

  /** A final answer given on the first turn is run, but its text is not
      what the user sees: the reply is the fixed sentence, with the answer
      only among the tool outputs. */
  lemma DirectAnswerFallsBack(env: Env, userInput: string, history: seq<Message>)
    requires FirstCall(env, userInput, history).Success? && FirstCall(env, userInput, history).value.toolName == FINAL_TOOL
    ensures var r := InvokeOf(env, userInput, history);
            r.Success? ==>
              r.value.assistant == Str(FALLBACK) && |r.value.actions| == 1 &&
              r.value.toolOutputs == Outputs(Execute(env.h, env.search, env.funcs, FirstCall(env, userInput, history).value).value.toolOutput)
  {
    TurnsShape(env.h, env.search, env.funcs, FirstCall(env, userInput, history), (e1: Action) => SecondCall(env, history, e1));
  }

  /** With `final_answer` registered, a follow-up final call that binds its
      answer shows `str(answer)`, unless that is empty, "None" or the answer
      is None; then the answer itself if it is truthy, else the fixed
      sentence. */
  lemma FinalAnswerShown(h: Host, search: Search, funcs: map<string, Tool>, a: Action, answer: Value)
    requires a.toolName == FINAL_TOOL && FINAL_TOOL in funcs && funcs[FINAL_TOOL] == FinalTool
    requires a.toolInput == map["answer" := answer]
    ensures Execute(h, search, funcs, a).Success?
    ensures var e := Execute(h, search, funcs, a).value;
            OrFallback(AnswerText(e)) ==
              if !answer.Null? && Format(h, answer) != "" && Format(h, answer) != "None" then Str(Format(h, answer))
              else OrFallback(answer)
  {
  }

  /** The module-level `tool_str_to_func`, shared by every runtime. */
  class Registry {
    var funcs: map<string, Tool>

    constructor ()
      ensures funcs == map[]
    {
      funcs := map[];
    }
  }

  /** `OracleRuntime`, holding the two schemas built by `semantic_router`,
      which is not part of this model and whose results are given. */
  class Runtime {
    const schemas: seq<Value>
    const registry: Registry

    /** `__init__`: registers the search tool and `final_answer` in the
        shared registry, overwriting earlier registrations of those names. */
    constructor (registry: Registry, searchSchema: Value, finalSchema: Value)
      modifies registry
      ensures this.registry == registry && schemas == [searchSchema, finalSchema]
      ensures registry.funcs == old(registry.funcs)[SEARCH_TOOL := SearchTool][FINAL_TOOL := FinalTool]
    {
      schemas := [searchSchema, finalSchema];
      this.registry := registry;
      new;
      registry.funcs := registry.funcs[SEARCH_TOOL := SearchTool][FINAL_TOOL := FinalTool];
    }

    /** `_execute_action`. */
    method ExecuteAction(h: Host, search: Search, action: Action) returns (r: Result<Action, string>)
      ensures r == Execute(h, search, registry.funcs, action)
    {
      var output: Option<string> := None;
      if action.toolName in registry.funcs {
        var out := RunTool(search, registry.funcs[action.toolName], action.toolInput);
        if out.Failure? {
          return Failure(out.error);
        }
        if !out.value.Null? {
          output := Some(Format(h, out.value));
        }
      }
      r := Success(Action(action.toolName, action.toolInput, output));
    }

    /** `invoke`: the reply is what `InvokeOf` describes for the current
        registry. */
    method Invoke(h: Host, search: Search, systemPrompt: string, userInput: string, history: seq<Message>)
      returns (r: Result<Reply, string>)
      ensures r == InvokeOf(Env(h, search, registry.funcs, schemas, systemPrompt), userInput, history)
    {
      ghost var env := Env(h, search, registry.funcs, schemas, systemPrompt);
      var action1 := CallLlm(h, systemPrompt, schemas, userInput, history, []);
      assert action1 == FirstCall(env, userInput, history);
      if action1.Failure? {
        return Failure(action1.error);
      }
      var executed1 := ExecuteAction(h, search, action1.value);
      if executed1.Failure? {
        return Failure(executed1.error);
      }
      var e1 := executed1.value;
      var executed2: Option<Action> := None;
      if e1.toolName == SEARCH_TOOL {
        var action2 := CallLlm(h, systemPrompt, schemas, FOLLOW_UP, history, [e1]);
        assert action2 == SecondCall(env, history, e1);
        if action2.Failure? {
          return Failure(action2.error);
        }
        var e2 := ExecuteAction(h, search, action2.value);
        if e2.Failure? {
          return Failure(e2.error);
        }
        executed2 := Some(e2.value);
      }
      assert Executed(env, userInput, history) == Success(if executed2.Some? then [e1, executed2.value] else [e1]);
      var reply := Assemble(e1, executed2);
      r := Success(reply);
    }
  }

  /** The bookkeeping of `invoke` once the actions ran: the recorded calls,
      the non-empty outputs of the first action and of a follow-up that is
      not the final answer, and the assistant text. */
  method Assemble(e1: Action, e2: Option<Action>) returns (reply: Reply)
    ensures reply == ReplyOf(if e2.Some? then [e1, e2.value] else [e1])
  {
    var actions := [AminActions.CallValue(e1)];
    var toolOutputs: seq<string> := [];
    if e1.toolOutput.Some? && e1.toolOutput.value != "" {
      toolOutputs := toolOutputs + [e1.toolOutput.value];
    }
    var assistantText := Null;
    if e2.Some? {
      var executed2 := e2.value;
      actions := actions + [AminActions.CallValue(executed2)];
      if executed2.toolName == FINAL_TOOL {
        assistantText := Get(executed2.toolInput, "answer", Null);
        if executed2.toolOutput.Some? && executed2.toolOutput.value != "" && executed2.toolOutput.value != "None" {
          assistantText := Str(executed2.toolOutput.value);
        }
      } else if executed2.toolOutput.Some? && executed2.toolOutput.value != "" {
        toolOutputs := toolOutputs + [executed2.toolOutput.value];
      }
    }
    if !Truthy(assistantText) {
      assistantText := Str(FALLBACK);
    }
    reply := Reply(assistantText, actions, toolOutputs);
  }
}
