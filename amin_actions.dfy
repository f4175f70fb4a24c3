/** The agent actions of amin_agent/actions.py: reading an action out of an
    LLM reply (a JSON tool call, or else a plain assistant reply), rendering
    actions as text and as chat messages, the scratchpad of earlier tool
    results, and how `call_llm` chooses the tools it offers and assembles the
    messages it sends. */
module AminActions {
  import opened Wrappers
  import opened Values
  import Py
  import Schema
  import AdapterTools

  const ASSISTANT_REPLY: string := "assistant_reply"

  /** `ollama_response["message"]["content"]`: a missing key raises
      KeyError, indexing something that is not a dict raises TypeError. */
  function ContentOf(response: Value): (r: Result<Value, string>)
    ensures r.Success? <==> response.Dict? && "message" in response.fields &&
                            response.fields["message"].Dict? && "content" in response.fields["message"].fields
    ensures r.Success? ==> r.value == response.fields["message"].fields["content"]
  {
    if !response.Dict? then Failure("TypeError: object is not " + "subscriptable")
    else if "message" !in response.fields then Failure("KeyError: 'message'")
    else
      var message := response.fields["message"];
      if !message.Dict? then Failure("TypeError: object is not " + "subscriptable")
      else if "content" !in message.fields then Failure("KeyError: 'content'")
      else Success(message.fields["content"])
  }

  /** The content is a tool call: a string whose JSON is a dict with a
      string "name" and, if present, dict "parameters" (anything else makes
      the pydantic constructor raise inside the inner `try`). */
  predicate IsToolCall(h: Host, content: Value) {
    content.Str? && h.loads(content.s).Success? &&
    var v := h.loads(content.s).value;
    v.Dict? && "name" in v.fields && v.fields["name"].Str? && Get(v.fields, "parameters", Dict(map[])).Dict?
  }

  /** `AgentAction.from_ollama(response)`. */
  function FromOllama(h: Host, response: Value): (r: Result<Action, string>)
    ensures r.Success? <==> ContentOf(response).Success?
    ensures r.Success? && IsToolCall(h, ContentOf(response).value) ==>
              var v := h.loads(ContentOf(response).value.s).value;
              r.value == Action(v.fields["name"].s, Get(v.fields, "parameters", Dict(map[])).fields, None)
    ensures r.Success? && !IsToolCall(h, ContentOf(response).value) ==>
              r.value == Action(ASSISTANT_REPLY, map["content" := ContentOf(response).value], None)
  {
    var content :- ContentOf(response);
    var fallback := Action(ASSISTANT_REPLY, map["content" := content], None);
    if !content.Str? then Success(fallback)
    else
      match h.loads(content.s)
      case Failure(_) => Success(fallback)
      case Success(output) =>
        if output.Dict? && "name" in output.fields then
          var name := output.fields["name"];
          var params := Get(output.fields, "parameters", Dict(map[]));
          if name.Str? && params.Dict? then Success(Action(name.s, params.fields, None))
          else Success(fallback)
        else Success(fallback)
  }

  /** The reply dict the LLM wrapper returns for a reply text. */
  function Response(content: string): Value {
    Dict(map["message" := Dict(map["content" := Str(content)])])
  }

  /** `str(action)`. */
  function Show(h: Host, a: Action): string {
    var text := "Tool: " + a.toolName + "\nInput: " + Format(h, Dict(a.toolInput));
    if a.toolOutput.Some? then text + "\nOutput: " + a.toolOutput.value else text
  }

  /** The rendering is the name and input lines, followed by an output line
      exactly when there is an output. */
  lemma ShowOutputLine(h: Host, a: Action)
    ensures Show(h, a.(toolOutput := None)) == "Tool: " + a.toolName + "\nInput: " + Format(h, Dict(a.toolInput))
    ensures a.toolOutput.None? ==> Show(h, a) == Show(h, a.(toolOutput := None))
    ensures a.toolOutput.Some? ==> Show(h, a) == Show(h, a.(toolOutput := None)) + "\nOutput: " + a.toolOutput.value
  {
  }

  /** `{"name": tool_name, "parameters": tool_input}`. */
  function CallValue(a: Action): Value {
    Dict(map["name" := Str(a.toolName), "parameters" := Dict(a.toolInput)])
  }

  /** `action_to_message`: the call as the assistant's JSON message, then the
      output as the user's message. */
  function ActionToMessage(h: Host, a: Action): (ms: seq<Message>)
    ensures |ms| == 2
    ensures ms[0] == Message("assistant", Some(h.dumps(CallValue(a))))
    ensures ms[1] == Message("user", a.toolOutput)
  {
    [Message("assistant", Some(h.dumps(CallValue(a)))), Message("user", a.toolOutput)]
  }

  /** The assistant message of an action, read back as an LLM reply, is the
      same action without its output. */
  lemma ActionMessageRoundTrip(h: Host, a: Action)
    requires JsonRoundTrips(h)
    ensures FromOllama(h, Response(ActionToMessage(h, a)[0].content.value)) == Success(a.(toolOutput := None))
  {
    var text := h.dumps(CallValue(a));
    assert h.loads(text) == Success(CallValue(a));
    assert ContentOf(Response(text)) == Success(Str(text));
    assert IsToolCall(h, Str(text));
  }

  /** The actions that have an output, in their order. */
  function Kept(steps: seq<Action>): (kept: seq<Action>)
    ensures |kept| <= |steps|
    ensures forall a :: a in kept <==> a in steps && a.toolOutput.Some?
    decreases |steps|
  {
    if |steps| == 0 then []
    else
      var init := steps[..|steps| - 1];
      var last := steps[|steps| - 1];
      assert steps == init + [last];
      Kept(init) + (if last.toolOutput.Some? then [last] else [])
  }

  /** Filtering keeps the order: it distributes over concatenation. */
  lemma {:induction false} KeptAppend(s: seq<Action>, t: seq<Action>)
    ensures Kept(s + t) == Kept(s) + Kept(t)
    decreases |t|
  {
    if |t| == 0 {
      assert s + t == s;
    } else {
      var init := t[..|t| - 1];
      assert (s + t)[..|s + t| - 1] == s + init;
      KeptAppend(s, init);
    }
  }

  /** The messages of the kept actions, one pair per action. */
  function Pairs(h: Host, kept: seq<Action>): (ms: seq<Message>)
    ensures |ms| == 2 * |kept|
    ensures forall k :: 0 <= k < |kept| ==> ms[2 * k] == ActionToMessage(h, kept[k])[0] && ms[2 * k + 1] == ActionToMessage(h, kept[k])[1]
    decreases |kept|
  {
    if |kept| == 0 then []
    else
      var init := kept[..|kept| - 1];
      var rest := Pairs(h, init);
      assert forall k :: 0 <= k < |init| ==> init[k] == kept[k];
      rest + ActionToMessage(h, kept[|kept| - 1])
  }

  /** What `create_scratchpad(steps)` returns. */
  function Scratchpad(h: Host, steps: seq<Action>): (ms: seq<Message>)
    ensures |ms| == 2 * |Kept(steps)|
    ensures forall k :: 0 <= k < |Kept(steps)| ==>
              ms[2 * k] == Message("assistant", Some(h.dumps(CallValue(Kept(steps)[k])))) &&
              ms[2 * k + 1] == Message("user", Kept(steps)[k].toolOutput) && Kept(steps)[k].toolOutput.Some?
  {
    Pairs(h, Kept(steps))
  }

  /** `create_scratchpad`: drop the actions without output, then extend the
      message list by each remaining action's two messages. */
  method CreateScratchpad(h: Host, intermediateSteps: seq<Action>) returns (messages: seq<Message>)
    ensures messages == Scratchpad(h, intermediateSteps)
    ensures |messages| == 2 * |Kept(intermediateSteps)|
  {
    var steps := Kept(intermediateSteps);
    messages := [];
    for i := 0 to |steps|
      invariant messages == Pairs(h, steps[..i])
    {
      assert steps[..i + 1][..i] == steps[..i];
      messages := messages + ActionToMessage(h, steps[i]);
    }
    assert steps[..|steps|] == steps;
  }

  /** The schemas of the two tools, built without a name or a description,
      so named after the functions and described by their docstrings. */
  function SearchSchema(): Schema.FunctionSchema {
    Schema.SchemaOf(AdapterTools.SCRAPER_SIGNATURE, None, None)
  }

  function FinalSchema(): Schema.FunctionSchema {
    Schema.SchemaOf(AdapterTools.FINAL_ANSWER_SIGNATURE, None, None)
  }

  /** Some step, with or without output, called the search tool. */
  predicate SearchUsed(steps: seq<Action>) {
    exists i :: 0 <= i < |steps| && steps[i].toolName == SearchSchema().name
  }

  /** The tools `call_llm` offers. */
  function ToolsOffered(steps: seq<Action>): seq<Value> {
    if |Kept(steps)| > 0 && SearchUsed(steps) then [Schema.SchemaValue(FinalSchema())]
    else [Schema.SchemaValue(SearchSchema()), Schema.SchemaValue(FinalSchema())]
  }

  const MUST_FINAL: string := "You must now use the " + "final_answer tool."

  const REMINDER_HEAD: string := "Please continue, as a " + "reminder my query was '"
  const REMINDER_TAIL: string :=
    "'. Only answer to the " + "original query, and nothing " + "else \U{2014} but use the " +
    "information I provided to you " + "to do so. Provide as much " + "information as possible in " +
    "the `answer` field of the " + "final_answer tool and " + "remember to leave the contact " +
    "details of a promising " + "looking candidate."

  /** The reminder naming the user's query. */
  function Reminder(userInput: string): string {
    REMINDER_HEAD + userInput + REMINDER_TAIL
  }

  /** The scratchpad as sent: followed by one reminder when it is not empty,
      the reminder insisting on the final answer once the search ran. */
  function PadSent(h: Host, userInput: string, steps: seq<Action>): seq<Message> {
    var pad := Scratchpad(h, steps);
    if |pad| == 0 then []
    else pad + [Message("user", Some(if SearchUsed(steps) then MUST_FINAL else Reminder(userInput)))]
  }

  const TOOLS_HEADER: string := "\n\nYou may use the following " + "tools:\n"

  /** `get_system_tools_prompt(system_prompt, tools)`. */
  function SystemToolsPrompt(h: Host, systemPrompt: string, tools: seq<Value>): (p: string)
    ensures systemPrompt + TOOLS_HEADER <= p
    ensures |tools| == 0 ==> p == systemPrompt + TOOLS_HEADER
  {
    systemPrompt + TOOLS_HEADER +
    Py.Join("\n", seq(|tools|, i requires 0 <= i < |tools| => Format(h, tools[i])))
  }

  /** The tool lines of the prompt split back into the tools: each line is
      `str(tool)`, in order, when no such text holds a line break. */
  lemma PromptToolLines(h: Host, systemPrompt: string, tools: seq<Value>)
    requires |tools| >= 1
    requires forall i :: 0 <= i < |tools| ==> '\n' !in Format(h, tools[i])
    ensures var head := systemPrompt + TOOLS_HEADER;
            var prompt := SystemToolsPrompt(h, systemPrompt, tools);
            var lines := Py.SplitOn(prompt[|head|..], '\n');
            prompt[..|head|] == head && |lines| == |tools| &&
            forall i :: 0 <= i < |tools| ==> lines[i] == Format(h, tools[i])
  {
    var head := systemPrompt + TOOLS_HEADER;
    var texts := seq(|tools|, i requires 0 <= i < |tools| => Format(h, tools[i]));
    var prompt := SystemToolsPrompt(h, systemPrompt, tools);
    assert prompt == head + Py.Join("\n", texts);
    assert prompt[|head|..] == Py.Join("\n", texts);
    assert "\n" == ['\n'];
    Py.SplitOnJoin(texts, '\n');
  }

  /** A system prompt, the history, the user input, then the scratchpad. */
  function Layout(prompt: string, history: seq<Message>, userInput: string, pad: seq<Message>): (ms: seq<Message>)
    ensures |ms| == |history| + 2 + |pad|
    ensures ms[0] == Message("system", Some(prompt))
    ensures ms[1..|history| + 1] == history && ms[|history| + 1] == Message("user", Some(userInput))
    ensures ms[|history| + 2..] == pad
  {
    var pre := [Message("system", Some(prompt))] + history + [Message("user", Some(userInput))];
    assert (pre + pad)[|history| + 2..] == pad;
    assert (pre + pad)[1..|history| + 1] == pre[1..|history| + 1];
    pre + pad
  }

  /** The messages `call_llm` sends: the system prompt, the history, the
      user input, then the scratchpad as sent. */
  function Messages(h: Host, userInput: string, chatHistory: seq<Message>, steps: seq<Action>, systemPrompt: string): (ms: seq<Message>)
    ensures |ms| == |chatHistory| + 2 + |PadSent(h, userInput, steps)|
    ensures ms[0] == Message("system", Some(SystemToolsPrompt(h, systemPrompt, ToolsOffered(steps))))
    ensures ms[1..|chatHistory| + 1] == chatHistory && ms[|chatHistory| + 1] == Message("user", Some(userInput))
    ensures ms[|chatHistory| + 2..] == PadSent(h, userInput, steps)
  {
    Layout(SystemToolsPrompt(h, systemPrompt, ToolsOffered(steps)), chatHistory, userInput, PadSent(h, userInput, steps))
  }

  /** The tool choice: both schemas while the scratchpad is empty; once it
      is not, only the final one when some step used the search tool, with
      the reminder replaced by the order to answer. */
  lemma ToolChoice(h: Host, userInput: string, steps: seq<Action>)
    ensures SearchSchema().name == "linkedin_scraper" && FinalSchema().name == "final_answer"
    ensures |Kept(steps)| == 0 ==>
              ToolsOffered(steps) == [Schema.SchemaValue(SearchSchema()), Schema.SchemaValue(FinalSchema())] &&
              PadSent(h, userInput, steps) == []
    ensures |Kept(steps)| > 0 && SearchUsed(steps) ==>
              ToolsOffered(steps) == [Schema.SchemaValue(FinalSchema())] &&
              |PadSent(h, userInput, steps)| == 2 * |Kept(steps)| + 1 &&
              PadSent(h, userInput, steps)[2 * |Kept(steps)|] == Message("user", Some(MUST_FINAL))
    ensures |Kept(steps)| > 0 && !SearchUsed(steps) ==>
              ToolsOffered(steps) == [Schema.SchemaValue(SearchSchema()), Schema.SchemaValue(FinalSchema())] &&
              |PadSent(h, userInput, steps)| == 2 * |Kept(steps)| + 1 &&
              PadSent(h, userInput, steps)[2 * |Kept(steps)|] == Message("user", Some(Reminder(userInput)))
  {
  }

  /** Message assembly in `call_llm`: the scratchpad is built, the reminder
      appended and, once the search ran, overwritten. */
  method CallLlmMessages(h: Host, userInput: string, chatHistory: seq<Message>, intermediateSteps: seq<Action>, systemPrompt: string)
    returns (messages: seq<Message>, tools: seq<Value>)
    ensures tools == ToolsOffered(intermediateSteps)
    ensures messages == Messages(h, userInput, chatHistory, intermediateSteps, systemPrompt)
  {
    var scratchpad := CreateScratchpad(h, intermediateSteps);
    var searchSchema := Schema.FuncToSchema(AdapterTools.SCRAPER_SIGNATURE, None, None);
    var finalSchema := Schema.FuncToSchema(AdapterTools.FINAL_ANSWER_SIGNATURE, None, None);
    assert searchSchema == SearchSchema() && finalSchema == FinalSchema();
    if |scratchpad| > 0 {
      scratchpad := scratchpad + [Message("user", Some(Reminder(userInput)))];
      var used := false;
      for i := 0 to |intermediateSteps|
        invariant used <==> exists j :: 0 <= j < i && intermediateSteps[j].toolName == searchSchema.name
      {
        if intermediateSteps[i].toolName == searchSchema.name {
          used := true;
        }
      }
      assert used <==> SearchUsed(intermediateSteps);
      if used {
        tools := [Schema.SchemaValue(finalSchema)];
        scratchpad := scratchpad[..|scratchpad| - 1] + [Message("user", Some(MUST_FINAL))];
      } else {
        tools := [Schema.SchemaValue(searchSchema), Schema.SchemaValue(finalSchema)];
      }
    } else {
      tools := [Schema.SchemaValue(searchSchema), Schema.SchemaValue(finalSchema)];
    }
    messages := [Message("system", Some(SystemToolsPrompt(h, systemPrompt, tools)))] + chatHistory +
                [Message("user", Some(userInput))] + scratchpad;
  }

  /** What `call_llm` returns: the action read from the LLM's reply to the
      assembled messages. */
  function CallLlmOf(h: Host, userInput: string, chatHistory: seq<Message>, steps: seq<Action>, systemPrompt: string): (r: Result<Action, string>)
    ensures r.Success? && r.value.toolOutput.None?
    ensures var reply := h.chat(Messages(h, userInput, chatHistory, steps, systemPrompt));
            !IsToolCall(h, Str(reply)) ==> r.value == Action(ASSISTANT_REPLY, map["content" := Str(reply)], None)
    ensures var reply := h.chat(Messages(h, userInput, chatHistory, steps, systemPrompt));
            IsToolCall(h, Str(reply)) ==>
              r.value.toolName == h.loads(reply).value.fields["name"].s &&
              r.value.toolInput == Get(h.loads(reply).value.fields, "parameters", Dict(map[])).fields
  {
    FromOllama(h, Response(h.chat(Messages(h, userInput, chatHistory, steps, systemPrompt))))
  }

  /** `call_llm`. */
  method CallLlm(h: Host, userInput: string, chatHistory: seq<Message>, intermediateSteps: seq<Action>, systemPrompt: string)
    returns (r: Result<Action, string>)
    ensures r == CallLlmOf(h, userInput, chatHistory, intermediateSteps, systemPrompt)
    ensures r.Success?
  {
    var messages, tools := CallLlmMessages(h, userInput, chatHistory, intermediateSteps, systemPrompt);
    var reply := h.chat(messages);
    r := FromOllama(h, Response(reply));
  }

  /** The tool call the offline stub of `ollama.chat` always makes. */
  const STUB_CALL: Value := Dict(map[
    "name" := Str("linkedin_scraper"),
    "parameters" := Dict(map["query" := Str("software engineer ml"), "max_results" := Int(2)])])

  /** The LLM is the offline stub: whatever it is sent, it replies with the
      JSON of the search call. */
  ghost predicate IsStub(h: Host) {
    forall ms :: h.chat(ms) == h.dumps(STUB_CALL)
  }

  /** Whatever it is sent, the stub's reply reads as the search call with a
      bound of 2 results. */
  lemma StubReplyIsSearch(h: Host, ms: seq<Message>)
    requires IsStub(h) && JsonRoundTrips(h)
    ensures FromOllama(h, Response(h.chat(ms))) ==
            Success(Action("linkedin_scraper", map["query" := Str("software engineer ml"), "max_results" := Int(2)], None))
  {
    assert h.chat(ms) == h.dumps(STUB_CALL);
    assert h.loads(h.dumps(STUB_CALL)) == Success(STUB_CALL);
    assert ContentOf(Response(h.chat(ms))) == Success(Str(h.dumps(STUB_CALL)));
  }

  /** Against the stub, `call_llm` always yields the search call. */
  lemma StubAlwaysSearches(h: Host, userInput: string, chatHistory: seq<Message>, steps: seq<Action>, systemPrompt: string)
    requires IsStub(h) && JsonRoundTrips(h)
    ensures CallLlmOf(h, userInput, chatHistory, steps, systemPrompt) ==
            Success(Action("linkedin_scraper", map["query" := Str("software engineer ml"), "max_results" := Int(2)], None))
  {
    StubReplyIsSearch(h, Messages(h, userInput, chatHistory, steps, systemPrompt));
  }
}
