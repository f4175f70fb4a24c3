# AIRecruitmentAgent: the agent plumbing, modelled and proved

This project models the deterministic plumbing around the recruiter agents
in AIRecruitmentAgent. The language model, the network and the JSON codec
stay abstract. The agents themselves are modelled exactly, up to what is
listed under "## Left out": exception texts, the comparison of rank keys,
dict order and floats.

**The state-graph runner** (`amin_agent/graph.py`)
- `StateGraph` is a class. `add_node`, `add_edge`, `add_conditional_edges`
  and `set_entry_point` update its registrations in place.
- `Runnable.invoke` walks the graph from the entry point and merges every
  node result into the caller's state dict. It stops at `END`, at a dead
  end, or after 50 node calls, and raises on a name with no node.
- Node functions and routers are tokens, paired with an interpreter
  (`Graph.Semantics`), so the graph can be compared and reasoned about.

**The amin_agent agent** (`amin_agent/main.py`, `amin_agent/actions.py`)
- The oracle node asks the LLM for one action.
- The router sends the walk to the tool that action names.
- The tool node runs `linkedin_scraper` or `final_answer`.
- `run_with_input` repeats the graph for at most 8 rounds.
- Reading a reply into an `AgentAction` falls back to an `assistant_reply`
  action for anything that is not a tool call.
- It also covers the scratchpad, the choice of tools offered, and the
  message list sent to the LLM.
- The graph's semantics (`AminMain.Sem`) take the LLM call and the tool
  table as function values. `AminMain.AgentSem` fills them in with
  `call_llm` and `tool_str_to_func`, so the lemmas about a plain reply hold
  for every LLM call.

**The other two agent variants**
- `ollama_recruiter/agent_runtime.py`: a strict reply reader, the
  module-level tool registry and a two-turn `invoke` (search, then a final
  answer). Its `Rec` rendering is modelled too.
- `base_agents/oracle_agent.py`: a reader that re-raises every failure as
  `RuntimeError`, a prompt that lists tools as JSON lines, messages that
  never carry None, and a tool runner that turns tool errors into output
  text.

**The Ollama function-schema builder** (`amin_agent/llm.py`,
`agents/agent.py`)
- The two files define `_map_python_type` and `func_to_ollama_schema` with
  the same rules.
- Signatures and annotations are data.

**The offline candidate tools** (the fallback branch of
`amin_agent/tools_adapter.py`)
- This branch is the code that actually runs, because `agents/tools.py`
  exports no `final_answer`.
- It covers token scoring, the stable ranking, the crawler prefix,
  embeddings, exact-length interview questions, and the ranked final
  answer.

**The placeholder tools and the `Agent` wrapper** (`agents/tools.py`,
`agents/agent.py`)

**The chat front end's helpers** (`test.py`)
- Text chunking, the tool-card prompt, the canned search and
  `run_tool_from_model`.
- Its `final_answer` branch calls the undefined `final_answer_tool`, so it
  always reports a `NameError`. It is modelled as written.

**The string tools and the offline early returns**
- The string tools `count_characters` and `get_first_half` are defined
  alike in `self_mcp_server/mcp_server_all.py`,
  `ollama_recruiter/tools_separate.py` and `weather/weather.py`.
- The offline early returns of `candidate_search` and `extract_profiles`
  are those of `ollama_recruiter/tools_separate.py`. The versions in
  `self_mcp_server/mcp_server_all.py` have no test-mode branch and no
  empty-links return, and are not part of this model.

**Python values**
- They are a JSON-shaped `Value` datatype.
- A `Host` record holds what the model does not define: `json.loads`,
  `json.dumps`, `ast.literal_eval`, `str()` on non-strings and the chat
  call.
- `JsonRoundTrips(h)` is the one assumption about the codec. Lemmas that
  need it say so in `requires`.

## Model

| member | source | states |
|---|---|---|
| Graph.Merge | amin_agent/graph.py:41-45 | A None result leaves the state as it was. Otherwise the keys are the union, result values win, and the other values are kept. |
| Graph.Run | amin_agent/graph.py:33-58 | The walk counts its node calls and never passes 50. It stops without a further call exactly at END or at the limit. |
| Graph.UnknownNodeRaises | amin_agent/graph.py:38-40 | A name with no registered node raises "No node named …" and the state is left as it was. |
| Graph.RoutedStep | amin_agent/graph.py:47-51 | A node with a router runs, the result is merged, and the walk goes on at the node the router names for the merged state. |
| Graph.EntryRoutedStep | amin_agent/graph.py:34-51 | `invoke` starts at the entry point: a routed entry hands over after one call. |
| Graph.EntryRoutesToUnknown | amin_agent/graph.py:38-51 | An entry whose router names an unregistered node raises on the second iteration, with the entry's result already merged. |
| Graph.NoEntryRaises | amin_agent/graph.py:14 | A graph whose entry was never set raises "No node named None". |
| Graph.DeadEndStops | amin_agent/graph.py:53-55 | A node with no router and no edges leads to END: the walk stops after its one call. |
| Graph.SelfLoopRunsToLimit | amin_agent/graph.py:35-37 | On a cycle the walk stops at exactly 50 node calls, without an error. |
| Graph.LaterEdgesIgnored | amin_agent/graph.py:19-20 | Appending further edges to a source that already has one never changes any walk: only the first edge is followed (lines 56-57). |
| Graph.RouterOverridesEdges | amin_agent/graph.py:47-51 | A source with a router walks the same, whatever its static edges are. |
| Graph.StateDict.constructor | amin_agent/main.py:77-82 | The state dict holds the given entries. |
| Graph.StateGraph.constructor | amin_agent/graph.py:10-14 | A new graph has no nodes, edges or routers, and no entry. |
| Graph.StateGraph.AddNode | amin_agent/graph.py:16-17 | Registers or overwrites the node of `name`. Nothing else changes. |
| Graph.StateGraph.AddEdge | amin_agent/graph.py:19-20 | Appends `dst` to the destinations of `src`, in call order. Nothing else changes. |
| Graph.StateGraph.AddConditionalEdges | amin_agent/graph.py:22-24 | Registers or overwrites the router of `source`. Nothing else changes. |
| Graph.StateGraph.SetEntryPoint | amin_agent/graph.py:26-27 | Sets or overwrites the entry. Nothing else changes. |
| Graph.StateGraph.Compile | amin_agent/graph.py:29-60 | A fresh runnable that refers to this graph, so later registrations are seen. |
| Graph.Runnable.constructor | amin_agent/graph.py:30-32 | The runnable refers to the graph it was built from. |
| Graph.Runnable.Invoke | amin_agent/graph.py:33-58 | The given state dict ends holding the walk's final state and is the same object that is returned. On an error the dict keeps what was merged before the raise. |
| AminMain.AgentLlmCalls | amin_agent/main.py:17-22 | The oracle's LLM call is `call_llm` with the agent's system prompt, which never raises on a reply with content. |
| AminMain.AgentLlmPlainReply | amin_agent/actions.py:28-29 | A reply that is not a tool call gives the oracle an `assistant_reply` action carrying the reply text. |
| AminMain.RunOracle | amin_agent/main.py:14-23 | Succeeds exactly on a state with input, history and steps. The result is a one-step list holding the LLM's action. |
| AminMain.OracleReplacesSteps | amin_agent/main.py:23 | Merged, the oracle's list replaces the previous steps, and every other key is unchanged (graph.py:45). |
| AminMain.Route | amin_agent/main.py:26-31 | The last step's tool name for a list of steps, and "final_answer" for a non-list. A missing key or an empty list raises. The corrected router sends an assistant reply to END. |
| AminMain.CallTool | amin_agent/main.py:34-41 | An unknown tool raises. `final_answer` binds its arguments and returns the final answer for them. `linkedin_scraper` binds query and max_results (default 5), runs the scraper on them, and returns the list of the found candidates' dicts; a binding or scraper error is passed on. |
| AminMain.RunTool | amin_agent/main.py:37-45 | Runs the last step's tool. `final_answer` yields only {"output": out}. Any other tool yields one step with the same name and input and `str(out)` as its output. |
| AminMain.CreateRunnable | amin_agent/main.py:48-61 | Entry "oracle" with a router, two tool nodes, linkedin_scraper → oracle and final_answer → END, on a fresh graph. |
| AminMain.Loop | amin_agent/main.py:85-107 | At most one invocation per round plus one more after a final answer, and at least one when there are rounds. |
| AminMain.Converse | amin_agent/main.py:85-107 | The loop on a compiled graph and a state dict yields what `Loop` describes. |
| AminMain.RunWithInput | amin_agent/main.py:64-107 | From the initial state (lines 77-82), the result is the 8-round loop on the graph with the corrected router. |
| AminMain.RunWithInputBound | amin_agent/main.py:85-103 | Between 1 and 9 graph invocations per run. |
| AminMain.SemApplies | amin_agent/main.py:51-55 | The registered node and router tokens stand for `run_oracle`, `run_tool` and `router`. |
| AminMain.LoopStopsOnError | amin_agent/main.py:87 | The loop stops with the error of the first invocation that raises. |
| AminMain.LoopStopsOnReply | amin_agent/main.py:94-97 | When the last step is an assistant reply, the loop returns its content together with the state. |
| AminMain.SemAnswers | amin_agent/main.py:14-23 | For any LLM call and tool table, on a ready state the oracle node answers with the LLM's action as the only step, and the routers are `router`. |
| AminMain.ReplyRaisesOn | amin_agent/main.py:26-31 | With the router as written, an assistant-reply step makes the walk raise "No node named assistant_reply". |
| AminMain.ReplyReturnedOn | amin_agent/main.py:96-97 | With the corrected router, the same step ends the walk after one call. |
| AminMain.AssistantReplyRaises | amin_agent/main.py:26-31 | As written, whenever the LLM call answers with a plain reply, `invoke` and the whole loop fail with "No node named assistant_reply". |
| AminMain.AssistantReplyReturned | amin_agent/main.py:94-97 | Corrected, the same reply ends the walk after one call, and the loop returns its content and the state. |
| AminActions.ContentOf | amin_agent/actions.py:18 | Succeeds exactly on a dict with a dict "message" holding "content", and yields that content. |
| AminActions.FromOllama | amin_agent/actions.py:15-32 | Raises only when the content is missing. A JSON dict with "name" gives that call, with parameters defaulting to {}. Anything else gives "assistant_reply" with {"content": content}. |
| AminActions.ShowOutputLine | amin_agent/actions.py:34-38 | `str(action)` is the tool and input lines, plus an "Output:" line exactly when there is an output. |
| AminActions.ActionToMessage | amin_agent/actions.py:41-45 | Exactly two messages: the assistant's JSON of name and parameters, then the user's message carrying the output. |
| AminActions.ActionMessageRoundTrip | amin_agent/actions.py:41-45 | The assistant message, read back as an LLM reply, is the same action without its output (lines 20-23). |
| AminActions.Kept | amin_agent/actions.py:49 | The kept actions are exactly those with an output. |
| AminActions.KeptAppend | amin_agent/actions.py:49 | The filter keeps order: it distributes over concatenation. |
| AminActions.Pairs | amin_agent/actions.py:50-52 | Two messages per kept action, at positions 2k and 2k+1, in order. |
| AminActions.CreateScratchpad | amin_agent/actions.py:48-53 | The filtered pairs, of length twice the number of actions with an output. |
| AminActions.Scratchpad | amin_agent/actions.py:48-53 | Twice as many messages as actions with an output. Message 2k is the k-th kept call as the assistant's JSON, and message 2k+1 is its output, which is always present. |
| AminActions.ToolChoice | amin_agent/actions.py:59-83 | An empty scratchpad offers both schemas with no reminder. Otherwise one reminder follows it, and after any search step (with or without output) only the final schema is offered, with the reminder "You must now use the final_answer tool.". |
| AminActions.SystemToolsPrompt | amin_agent/actions.py:85-87 | The prompt starts with the system prompt and the header "You may use the following tools:"; with no tools it is exactly that. |
| AminActions.PromptToolLines | amin_agent/actions.py:85-87 | After the header, the prompt splits into exactly one line per tool, `str(tool)`, in order, when no such text holds a line break. |
| AminActions.Messages | amin_agent/actions.py:56-94 | The system prompt for the tools offered, then the history, then the user input, then the scratchpad as sent. |
| AminActions.CallLlmMessages | amin_agent/actions.py:56-94 | The tools offered and the messages in order: system prompt, history, user input, scratchpad, reminder. |
| AminActions.CallLlm | amin_agent/actions.py:56-97 | The action read from the LLM's reply to those messages. This reader never raises on the wrapper's reply. |
| AminActions.CallLlmOf | amin_agent/actions.py:56-97 | Never fails, and the action has no output. A reply that is not a tool call becomes an "assistant_reply" holding the reply text. A tool call gives its name and its parameters (default {}). |
| AminActions.StubReplyIsSearch | amin_agent/llm.py:16-24 | Whatever it is sent, the offline stub's reply reads as the linkedin_scraper call with max_results 2. |
| AminActions.StubAlwaysSearches | amin_agent/llm.py:16-24 | Against the stub, `call_llm` always yields that search call. |
| RecruiterRuntime.RecTextLines | ollama_recruiter/agent_runtime.py:13-15 | `str(rec)`, split into lines, is the header followed by the links (one empty line when there are none). |
| RecruiterRuntime.RecText | ollama_recruiter/agent_runtime.py:13-15 | `str(rec)` starts with the header line. With no links it is just that line; with one link it is the header line followed by the link. |
| RecruiterRuntime.FromOllama | ollama_recruiter/agent_runtime.py:95-105 | Succeeds exactly when the content is JSON with a string name and dict parameters, and yields that call. Every other reply raises. |
| RecruiterRuntime.ActionMessageRoundTrip | ollama_recruiter/agent_runtime.py:108-112 | The assistant message reads back through the strict reader as the same action without output. |
| RecruiterRuntime.MessagesLayout | ollama_recruiter/agent_runtime.py:130-137 | System prompt, history, user input, then the scratchpad and nothing after it. |
| RecruiterRuntime.Messages | ollama_recruiter/agent_runtime.py:130-137 | The system prompt for the given tools comes first and the user input sits right after the history. The length is history + 2 + two per action with an output. |
| RecruiterRuntime.CallLlm | ollama_recruiter/agent_runtime.py:130-143 | Succeeds exactly when the reply is JSON with a string name and dict parameters. It then yields that call with no output. |
| RecruiterRuntime.RunTool | ollama_recruiter/agent_runtime.py:170-173 | `fn(**tool_input)`: the final answer needs exactly "answer" and returns it. The search binds query and num_candidates (default 5) and asks the service. |
| RecruiterRuntime.Execute | ollama_recruiter/agent_runtime.py:169-174 | Same name and input. The output is None for an unregistered tool or a None result, and `str(out)` otherwise. A tool error raises. |
| RecruiterRuntime.Outputs | ollama_recruiter/agent_runtime.py:185-186 | An output is recorded exactly when it exists and is not empty. |
| RecruiterRuntime.OrFallback | ollama_recruiter/agent_runtime.py:209-210 | The text is always truthy, and a truthy text is kept. |
| RecruiterRuntime.Turns | ollama_recruiter/agent_runtime.py:178-199 | One or two executed actions, and only when the first LLM call succeeds. |
| RecruiterRuntime.TurnsShape | ollama_recruiter/agent_runtime.py:178-199 | Two actions exactly when the first was the search tool. Each is the execution of what the LLM asked for. |
| RecruiterRuntime.ReplyOf | ollama_recruiter/agent_runtime.py:181-216 | One recorded call per action. The tool outputs are the non-empty outputs of the actions in order, leaving out the final call's. The assistant text is the final call's answer or output, or the fallback sentence, and it is never empty. |
| RecruiterRuntime.InvokeOf | ollama_recruiter/agent_runtime.py:176-216 | Fails exactly when a turn fails. Otherwise the reply records one or two calls, the first being the first executed action. Its assistant text is truthy and its tool outputs are all non-empty. |
| RecruiterRuntime.DirectAnswerFallsBack | ollama_recruiter/agent_runtime.py:191-210 | A final answer on the first turn shows the fallback sentence. Its text is only among the tool outputs. |
| RecruiterRuntime.FinalAnswerShown | ollama_recruiter/agent_runtime.py:200-204 | A final call shows `str(answer)` unless it is empty or "None" or the answer is None. Then it shows the answer if truthy, else the fallback. |
| RecruiterRuntime.Registry.constructor | ollama_recruiter/agent_runtime.py:150 | The shared registry starts empty. |
| RecruiterRuntime.Runtime.constructor | ollama_recruiter/agent_runtime.py:154-167 | Holds the two schemas and adds the two tools to the shared registry, keeping its other entries. |
| RecruiterRuntime.Runtime.ExecuteAction | ollama_recruiter/agent_runtime.py:169-174 | `_execute_action` against the current registry, changing nothing. |
| RecruiterRuntime.Runtime.Invoke | ollama_recruiter/agent_runtime.py:176-216 | The reply is the two-turn run on the current registry and schemas. |
| RecruiterRuntime.Assemble | ollama_recruiter/agent_runtime.py:181-216 | The bookkeeping of actions, tool outputs and assistant text builds exactly `ReplyOf` of the executed actions. |
| RecruiterAgent.FinalAnswer | agents/agent.py:96-102 | Succeeds exactly when "answer" is given and nothing else is unknown, and echoes the three fields, with "" for the missing ones. |
| RecruiterAgent.ScraperSchemaContents | agents/agent.py:148 | The scraper schema: a required string query and an optional integer max_results, with the given description. |
| RecruiterAgent.CrawlerSchemaContents | agents/agent.py:149 | The crawler schema: one required array-of-strings parameter. `Candidate` is a class and maps to string items. |
| RecruiterAgent.EmbedderSchemaContents | agents/agent.py:150 | The embedder schema: a required candidate list and an optional model. |
| RecruiterAgent.QuestionsSchemaContents | agents/agent.py:151 | The question generator requires both parameters; a bare class maps to string. |
| RecruiterAgent.FinalAnswerSchemaContents | agents/agent.py:152 | Only the answer is required of the final answer. |
| RecruiterAgent.Agent.constructor | agents/agent.py:115-116 | The vector store starts empty. |
| RecruiterAgent.Agent.FindCandidates | agents/agent.py:118-125 | The scraper's candidates, passed through the crawler unchanged. |
| RecruiterAgent.Agent.EmbedCandidates | agents/agent.py:127-135 | Returns the embedder's records, and the store grows by exactly those, with earlier entries untouched. |
| RecruiterAgent.Agent.MakeInterviewQuestions | agents/agent.py:137-139 | The generator's three questions. |
| RecruiterAgent.Agent.GetToolsSchema | agents/agent.py:141-154 | The five schemas, rendered, in the fixed order. |
| PlaceholderTools.CandidateFields | agents/tools.py:13-17 | `c.dict()` has exactly the four model fields, with their values. |
| PlaceholderTools.LinkedinScraper | agents/tools.py:20-41 | The 2-entry sample cut at `max_results` as Python slices it, negative bounds included. |
| PlaceholderTools.CandidatesCrawler | agents/tools.py:44-54 | One copy per input, same length and order. |
| PlaceholderTools.CandidateIdInjective | agents/tools.py:68 | Ids "candidate-{idx}" of different positions differ. |
| PlaceholderTools.Embedded | agents/tools.py:65-72 | One record per candidate. |
| PlaceholderTools.CandidatesEmbedder | agents/tools.py:57-72 | The loop builds exactly those records, in order. |
| PlaceholderTools.EmbeddedShape | agents/tools.py:66-71 | Record i has id "candidate-i", 768 zero components and the candidate's fields as meta; ids are pairwise distinct. |
| PlaceholderTools.InterviewQuestions | agents/tools.py:75-86 | Always exactly three questions. |
| PlaceholderTools.InterviewQuestionsNameTitle | agents/tools.py:81-86 | The first question contains the candidate's title, and the role description does not matter. |
| AdapterTools.CandidateDict | amin_agent/tools_adapter.py:30-36 | A database record as a dict with exactly its six keys and values. |
| AdapterTools.Score | amin_agent/tools_adapter.py:39-47 | The count of tokens found in the name/title or skills text. It lies in [0, len(tokens)]; it is 0 iff no token hits and len(tokens) iff all hit. |
| AdapterTools.ScoreCandidate | amin_agent/tools_adapter.py:39-47 | The counting loop computes `Score`. |
| AdapterTools.Tokens | amin_agent/tools_adapter.py:56 | One non-empty lower-cased token per whitespace-separated word, in order. |
| AdapterTools.Cands | amin_agent/tools_adapter.py:64 | The candidates of the scored pairs, in order. |
| AdapterTools.LinkedinScraper | amin_agent/tools_adapter.py:50-64 | The scoring loop, the sort and the slice compute the specified search over the database. |
| AdapterTools.Search | amin_agent/tools_adapter.py:50-64 | An empty query finds nothing. A bound of 0 finds nothing, and a non-negative bound caps the count. |
| AdapterTools.ScoredMatchesSound | amin_agent/tools_adapter.py:57-61 | Every match is a searched candidate with its own positive score. |
| AdapterTools.ScoredMatchesComplete | amin_agent/tools_adapter.py:57-61 | Every searched candidate with a positive score is matched. |
| AdapterTools.RankedSound | amin_agent/tools_adapter.py:57-63 | Every ranked match is a searched candidate with its positive score. |
| AdapterTools.SearchSound | amin_agent/tools_adapter.py:54-64 | Only a non-empty query returns anything, only candidates it hits are returned, and at most `max_results` of them. |
| AdapterTools.RankedComplete | amin_agent/tools_adapter.py:57-63 | Every hit candidate is among the ranked matches. |
| AdapterTools.NegatedKeyOrder | amin_agent/tools_adapter.py:63 | The key (-score, -years) orders by score descending, then years descending. |
| AdapterTools.RankedOrder | amin_agent/tools_adapter.py:63 | Ranked matches go by score descending, then by years descending. |
| AdapterTools.RankedStable | amin_agent/tools_adapter.py:63 | For every key, the matches that carry it keep their database order. |
| AdapterTools.ScraperOnValues | amin_agent/tools_adapter.py:50-64 | `linkedin_scraper(**args)` on Python values: a falsy query gives []. A string with an int or bool bound gives the search. A None bound gives every ranked match. A truthy non-string query, or a bound of any other type, raises. |
| AdapterTools.CandidatesCrawler | amin_agent/tools_adapter.py:67-72 | A prefix of the database of length min(limit, 5), and Python's negative slicing below 0. |
| AdapterTools.Len | amin_agent/tools_adapter.py:83 | `len` of a list, string or dict; anything else raises. |
| AdapterTools.EmbeddingOf | amin_agent/tools_adapter.py:82-86 | Fails exactly when the skills have no length or the years are not a number. has_contact is 1.0 exactly for a truthy contact, else 0.0. |
| AdapterTools.EmbeddingOfRecord | amin_agent/tools_adapter.py:81-87 | On a database record the vector is [number of skills, years, has contact]. |
| AdapterTools.CandidatesEmbedder | amin_agent/tools_adapter.py:75-87 | One vector per candidate, in order; otherwise the first failing candidate's error. |
| AdapterTools.SliceItems | amin_agent/tools_adapter.py:100 | `v[:k]` succeeds on lists and strings, with min(k, len) items, the list's prefix for a list. |
| AdapterTools.InterviewQuestionGenerator | amin_agent/tools_adapter.py:90-105 | Exactly max(0, n) questions. The title opener comes first, then at most n-2 skill questions for the leading skills, and the filler question for the rest. Skills that cannot be sliced raise. |
| AdapterTools.Coerce | amin_agent/tools_adapter.py:137-145 | A dict stays as it is. Any other item becomes exactly a name and a title, the first two entries of a list or tuple. |
| AdapterTools.ParseCandidates | amin_agent/tools_adapter.py:119-132 | A list is kept. A string is tried as JSON, then as a Python literal, else []. Anything else is []. |
| AdapterTools.Iteration | amin_agent/tools_adapter.py:136 | `for item in parsed` visits a list's items, a string's characters or a dict's keys; anything else raises. |
| AdapterTools.RankKey | amin_agent/tools_adapter.py:150-151 | (number of skills, 1 if a truthy contact else 0, then the years as integers); it fails exactly when the skills have no `len`. |
| AdapterTools.CheckKeys | amin_agent/tools_adapter.py:153 | The keys are computed for every record before sorting, and the first record whose key raises is the error. |
| AdapterTools.TextCodeOrder | amin_agent/tools_adapter.py:151-153 | On strings the code-point key orders as Python's `<=` on `str`. |
| AdapterTools.YearsCodeOrder | amin_agent/tools_adapter.py:151-153 | On two years of the same kind the integer key orders as Python's `<=`: numerically for numbers, as `str` for strings. |
| AdapterTools.KeyOfOrder | amin_agent/tools_adapter.py:150-153 | Whenever the comparison does not raise, the integer key orders two records as Python orders their `rank_key` tuples. |
| AdapterTools.OrderablePair | amin_agent/tools_adapter.py:150-153 | Two records of a list whose ties are comparable, ordered by the integer key, are ordered by the tuples. |
| AdapterTools.RankedByTuple | amin_agent/tools_adapter.py:150-153 | With every key computed and no incomparable tie, the ranking is descending in Python's tuple order. |
| AdapterTools.IncomparableTieRaises | amin_agent/tools_adapter.py:151-153 | Two records equal in skills and contact whose years Python cannot compare make `final_answer` raise. |
| AdapterTools.NumberYearsOrderable | amin_agent/tools_adapter.py:151-153 | Integer or boolean years never make the ranking raise. |
| AdapterTools.IncomparableTie | amin_agent/tools_adapter.py:151-153 | A tie between years of different kinds makes the list not orderable. |
| AdapterTools.UnorderableRaises | amin_agent/tools_adapter.py:153 | With every key computed, a list that is not orderable makes the ranking raise. |
| AdapterTools.SingleRecordRanks | amin_agent/tools_adapter.py:150-178 | A lone record is never compared: whatever its years, the answer lists its summary alone. |
| AdapterTools.SingleNullYearsRanks | amin_agent/tools_adapter.py:150-164 | A lone record with None for its years is never compared, and the answer lists its summary. |
| AdapterTools.Record | amin_agent/tools_adapter.py:156-164 | The summary dict has exactly the seven keys, carrying the candidate's name, title and contact, and fails exactly when the rationale cannot be built. |
| AdapterTools.Records | amin_agent/tools_adapter.py:154-164 | One summary per record, in order, when all build. |
| AdapterTools.Normalized | amin_agent/tools_adapter.py:135-147 | Each parsed item yields exactly one record, its coerced dict, in order. |
| AdapterTools.Answer | amin_agent/tools_adapter.py:166-178 | Exactly the keys candidates, next_steps and notes, where the notes are "Searched for {role}.". |
| AdapterTools.FinalAnswer | amin_agent/tools_adapter.py:108-178 | The normalising loop, the ranking and the summary compute the specified final answer. |
| AdapterTools.FinalAnswerOf | amin_agent/tools_adapter.py:108-178 | A normalising error is passed on. A successful answer has exactly the keys candidates, next_steps and notes. It has one candidate summary per normalised record, the fixed next steps, and the note naming the role. |
| AdapterTools.Summarising | amin_agent/tools_adapter.py:150-178 | The ranking and summary half computes its specification. |
| AdapterTools.BuildRecords | amin_agent/tools_adapter.py:154-164 | The per-candidate loop computes `Records` of the ranked list. |
| AdapterTools.RecordsAllBuilt | amin_agent/tools_adapter.py:154-164 | When every record builds, building all gives exactly those summaries. |
| AdapterTools.FirstRecordFailure | amin_agent/tools_adapter.py:154-164 | The first record that fails to build is the error of the whole. |
| AdapterTools.RankKeyOrder | amin_agent/tools_adapter.py:150-153 | The ranking is a permutation, ordered descending by the rank key, with ties kept in input order. |
| AdapterTools.SummariseRecords | amin_agent/tools_adapter.py:153-178 | A successful answer lists one summary per ranked record, in ranked order, with the fixed next steps. |
| AdapterTools.FinalAnswerFallsBackToEmpty | amin_agent/tools_adapter.py:119-133 | A string neither parser accepts, or an input that is neither string nor list, gives the answer for []. |
| AdapterTools.FinalAnswerOfJsonText | amin_agent/tools_adapter.py:120-123 | A list passed as its JSON text gives the same answer as the list. |
| Schema.MapType | amin_agent/llm.py:29-45 | The four scalars map to string, integer, number and boolean. Lists map to arrays, with string items when there is no argument. Dict origins map to object. Everything else maps to string. |
| Schema.ArrayDepthIsListDepth | amin_agent/llm.py:40-42 | The array tags nest exactly as deep as the list annotations. |
| Schema.TypeValue | amin_agent/llm.py:32-45 | `{"type": …}`, with "items" exactly for arrays. |
| Schema.TypeValueInjective | amin_agent/llm.py:32-45 | Different tags render differently. |
| Schema.PropertyOf | amin_agent/llm.py:60-61 | An unannotated parameter is a string; otherwise its annotation is mapped. |
| Schema.PropertiesExact | amin_agent/llm.py:57-63 | Exactly the non-variadic parameters get a property, each one its own. |
| Schema.RequiredExact | amin_agent/llm.py:64-65 | A name is required iff a non-variadic parameter with that name has no default. |
| Schema.PropertyNames | amin_agent/llm.py:63 | The property names, in declaration order. |
| Schema.RequiredInOrder | amin_agent/llm.py:57-65 | The required names follow declaration order. |
| Schema.FuncToSchema | amin_agent/llm.py:48-77 | The loop computes the properties and required names. The name defaults to `__name__`; the description defaults to the docstring or None. |
| Schema.SchemaOf | amin_agent/llm.py:48-77 | The name is the one given, unless it is missing or empty; then it is `__name__`. The description is the one given, else a non-empty docstring, else None. The properties and required names are the lists `PropertiesExact` and `RequiredExact` characterise. |
| Schema.PropertyValue | amin_agent/llm.py:61-62 | The rendered property is its type plus `"description": None`. |
| Schema.ParametersValue | amin_agent/llm.py:67-69 | An object with the properties; "required" is present exactly when some parameter is required, listed in order. |
| Schema.SchemaValue | amin_agent/llm.py:71-77 | `{"function": …}` and nothing else at the top. |
| Schema.PropertiesValueKeys | amin_agent/llm.py:63 | The rendered properties are keyed by exactly the property names. |
| StableSort.LexLeRefl | amin_agent/tools_adapter.py:63 | Tuple `<=` is reflexive. |
| StableSort.LexLeTotal | amin_agent/tools_adapter.py:63 | Tuple `<=` is total. |
| StableSort.LexLeTrans | amin_agent/tools_adapter.py:63 | Tuple `<=` is transitive. |
| StableSort.LexLeAntisym | amin_agent/tools_adapter.py:63 | Tuple `<=` is antisymmetric. |
| StableSort.Insert | amin_agent/tools_adapter.py:63 | Insertion adds exactly the one element. |
| StableSort.Sort | amin_agent/tools_adapter.py:153 | `sorted(…, key, reverse)` is a permutation of its input. |
| StableSort.InsertSorted | amin_agent/tools_adapter.py:63 | Insertion keeps a sequence ordered. |
| StableSort.SortSorted | amin_agent/tools_adapter.py:63 | The result is ordered by the key, ascending or descending. |
| StableSort.InsertWithKey | amin_agent/tools_adapter.py:63 | An inserted element follows every element with its key. |
| StableSort.SortStable | amin_agent/tools_adapter.py:63 | Elements with equal keys keep their input order, also with `reverse=True`. |
| BaseOracle.FromOllama | base_agents/oracle_agent.py:27-39 | Succeeds exactly on a JSON dict with "name", with parameters defaulting to {}. Every failure is a "RuntimeError: Failed to parse ollama response: …". |
| BaseOracle.AgreesWithAminReader | base_agents/oracle_agent.py:33-39 | Where it succeeds it gives amin_agent's action. Where it raises on a reply with content, amin_agent makes an assistant reply. |
| BaseOracle.PromptToolLines | base_agents/oracle_agent.py:107-109 | After the fixed header, the prompt splits into one JSON line per tool, and each line reads back as its tool. |
| BaseOracle.SystemToolsPrompt | base_agents/oracle_agent.py:107-109 | The prompt starts with the system prompt and the header "You may use the following tools:"; with no tools it is exactly that. |
| BaseOracle.ActionToMessage | base_agents/oracle_agent.py:111-115 | Two messages; the user content is the output, or "" when there is none. |
| BaseOracle.ActionMessageRoundTrip | base_agents/oracle_agent.py:112 | The assistant message reads back through this reader as the action without output. |
| BaseOracle.Pairs | base_agents/oracle_agent.py:120-121 | Two messages per action. |
| BaseOracle.PairsOfKept | base_agents/oracle_agent.py:117-122 | On actions that all have outputs, the "" default never shows: the messages are amin_agent's. |
| BaseOracle.ScratchpadAsAmin | base_agents/oracle_agent.py:117-122 | The scratchpad equals amin_agent's, of length twice the number of actions with output. |
| BaseOracle.Scratchpad | base_agents/oracle_agent.py:117-122 | Twice as many messages as actions with an output. Message 2k is the k-th kept call's JSON, and message 2k+1 carries its output, never the "" default. |
| BaseOracle.CreateScratchpad | base_agents/oracle_agent.py:117-122 | The loop builds the filtered pairs. |
| BaseOracle.OneToolOffered | base_agents/oracle_agent.py:127-136 | The system message is the prompt, the header and the search schema's JSON, and nothing else. |
| BaseOracle.Messages | base_agents/oracle_agent.py:127-136 | The prompt listing the search schema, then the history, then the user input, then the scratchpad. |
| BaseOracle.CallLlm | base_agents/oracle_agent.py:127-145 | Succeeds exactly when the reply is a JSON tool call, and then the action has no output. Every failure is a "Failed to parse ollama response" error. |
| BaseOracle.RunTool | base_agents/oracle_agent.py:155-179 | Raises exactly on missing or empty steps or an unknown last tool ("Unknown tool requested: …"). Otherwise one action with the same name and input, whose output is `str` of the result. |
| BaseOracle.ToolOut | base_agents/oracle_agent.py:170-174 | Arguments with a query and no keys other than query and num_candidates go to the service, with num_candidates defaulting to 5. Any other arguments give a "[tool_error] …" text. |
| BaseOracle.ToolErrorReported | base_agents/oracle_agent.py:171-174 | A call whose arguments do not bind gives output "[tool_error] …" instead of raising. |
| ChatTools.ChunkText | test.py:65-67 | A zero chunk size raises, a negative one gives no chunks, and a positive one gives the range slices. |
| ChatTools.ChunksConcat | test.py:66-67 | The chunks put back together are the text. |
| ChatTools.ChunkCount | test.py:66 | ceil(len/k) chunks; empty text gives none. |
| ChatTools.ChunkSizes | test.py:66-67 | Every chunk but the last is k long; the last is non-empty and at most k. |
| ChatTools.ChunkAt | test.py:66-67 | Chunk j is `text[j*k : j*k+k]`. |
| ChatTools.Chunks | test.py:65-67 | Every chunk is non-empty and at most `chunk_size` long. |
| ChatTools.ToolLine | test.py:56 | A card with name and description gives "name: description"; any other card raises. |
| ChatTools.ToolLines | test.py:56 | One line per card, in order, and the first bad card raises. |
| ChatTools.SystemToolsPrompt | test.py:55-57 | Raises exactly when some card lacks a name or description. Otherwise it starts with the system prompt and "Available tools:", and with no cards it is exactly that. |
| ChatTools.PromptLines | test.py:55-57 | The prompt after "\n\nAvailable tools:\n" splits into exactly the card lines. |
| ChatTools.SessionPrompt | test.py:140-147 | The session prompt ends in the multiply and linkedin_search lines. |
| ChatTools.LinksValue | test.py:51-52 | The canned links as a list of strings, in order. |
| ChatTools.BraceSlice | test.py:121-123 | Raises exactly when a brace is missing. Otherwise the text from the first "{" through the last "}" (empty when they are out of order). |
| ChatTools.EmbeddedCall | test.py:121-123 | A call framed by braces, with no "{" before it and no "}" after it, is sliced out exactly. |
| ChatTools.RunToolFromModel | test.py:118-137 | Never raises. The result is the canned links, an error text or an "Unknown tool: …" text; a reply missing a brace gives the error of the missing brace. |
| ChatTools.ParseErrorsReported | test.py:118-137 | A reply whose call cannot be found, decoded or read gives the error text, never a raise. |
| ChatTools.MissingBraceReported | test.py:121-137 | A reply without both braces gives "Error parsing or running tool: substring not found". |
| ChatTools.UnknownToolReported | test.py:133-134 | An unrecognised name gives "Unknown tool: <name>". |
| ChatTools.SearchReturnsLinks | test.py:128-129 | A search call whose parameters bind returns the five canned links. |
| ChatTools.FinalAnswerUndefined | test.py:130-132 | The final-answer branch always reports that `final_answer_tool` is not defined. |
| TextTools.CountCharacters | self_mcp_server/mcp_server_all.py:184-188 | The string's length. |
| TextTools.FirstHalf | self_mcp_server/mcp_server_all.py:191-196 | A prefix of length len//2: 2·|r| ≤ |s| ≤ 2·|r|+1. |
| TextTools.OddMiddleExcluded | weather/weather.py:28-35 | On odd lengths the middle character is outside the result, and the rest is as long as the half. |
| TextTools.EvenHalves | ollama_recruiter/tools_separate.py:139-141 | On even lengths the half is exactly half as long. |
| TextTools.HalfOfHalf | weather/weather.py:32-35 | Halving twice gives a prefix of a quarter of the length or less. |
| TextTools.SelfTests | self_mcp_server/mcp_server_all.py:224-225 | count_characters("abc") is 3 and get_first_half("abcdef") is "abc". |
| TextTools.CandidateSearch | ollama_recruiter/tools_separate.py:42-59 | Without requests: the two fixed links in test mode, else the fallback links. With requests: the remote search. |
| TextTools.TestLinksAreCannedPrefix | ollama_recruiter/tools_separate.py:51-55 | The offline test-mode links are the first two canned links of test.py. |
| TextTools.ExtractProfiles | ollama_recruiter/tools_separate.py:62-81 | No links, or no requests, gives []; only otherwise does extraction run. |
| TextTools.ExtractOnlyWithLinks | ollama_recruiter/tools_separate.py:68-74 | A non-empty result means there were links, requests, and the extraction ran. |
| Wrappers.MapAll | amin_agent/tools_adapter.py:154-164 | Applying a raising step to each element in turn succeeds exactly when every element does, and then gives each element's value in order. |
| Wrappers.MapAllBuilt | amin_agent/tools_adapter.py:154-164 | When every element maps, mapping them all gives exactly those values. |
| Wrappers.MapAllFirstFailure | amin_agent/tools_adapter.py:154-164 | The first element that fails decides the error of the whole. |
| Py.IndexOfAfter | base_agents/oracle_agent.py:108 | In `p + c + r` with no `c` in `p`, the first `c` is the one right after `p`. |
| Py.SplitOnAfter | base_agents/oracle_agent.py:108 | Splitting `p + c + r` on `c`, with no `c` in `p`, gives `p` and then the split of `r`. |
| Py.Prefix | agents/tools.py:41 | `s[:n]` as Python slices it: its length for every sign of n, and a prefix. |
| Py.LowerStr | amin_agent/tools_adapter.py:41-42 | `str.lower()` on ASCII, character by character. |
| Py.Split | amin_agent/tools_adapter.py:56 | `str.split()`: non-empty words without spaces; `Py.SplitWordThenSpace` and its neighbours state where the words are cut. |
| Py.WordLenOf | amin_agent/tools_adapter.py:56 | A run of non-space characters ends exactly at the first space or at the end. |
| Py.SplitWord | amin_agent/tools_adapter.py:56 | A non-empty string without spaces splits into itself alone. |
| Py.SplitSpace | amin_agent/tools_adapter.py:56 | A leading space is dropped. |
| Py.SplitWordThenSpace | amin_agent/tools_adapter.py:56 | A maximal non-space run followed by a space is one word, and splitting goes on after the space: words are the maximal runs. |
| Py.SplitKeepsText | amin_agent/tools_adapter.py:56 | The words, joined, are the non-space characters of the input, in order. |
| Py.IndexOf | test.py:121 | `str.index`: the first position of the character. |
| Py.RIndexOf | test.py:122 | `str.rindex`: the last position of the character. |
| Py.SplitOnJoin | base_agents/oracle_agent.py:108 | Parts joined with a line break that none contains split back into the parts. |
| Py.NatToString | agents/tools.py:68 | Decimal rendering: non-empty, all digits. |
| Py.NatToStringInjective | agents/tools.py:68 | Different numbers render differently. |
| Values.Get | amin_agent/tools_adapter.py:83 | `d.get(k, default)`. |
| Values.Format | amin_agent/main.py:42 | `str(v)` of a string is the string. |
| Values.Bind | amin_agent/main.py:41 | `f(**args)`: succeeds exactly when no key is unknown and every parameter without a default is given. Given values win and the rest are defaults. |

## Left out

- The language model (`ollama.chat`, `call_ollama`) is the host's `chat`
  function. The model states what is sent to it and how its reply is read,
  not what it answers.
- `json.loads`, `json.dumps`, `ast.literal_eval` and `str()` of non-strings
  are abstract host functions. Only the round trip `loads(dumps(v)) == v`
  is assumed, and only where a lemma says so in its `requires`.
- Network code:
  - the `linkedin_search_tool` functions of
    `ollama_recruiter/agent_runtime.py` and `base_agents/oracle_agent.py`
    use HTTP, so they are a search-service parameter;
  - `_search_candidates` and `_extract_and_save_profiles` of
    `ollama_recruiter/tools_separate.py` are parameters;
  - `FALLBACK_LINKS` is a parameter, because it is imported from
    `ollama_recruiter/tools.py`, which is not part of this model.
- The candidate-scoring engine is not defined in the repository's files.
  No scoring beyond the offline token count of `tools_adapter.py` is
  modelled.
- These are user interface or transport, with no logic to prove:
  - the MCP servers' transport and their pipeline, search, extract and
    score wrappers;
  - the Streamlit applications;
  - `test.py`'s module-level chat session and `stream_to_placeholder`;
  - printing and logging.
- `multiply_tool` is float arithmetic and `generate_md5_hash` a foreign
  library.
- Floats have no `Value` case. `AdapterTools.EmbeddingOf` yields Dafny
  reals, and its `float()` accepts only integers, booleans and digit
  strings.
- Dict key order is not modelled, because dicts are maps. Where Python
  output depends on insertion order (`str()` of a dict, JSON text), it is
  the abstract `str`/`dumps`.
- `semantic_router.FunctionSchema` and the system prompts are parameters.
  The oracle and runtime schemas are given values, not built.
- Pydantic validation is modelled only for what the code relies on: the
  `name` and `parameters` fields of `AgentAction`.
- Exception messages are approximate Python texts (e.g. "KeyError: 'x'").
  Only whether a call raises is exact, plus the messages the modelled code
  writes itself.
- `AdapterTools.Iteration`: a dict parsed from the input is iterated over
  its keys in an unmodelled order.
- AdapterTools.Orderable: in the model, sorting raises exactly when two
  records tie on skills and contact and their years are of kinds Python
  cannot compare. A number and a string, or None and a number, are such
  kinds. Python's sort must then compare two records of that tie whose
  years differ in kind, so it raises too. A list or a dict as years counts
  as comparable only with an equal value. Python compares two lists item
  by item instead.
- AdapterTools.FinalAnswer, AdapterTools.Summarising and
  AdapterTools.CheckKeys: the raise on incomparable years gives the fixed
  text "TypeError: '<' not supported between instances" and does not name
  the types.
- `ChatTools.ChunkCount` states ceil(len/k) as the bounds
  (c-1)·k < len ≤ c·k, which fix c, not as a division.
- Py.LowerStr and Py.Split: lower-casing and whitespace are ASCII only,
  where Python's cover all of Unicode.
- `PlaceholderTools.CandidatesEmbedder`: the `model` argument is unused by
  the source and is not a parameter.

## Findings

| source | as written | input that shows it | evidently intended | confidence | as-written member | corrected member |
|---|---|---|---|---|---|---|
| amin_agent/main.py:26-31 | `router` returns the last step's tool name, so an `assistant_reply` step (actions.py:29) routes to a node that does not exist and `invoke` raises "No node named assistant_reply"; the `assistant_reply` branch of `run_with_input` (lines 96-97) can never be reached | an LLM reply whose content is plain text, e.g. "Hello", which `from_ollama` turns into an `assistant_reply` action | a plain reply ends the walk after the oracle and `run_with_input` returns `{"assistant_reply": content, "state": state}` | not executed | AminMain.AssistantReplyRaises | AminMain.AssistantReplyReturned |
