/** The helpers of the chat front end in test.py: `chunk_text`, which cuts a
    text into fixed-size pieces for streaming, the system prompt listing the
    tools as "name: description" lines, and `run_tool_from_model`, which
    finds the tool call in a model reply between the first "{" and the last
    "}", decodes it and dispatches it, reporting every failure as text. */
module ChatTools {
  import opened Wrappers
  import opened Values
  import Py

  /** The default `chunk_size`. */
  const CHUNK_SIZE: int := 40

  /** The slices `text[i:i+k]` for `i` in `range(0, len(text), k)`. */
  function Chunks(text: string, k: nat): (cs: seq<string>)
    requires k > 0
    ensures forall i :: 0 <= i < |cs| ==> 0 < |cs[i]| <= k
    decreases |text|
  {
    if |text| == 0 then [] else [text[..Py.Min(k, |text|)]] + Chunks(text[Py.Min(k, |text|)..], k)
  }

  /** `list(chunk_text(text, chunk_size))`: `range` refuses a zero step and
      is empty for a negative one. */
  function ChunkText(text: string, chunkSize: int): (r: Result<seq<string>, string>)
    ensures r.Failure? <==> chunkSize == 0
    ensures chunkSize < 0 ==> r == Success([])
    ensures chunkSize > 0 ==> r == Success(Chunks(text, chunkSize))
  {
    if chunkSize == 0 then Failure("ValueError: range() arg 3 " + "must not be zero")
    else if chunkSize < 0 then Success([])
    else Success(Chunks(text, chunkSize))
  }

  /** The chunks put back together are the text. */
  lemma {:induction false} ChunksConcat(text: string, k: nat)
    requires k > 0
    ensures Py.Concat(Chunks(text, k)) == text
    decreases |text|
  {
    if |text| > 0 {
      var m := Py.Min(k, |text|);
      var cs := Chunks(text, k);
      ChunksConcat(text[m..], k);
      assert cs == [text[..m]] + Chunks(text[m..], k);
      assert cs[0] == text[..m] && cs[1..] == Chunks(text[m..], k);
      assert Py.Concat(cs) == text[..m] + text[m..];
      assert text == text[..m] + text[m..];
    }
  }

  /** There are ceil(len / k) chunks: the fewest whose `k` characters each
      cover the text; none for "". */
  lemma {:induction false} ChunkCount(text: string, k: nat)
    requires k > 0
    ensures var c := |Chunks(text, k)|; (c - 1) * k < |text| <= c * k
    ensures |text| == 0 <==> |Chunks(text, k)| == 0
    decreases |text|
  {
    if |text| > 0 {
      var m := Py.Min(k, |text|);
      ChunkCount(text[m..], k);
      var c := |Chunks(text[m..], k)|;
      assert |Chunks(text, k)| == c + 1;
      assert (c + 1) * k == c * k + k;
    }
  }

  /** Every chunk but the last is `k` long; the last is not empty and at
      most `k` long. */
  lemma {:induction false} ChunkSizes(text: string, k: nat)
    requires k > 0
    ensures var cs := Chunks(text, k);
            (forall j :: 0 <= j < |cs| - 1 ==> |cs[j]| == k) &&
            (|cs| > 0 ==> 0 < |cs[|cs| - 1]| <= k)
    decreases |text|
  {
    if |text| > 0 {
      var m := Py.Min(k, |text|);
      var cs := Chunks(text, k);
      var rest := Chunks(text[m..], k);
      ChunkSizes(text[m..], k);
      assert cs == [text[..m]] + rest;
      if |rest| > 0 {
        assert |text[m..]| > 0;
        assert m == k;
        forall j | 0 <= j < |cs| - 1
          ensures |cs[j]| == k
        {
          if j > 0 {
            assert cs[j] == rest[j - 1];
          }
        }
        assert cs[|cs| - 1] == rest[|rest| - 1];
      }
    }
  }

  /** Chunk `j` is `text[j*k : j*k + k]`, as the range loop slices it. */
  lemma {:induction false} ChunkAt(text: string, k: nat, j: nat)
    requires k > 0 && j < |Chunks(text, k)|
    ensures j * k < |text| && Chunks(text, k)[j] == text[j * k..Py.Min(j * k + k, |text|)]
    decreases |text|
  {
    var m := Py.Min(k, |text|);
    var rest := text[m..];
    assert Chunks(text, k) == [text[..m]] + Chunks(rest, k);
    if j > 0 {
      assert |rest| > 0 && m == k;
      ChunkAt(rest, k, j - 1);
      var p := (j - 1) * k;
      MulStep(j, k);
      ChunkShift(text, k, p);
    }
  }

  lemma MulStep(j: nat, k: nat)
    requires j > 0
    ensures j * k == (j - 1) * k + k
  {
  }

  /** A slice of `text[k..]` is the slice of `text` shifted by `k`. */
  lemma ChunkShift(text: string, k: nat, p: nat)
    requires k <= |text| && p < |text| - k
    ensures text[k..][p..Py.Min(p + k, |text| - k)] == text[p + k..Py.Min(p + k + k, |text|)]
  {
  }

  /** A tool card `{"name": ..., "description": ...}` as its prompt line;
      a card that is not a dict or lacks a key raises. */
  function ToolLine(h: Host, t: Value): (r: Result<string, string>)
    ensures r.Success? <==> t.Dict? && "name" in t.fields && "description" in t.fields
    ensures r.Success? ==> r.value == Format(h, t.fields["name"]) + ": " + Format(h, t.fields["description"])
  {
    if !t.Dict? then Failure("TypeError: tool is not " + "subscriptable by str")
    else if "name" !in t.fields then Failure("KeyError: 'name'")
    else if "description" !in t.fields then Failure("KeyError: 'description'")
    else Success(Format(h, t.fields["name"]) + ": " + Format(h, t.fields["description"]))
  }

  /** The prompt lines of all cards, in order; the first bad card raises. */
  function ToolLines(h: Host, tools: seq<Value>): (r: Result<seq<string>, string>)
    ensures r.Success? <==> forall i :: 0 <= i < |tools| ==> ToolLine(h, tools[i]).Success?
    ensures r.Success? ==> |r.value| == |tools| && forall i :: 0 <= i < |tools| ==> r.value[i] == ToolLine(h, tools[i]).value
  {
    MapAll((t: Value) => ToolLine(h, t), tools)
  }

  const TOOLS_HEADER: string := "\n\nAvailable tools:\n"

  /** `get_system_tools_prompt(system_prompt, tools)`. */
  function SystemToolsPrompt(h: Host, systemPrompt: string, tools: seq<Value>): (r: Result<string, string>)
    ensures r.Success? <==> forall i :: 0 <= i < |tools| ==> ToolLine(h, tools[i]).Success?
    ensures r.Success? ==> systemPrompt + TOOLS_HEADER <= r.value
    ensures r.Success? && |tools| == 0 ==> r.value == systemPrompt + TOOLS_HEADER
  {
    var lines :- ToolLines(h, tools);
    Success(systemPrompt + TOOLS_HEADER + Py.Join("\n", lines))
  }

  /** The prompt after the header splits, line by line, into one
      "name: description" line per card, when no card text holds a line
      break. */
  lemma PromptLines(h: Host, systemPrompt: string, tools: seq<Value>)
    requires |tools| >= 1 && ToolLines(h, tools).Success?
    requires forall i :: 0 <= i < |tools| ==> '\n' !in ToolLine(h, tools[i]).value
    ensures var prompt := SystemToolsPrompt(h, systemPrompt, tools).value;
            var head := systemPrompt + TOOLS_HEADER;
            var lines := Py.SplitOn(prompt[|head|..], '\n');
            prompt[..|head|] == head && |lines| == |tools| &&
            forall i :: 0 <= i < |tools| ==>
              lines[i] == Format(h, tools[i].fields["name"]) + ": " + Format(h, tools[i].fields["description"])
  {
    var lines := ToolLines(h, tools).value;
    var head := systemPrompt + TOOLS_HEADER;
    var prompt := SystemToolsPrompt(h, systemPrompt, tools).value;
    assert prompt == head + Py.Join("\n", lines);
    assert prompt[|head|..] == Py.Join("\n", lines);
    assert "\n" == ['\n'];
    Py.SplitOnJoin(lines, '\n');
  }

  /** The two cards of the chat session. */
  const SESSION_TOOLS: seq<Value> := [
    Dict(map["name" := Str("multiply"), "description" := Str("Multiply two numbers: " + "multiply(a, b)")]),
    Dict(map["name" := Str("linkedin_search"),
             "description" := Str("Search LinkedIn for " + "candidates: " + "linkedin_search(query, " + "num_candidates=5)")])]

  /** The session prompt ends in exactly the two tool lines. */
  lemma SessionPrompt(h: Host, systemPrompt: string)
    ensures SystemToolsPrompt(h, systemPrompt, SESSION_TOOLS) == Success(systemPrompt + TOOLS_HEADER + Py.Join("\n", [
              "multiply" + ": " + ("Multiply two numbers: " + "multiply(a, b)"),
              "linkedin_search" + ": " + ("Search LinkedIn for " + "candidates: " + "linkedin_search(query, " + "num_candidates=5)")]))
  {
    var l0 := "multiply" + ": " + ("Multiply two numbers: " + "multiply(a, b)");
    var l1 := "linkedin_search" + ": " + ("Search LinkedIn for " + "candidates: " + "linkedin_search(query, " + "num_candidates=5)");
    var t0 := SESSION_TOOLS[0].fields;
    var t1 := SESSION_TOOLS[1].fields;
    assert Format(h, t0["name"]) == "multiply" && Format(h, t0["description"]) == "Multiply two numbers: " + "multiply(a, b)";
    assert Format(h, t1["name"]) == "linkedin_search";
    assert Format(h, t1["description"]) == "Search LinkedIn for " + "candidates: " + "linkedin_search(query, " + "num_candidates=5)";
    var lines := ToolLines(h, SESSION_TOOLS).value;
    assert lines == [l0, l1];
  }

  /** The links the offline `linkedin_search_tool` always returns. */
  const CANNED_LINKS: seq<string> := [
    "https://www.linkedin.com/in/sa" + "ber-chadded-36552b192/",
    "https://www.linkedin.com/in/gu" + "esmi-wejden-5269222aa/",
    "https://www.linkedin.com/in/hi" + "chem-dridi/",
    "https://www.linkedin.com/in/no" + "ur-hamdi/",
    "https://www.linkedin.com/in/iy" + "adh-chaouch-072077225/"]

  function LinksValue(links: seq<string>): (v: Value)
    ensures v.List? && |v.items| == |links| && forall i :: 0 <= i < |links| ==> v.items[i] == Str(links[i])
  {
    List(seq(|links|, i requires 0 <= i < |links| => Str(links[i])))
  }

  const SEARCH_FORMALS: seq<Formal> := [Formal("query", None), Formal("num_candidates", Some(Int(5)))]

  /** The text from the first "{" to the last "}", both included; empty when
      the last "}" comes before the first "{"; a missing brace raises. */
  function BraceSlice(text: string): (r: Result<string, string>)
    ensures r.Failure? <==> '{' !in text || '}' !in text
    ensures r.Success? && r.value != "" ==>
              var i := Py.IndexOf(text, '{');
              i + |r.value| <= |text| && r.value == text[i..i + |r.value|] &&
              r.value[0] == '{' && r.value[|r.value| - 1] == '}' && '}' !in text[i + |r.value|..]
  {
    if '{' !in text || '}' !in text then Failure("substring not found")
    else
      var i := Py.IndexOf(text, '{');
      var j := Py.RIndexOf(text, '}') + 1;
      if i <= j then Success(text[i..j]) else Success("")
  }

  /** A JSON object between text without "{" before it and text without "}"
      after it is what the slice finds. */
  lemma EmbeddedCall(before: string, call: string, after: string)
    requires '{' !in before && '}' !in after
    requires |call| >= 2 && call[0] == '{' && call[|call| - 1] == '}'
    ensures BraceSlice(before + call + after) == Success(call)
  {
    var text := before + call + after;
    assert text[|before|] == '{';
    assert text[|before| + |call| - 1] == '}';
    var i := Py.IndexOf(text, '{');
    var j := Py.RIndexOf(text, '}');
    assert i == |before|;
    assert j == |before| + |call| - 1;
    assert text[i..j + 1] == call;
  }

  const ERROR_PREFIX: string := "Error parsing or running " + "tool: "
  const UNKNOWN_PREFIX: string := "Unknown tool: "

  /** `run_tool_from_model(output_text)`: the search tool's links, the text of
      an unknown tool, or the error text of whatever raised on the way. The
      final-answer branch calls a function test.py never defines. */
  function RunToolFromModel(h: Host, outputText: string): (r: Value)
    ensures r == LinksValue(CANNED_LINKS) || (r.Str? && (ERROR_PREFIX <= r.s || UNKNOWN_PREFIX <= r.s))
    ensures BraceSlice(outputText).Failure? ==> r == Str(ERROR_PREFIX + BraceSlice(outputText).error)
  {
    match BraceSlice(outputText)
    case Failure(e) => Str(ERROR_PREFIX + e)
    case Success(callJson) =>
      match h.loads(callJson)
      case Failure(e) => Str(ERROR_PREFIX + e)
      case Success(call) =>
        if !call.Dict? then Str(ERROR_PREFIX + ("the tool call is not " + "subscriptable by str"))
        else if "name" !in call.fields then Str(ERROR_PREFIX + "'name'")
        else if "parameters" !in call.fields then Str(ERROR_PREFIX + "'parameters'")
        else
          var name := call.fields["name"];
          var params := call.fields["parameters"];
          if name == Str("linkedin_search") then
            if !params.Dict? then Str(ERROR_PREFIX + ("linkedin_search_tool() " + "argument after ** must be a " + "mapping"))
            else
              match Bind("linkedin_search_tool", SEARCH_FORMALS, params.fields)
              case Failure(e) => Str(ERROR_PREFIX + e)
              case Success(_) => LinksValue(CANNED_LINKS)
          else if name == Str("final_answer") then Str(ERROR_PREFIX + ("name 'final_answer_tool' is " + "not defined"))
          else Str(UNKNOWN_PREFIX + Format(h, name))
  }

  /** The decoded tool call a reply holds, when it holds one. */
  predicate DecodesTo(h: Host, outputText: string, call: map<string, Value>) {
    BraceSlice(outputText).Success? && h.loads(BraceSlice(outputText).value) == Success(Dict(call))
  }

  /** Nothing raises: a reply whose tool call cannot be found, decoded or
      read gives the error text. */
  lemma ParseErrorsReported(h: Host, outputText: string)
    requires !(exists call :: DecodesTo(h, outputText, call) && "name" in call && "parameters" in call)
    ensures var r := RunToolFromModel(h, outputText);
            r.Str? && |ERROR_PREFIX| <= |r.s| && r.s[..|ERROR_PREFIX|] == ERROR_PREFIX
  {
    match BraceSlice(outputText)
    case Failure(e) =>
    case Success(callJson) =>
      match h.loads(callJson)
      case Failure(e) =>
      case Success(call) =>
        if call.Dict? && "name" in call.fields && "parameters" in call.fields {
          assert DecodesTo(h, outputText, call.fields);
          assert false;
        }
  }

  /** A reply without both braces gives the `index` error text. */
  lemma MissingBraceReported(h: Host, outputText: string)
    requires '{' !in outputText || '}' !in outputText
    ensures RunToolFromModel(h, outputText) == Str(ERROR_PREFIX + "substring not found")
  {
  }

  /** A tool name other than the two known ones is answered, not raised. */
  lemma UnknownToolReported(h: Host, outputText: string, call: map<string, Value>)
    requires DecodesTo(h, outputText, call) && "name" in call && "parameters" in call
    requires call["name"] != Str("linkedin_search") && call["name"] != Str("final_answer")
    ensures RunToolFromModel(h, outputText) == Str("Unknown tool: " + Format(h, call["name"]))
  {
  }

  /** A search call whose parameters bind returns the canned links, in order. */
  lemma SearchReturnsLinks(h: Host, outputText: string, params: map<string, Value>)
    requires DecodesTo(h, outputText, map["name" := Str("linkedin_search"), "parameters" := Dict(params)])
    requires "query" in params && params.Keys <= {"query", "num_candidates"}
    ensures RunToolFromModel(h, outputText) == LinksValue(CANNED_LINKS)
  {
    assert Names(SEARCH_FORMALS) == {"query", "num_candidates"};
    assert Bind("linkedin_search_tool", SEARCH_FORMALS, params).Success?;
  }

  /** The final-answer branch never yields an answer: it always reports the
      undefined function. */
  lemma FinalAnswerUndefined(h: Host, outputText: string, params: Value)
    requires DecodesTo(h, outputText, map["name" := Str("final_answer"), "parameters" := params])
    ensures RunToolFromModel(h, outputText) == Str(ERROR_PREFIX + ("name 'final_answer_tool' is " + "not defined"))
  {
  }
}
