/** The `Agent` wrapper of agents/agent.py: candidate search through the
    placeholder scraper and crawler, an in-memory vector store that
    `embed_candidates` extends, the echoing `final_answer` tool and the five
    tool schemas the agent offers to the LLM. */
module RecruiterAgent {
  import opened Wrappers
  import opened Values
  import Py
  import opened PlaceholderTools
  import Schema

  const FINAL_ANSWER_FORMALS: seq<Formal> :=
    [Formal("answer", None), Formal("phone_number", Some(Str(""))), Formal("address", Some(Str("")))]

  /** `final_answer(**args)`: the binding errors of the call, otherwise the
      three arguments echoed back, an omitted phone number or address being
      the empty string. */
  function FinalAnswer(args: map<string, Value>): (r: Result<Value, string>)
    ensures r.Success? <==> "answer" in args && args.Keys <= {"answer", "phone_number", "address"}
    ensures r.Success? ==> r.value == Dict(map[
              "answer" := args["answer"],
              "phone_number" := Get(args, "phone_number", Str("")),
              "address" := Get(args, "address", Str(""))])
  {
    var bound :- Bind("final_answer", FINAL_ANSWER_FORMALS, args);
    Success(Dict(map["answer" := bound["answer"], "phone_number" := bound["phone_number"], "address" := bound["address"]]))
  }

  /** The signatures of the five tools. `Candidate` is a class, which has no
      typing origin; the docstrings are not reproduced, because every schema
      is built with an explicit description, which takes precedence. */
  const SCRAPER_SIGNATURE: Schema.Signature := Schema.Signature("linkedin_scraper", None, [
    Schema.Param("query", Schema.PositionalOrKeyword, Some(Schema.StrType), None),
    Schema.Param("max_results", Schema.PositionalOrKeyword, Some(Schema.IntType), Some(Int(5)))])

  const CRAWLER_SIGNATURE: Schema.Signature := Schema.Signature("candidates_crawler", None, [
    Schema.Param("candidates", Schema.PositionalOrKeyword, Some(Schema.Generic(Schema.ListOrigin, [Schema.Other])), None)])

  const EMBEDDER_SIGNATURE: Schema.Signature := Schema.Signature("candidates_embedder", None, [
    Schema.Param("candidates", Schema.PositionalOrKeyword, Some(Schema.Generic(Schema.ListOrigin, [Schema.Other])), None),
    Schema.Param("model", Schema.PositionalOrKeyword, Some(Schema.StrType), Some(Str("local")))])

  const QUESTIONS_SIGNATURE: Schema.Signature := Schema.Signature("interview_question_generator", None, [
    Schema.Param("candidate", Schema.PositionalOrKeyword, Some(Schema.Other), None),
    Schema.Param("role_description", Schema.PositionalOrKeyword, Some(Schema.StrType), None)])

  const FINAL_ANSWER_SIGNATURE: Schema.Signature := Schema.Signature("final_answer", None, [
    Schema.Param("answer", Schema.PositionalOrKeyword, Some(Schema.StrType), None),
    Schema.Param("phone_number", Schema.PositionalOrKeyword, Some(Schema.StrType), Some(Str(""))),
    Schema.Param("address", Schema.PositionalOrKeyword, Some(Schema.StrType), Some(Str("")))])

  const TOOL_SIGNATURES: seq<Schema.Signature> :=
    [SCRAPER_SIGNATURE, CRAWLER_SIGNATURE, EMBEDDER_SIGNATURE, QUESTIONS_SIGNATURE, FINAL_ANSWER_SIGNATURE]

  const TOOL_DESCRIPTIONS: seq<string> := [
    "Search LinkedIn for candidates",
    "Enrich candidate records by " + "crawling profile pages",
    "Create embeddings for " + "candidates",
    "Generate interview questions " + "for a candidate",
    "Format and return the final " + "answer"]

  /** The schema of tool `i` in the fixed order. */
  function ToolSchema(i: nat): Schema.FunctionSchema
    requires i < 5
  {
    Schema.SchemaOf(TOOL_SIGNATURES[i], None, Some(TOOL_DESCRIPTIONS[i]))
  }

  /** The scraper takes a required string query and an optional integer
      bound. */
  lemma ScraperSchemaContents()
    ensures ToolSchema(0) == Schema.FunctionSchema("linkedin_scraper", Some("Search LinkedIn for candidates"),
              [Schema.Property("query", Schema.JString), Schema.Property("max_results", Schema.JInteger)], ["query"])
  {
    var ps := SCRAPER_SIGNATURE.params;
    assert ps[..1][..0] == [] && ps[..2][..1] == ps[..1] && ps[..2] == ps;
    assert Schema.Properties(ps[..1]) == [Schema.PropertyOf(ps[0])];
    assert Schema.Properties(ps) == Schema.Properties(ps[..1]) + [Schema.PropertyOf(ps[1])];
    assert Schema.RequiredNames(ps) == Schema.RequiredNames(ps[..1]) + Schema.RequiredNames([ps[1]]);
  }

  /** The crawler takes a required list of candidates, an array of strings
      because a candidate class has no typing origin. */
  lemma CrawlerSchemaContents()
    ensures ToolSchema(1) == Schema.FunctionSchema("candidates_crawler", Some("Enrich candidate records by " + "crawling profile pages"),
              [Schema.Property("candidates", Schema.JArray(Schema.JString))], ["candidates"])
  {
    var ps := CRAWLER_SIGNATURE.params;
    assert ps[..1][..0] == [] && ps[..1] == ps;
  }

  /** The embedder takes a required candidate list and an optional model. */
  lemma EmbedderSchemaContents()
    ensures ToolSchema(2) == Schema.FunctionSchema("candidates_embedder", Some("Create embeddings for " + "candidates"),
              [Schema.Property("candidates", Schema.JArray(Schema.JString)), Schema.Property("model", Schema.JString)], ["candidates"])
  {
    var ps := EMBEDDER_SIGNATURE.params;
    assert ps[..1][..0] == [] && ps[..2][..1] == ps[..1] && ps[..2] == ps;
    assert Schema.Properties(ps[..1]) == [Schema.PropertyOf(ps[0])];
    assert Schema.Properties(ps) == Schema.Properties(ps[..1]) + [Schema.PropertyOf(ps[1])];
    assert Schema.RequiredNames(ps) == Schema.RequiredNames(ps[..1]) + Schema.RequiredNames([ps[1]]);
  }

  /** The question generator requires both of its parameters; a bare
      candidate is a string. */
  lemma QuestionsSchemaContents()
    ensures ToolSchema(3) == Schema.FunctionSchema("interview_question_generator", Some("Generate interview questions " + "for a candidate"),
              [Schema.Property("candidate", Schema.JString), Schema.Property("role_description", Schema.JString)],
              ["candidate", "role_description"])
  {
    var ps := QUESTIONS_SIGNATURE.params;
    assert ps[..1][..0] == [] && ps[..2][..1] == ps[..1] && ps[..2] == ps;
    assert Schema.Properties(ps[..1]) == [Schema.PropertyOf(ps[0])];
    assert Schema.Properties(ps) == Schema.Properties(ps[..1]) + [Schema.PropertyOf(ps[1])];
    assert Schema.RequiredNames(ps) == Schema.RequiredNames(ps[..1]) + Schema.RequiredNames([ps[1]]);
  }

  /** Only the answer is required of the final answer. */
  lemma FinalAnswerSchemaContents()
    ensures ToolSchema(4) == Schema.FunctionSchema("final_answer", Some("Format and return the final " + "answer"),
              [Schema.Property("answer", Schema.JString), Schema.Property("phone_number", Schema.JString),
               Schema.Property("address", Schema.JString)], ["answer"])
  {
    var ps := FINAL_ANSWER_SIGNATURE.params;
    assert ps[..1][..0] == [] && ps[..2][..1] == ps[..1] && ps[..3][..2] == ps[..2] && ps[..3] == ps;
    assert Schema.Properties(ps[..1]) == [Schema.PropertyOf(ps[0])];
    assert Schema.Properties(ps[..2]) == Schema.Properties(ps[..1]) + [Schema.PropertyOf(ps[1])];
    assert Schema.Properties(ps) == Schema.Properties(ps[..2]) + [Schema.PropertyOf(ps[2])];
    assert Schema.RequiredNames(ps[..2]) == Schema.RequiredNames(ps[..1]);
    assert Schema.RequiredNames(ps) == Schema.RequiredNames(ps[..2]);
  }

  /** The agent, with its in-memory store of embedding records. */
  class Agent {
    var vectorStore: seq<Embedding>

    constructor ()
      ensures vectorStore == []
    {
      vectorStore := [];
    }

    /** `find_candidates`: the scraper's candidates, passed through the
        crawler. */
    method FindCandidates(query: string, maxResults: int) returns (enriched: seq<Candidate>)
      ensures enriched == LinkedinScraper(query, maxResults)
    {
      var found := LinkedinScraper(query, maxResults);
      enriched := CandidatesCrawler(found);
    }

    /** `embed_candidates`: the store grows by exactly the returned records,
        earlier records untouched. */
    method EmbedCandidates(candidates: seq<Candidate>) returns (embeds: seq<Embedding>)
      modifies this
      ensures embeds == Embedded(candidates)
      ensures vectorStore == old(vectorStore) + embeds
    {
      embeds := CandidatesEmbedder(candidates);
      vectorStore := vectorStore + embeds;
    }

    /** `make_interview_questions`: the generator's three questions. */
    method MakeInterviewQuestions(candidate: Candidate, roleDescription: string) returns (q: seq<string>)
      ensures q == InterviewQuestions(candidate, roleDescription) && |q| == 3
    {
      q := InterviewQuestions(candidate, roleDescription);
    }

    /** `get_tools_schema`: the five schemas, rendered, in the fixed order. */
    method GetToolsSchema() returns (tools: seq<Value>)
      ensures tools == [Schema.SchemaValue(ToolSchema(0)), Schema.SchemaValue(ToolSchema(1)), Schema.SchemaValue(ToolSchema(2)),
                        Schema.SchemaValue(ToolSchema(3)), Schema.SchemaValue(ToolSchema(4))]
    {
      var s0 := Schema.FuncToSchema(SCRAPER_SIGNATURE, None, Some(TOOL_DESCRIPTIONS[0]));
      var s1 := Schema.FuncToSchema(CRAWLER_SIGNATURE, None, Some(TOOL_DESCRIPTIONS[1]));
      var s2 := Schema.FuncToSchema(EMBEDDER_SIGNATURE, None, Some(TOOL_DESCRIPTIONS[2]));
      var s3 := Schema.FuncToSchema(QUESTIONS_SIGNATURE, None, Some(TOOL_DESCRIPTIONS[3]));
      var s4 := Schema.FuncToSchema(FINAL_ANSWER_SIGNATURE, None, Some(TOOL_DESCRIPTIONS[4]));
      tools := [Schema.SchemaValue(s0), Schema.SchemaValue(s1), Schema.SchemaValue(s2), Schema.SchemaValue(s3), Schema.SchemaValue(s4)];
    }
  }
}
