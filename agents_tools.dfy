/** The placeholder tools of agents/tools.py: a scraper that returns a slice
    of two sample candidates, a crawler that copies its input, an embedder
    that gives every candidate a positional id and a zero vector, and a
    fixed three-question generator. */
module PlaceholderTools {
  import opened Wrappers
  import opened Values
  import Py

  /** The pydantic `Candidate` model. */
  datatype Candidate = Candidate(name: string, title: string, summary: string, profileUrl: Option<string>)

  /** `c.dict()`. */
  function CandidateFields(c: Candidate): (d: map<string, Value>)
    ensures d.Keys == {"name", "title", "summary", "profile_url"}
    ensures d["name"] == Str(c.name) && d["title"] == Str(c.title) && d["summary"] == Str(c.summary)
  {
    map["name" := Str(c.name), "title" := Str(c.title), "summary" := Str(c.summary),
        "profile_url" := match c.profileUrl case Some(u) => Str(u) case None => Null]
  }

  const SAMPLE: seq<Candidate> := [
    Candidate("Alice Johnson", "Software Engineer \U{2014} Python / " + "ML",
              "Experienced engineer with ML " + "and backend experience.", Some("https://linkedin.example/alice")),
    Candidate("Bob Smith", "Senior ML Engineer",
              "Worked on production ML " + "pipelines and data infra.", Some("https://linkedin.example/bob"))
  ]

  /** `linkedin_scraper(query, max_results)`: the query is ignored and the
      samples are sliced; for a bound that is not negative, the first
      `min(max_results, 2)` samples. */
  function LinkedinScraper(query: string, maxResults: int): (r: seq<Candidate>)
    ensures maxResults >= 0 ==> r == SAMPLE[..Py.Min(maxResults, |SAMPLE|)]
    ensures maxResults < 0 ==> r == SAMPLE[..Py.Max(0, |SAMPLE| + maxResults)]
  {
    Py.Prefix(SAMPLE, maxResults)
  }

  /** `candidates_crawler`: one copy per candidate, in order. */
  method CandidatesCrawler(candidates: seq<Candidate>) returns (enriched: seq<Candidate>)
    ensures enriched == candidates
  {
    enriched := [];
    for i := 0 to |candidates|
      invariant enriched == candidates[..i]
    {
      enriched := enriched + [candidates[i]];
    }
  }

  /** One record of `candidates_embedder`: `{"id", "embedding", "meta"}`. */
  datatype Embedding = Embedding(id: string, embedding: seq<real>, meta: map<string, Value>)

  const DIMENSIONS: nat := 768

  /** `f"candidate-{idx}"`. */
  function CandidateId(idx: nat): string {
    "candidate-" + Py.NatToString(idx)
  }

  /** Positional ids never collide. */
  lemma CandidateIdInjective(i: nat, j: nat)
    requires CandidateId(i) == CandidateId(j)
    ensures i == j
  {
    var p := "candidate-";
    assert Py.NatToString(i) == CandidateId(i)[|p|..];
    assert Py.NatToString(j) == CandidateId(j)[|p|..];
    Py.NatToStringInjective(i, j);
  }

  /** The records `candidates_embedder` returns: the candidate at position
      `i` gets id `candidate-i`, 768 zeros and its own fields. */
  function Embedded(candidates: seq<Candidate>): (r: seq<Embedding>)
    ensures |r| == |candidates|
  {
    seq(|candidates|, i requires 0 <= i < |candidates| =>
      Embedding(CandidateId(i), seq(DIMENSIONS, _ => 0.0), CandidateFields(candidates[i])))
  }

  /** `candidates_embedder(candidates, model)`; the model name is unused. */
  method CandidatesEmbedder(candidates: seq<Candidate>) returns (results: seq<Embedding>)
    ensures results == Embedded(candidates)
  {
    results := [];
    for idx := 0 to |candidates|
      invariant results == Embedded(candidates[..idx])
    {
      results := results + [Embedding(CandidateId(idx), seq(DIMENSIONS, _ => 0.0), CandidateFields(candidates[idx]))];
    }
    assert candidates[..|candidates|] == candidates;
  }

  /** Every embedding has 768 zero components, its meta is the candidate's
      fields, and no two records share an id. */
  lemma EmbeddedShape(candidates: seq<Candidate>)
    ensures var r := Embedded(candidates);
            (forall i :: 0 <= i < |r| ==> |r[i].embedding| == 768 && (forall k :: 0 <= k < 768 ==> r[i].embedding[k] == 0.0)) &&
            (forall i :: 0 <= i < |r| ==> r[i].meta == CandidateFields(candidates[i])) &&
            (forall i, j :: 0 <= i < j < |r| ==> r[i].id != r[j].id)
  {
    var r := Embedded(candidates);
    forall i, j | 0 <= i < j < |r|
      ensures r[i].id != r[j].id
    {
      if r[i].id == r[j].id {
        CandidateIdInjective(i, j);
      }
    }
  }

  /** `interview_question_generator(candidate, role_description)`; the role
      description is unused. */
  function InterviewQuestions(candidate: Candidate, roleDescription: string): (q: seq<string>)
    ensures |q| == 3
  {
    [("Explain a project where you " + "built an ML pipeline " + "end-to-end, focusing on ") + candidate.title + ".",
     "How do you monitor model " + "performance in production?",
     "Describe a time you optimized " + "model inference latency."]
  }

  /** The first question names the candidate's title, and the list does not
      depend on the role description. */
  lemma InterviewQuestionsNameTitle(candidate: Candidate, roleDescription: string, other: string)
    ensures Py.Contains(InterviewQuestions(candidate, roleDescription)[0], candidate.title)
    ensures InterviewQuestions(candidate, roleDescription) == InterviewQuestions(candidate, other)
  {
    var p := "Explain a project where you " + "built an ML pipeline " + "end-to-end, focusing on ";
    var q := InterviewQuestions(candidate, roleDescription)[0];
    assert q == p + candidate.title + ".";
    assert q[|p|..|p| + |candidate.title|] == candidate.title;
    assert Py.OccursAt(q, candidate.title, |p|);
  }
}
