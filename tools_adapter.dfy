/** The offline candidate tools of amin_agent/tools_adapter.py (the stub
    branch, which is the one that runs: agents/tools.py exports no
    `final_answer`, so the import of the real tools fails). A five-record
    in-memory database, token scoring, a ranked search, a crawler that
    returns a prefix of the database, a fixed-shape embedder, an interview
    question generator and the final-answer synthesiser. */
module AdapterTools {
  import opened Wrappers
  import opened Values
  import Py
  import StableSort
  import Schema

  /** A database record (`Candidate(dict)` built with these six keys). */
  datatype Candidate = Candidate(name: string, title: string, skills: seq<string>, years: int,
                                 location: string, contact: Option<string>)

  /** The record as the dict the tools return. */
  function CandidateDict(c: Candidate): (d: map<string, Value>)
    ensures d.Keys == {"name", "title", "skills", "years_experience", "location", "contact"}
  {
    map["name" := Str(c.name), "title" := Str(c.title),
        "skills" := List(seq(|c.skills|, i requires 0 <= i < |c.skills| => Str(c.skills[i]))),
        "years_experience" := Int(c.years), "location" := Str(c.location),
        "contact" := match c.contact case Some(e) => Str(e) case None => Null]
  }

  const DB: seq<Candidate> := [
    Candidate("Alice Example", "ML Engineer", ["python", "ml", "tensorflow"], 4, "Paris", Some("alice@example.com")),
    Candidate("Bob Tester", "Senior Software Engineer", ["python", "docker", "aws"], 7, "Berlin", Some("bob@example.com")),
    Candidate("Carol Data", "Data Scientist", ["python", "pandas", "ml", "sql"], 5, "London", None),
    Candidate("Dan ML", "Machine Learning Engineer", ["python", "pytorch", "ml", "deployment"], 6, "Remote", Some("dan@example.com")),
    Candidate("Eve Infra", "DevOps Engineer", ["k8s", "docker", "terraform"], 4, "Barcelona", None)
  ]

  // ---------------------------------------------------------------- scoring

  /** The lower-cased "name title" text a token is looked up in. */
  function NameTitleText(c: Candidate): string {
    Py.LowerStr(c.name + " " + c.title)
  }

  /** The lower-cased space-joined skills a token is looked up in. */
  function SkillsText(c: Candidate): string {
    Py.LowerStr(Py.Join(" ", c.skills))
  }

  /** A token counts for a candidate when it occurs in either text. */
  predicate Hits(c: Candidate, t: string) {
    Py.Contains(NameTitleText(c), t) || Py.Contains(SkillsText(c), t)
  }

  /** The number of tokens that hit the candidate: no more than there are
      tokens, zero exactly when none hits and all of them exactly when every
      one does. */
  function Score(c: Candidate, tokens: seq<string>): (n: nat)
    ensures n <= |tokens|
    ensures n == 0 <==> forall i :: 0 <= i < |tokens| ==> !Hits(c, tokens[i])
    ensures n == |tokens| <==> forall i :: 0 <= i < |tokens| ==> Hits(c, tokens[i])
    decreases |tokens|
  {
    if |tokens| == 0 then 0
    else
      var init := tokens[..|tokens| - 1];
      assert forall i :: 0 <= i < |init| ==> init[i] == tokens[i];
      Score(c, init) + (if Hits(c, tokens[|tokens| - 1]) then 1 else 0)
  }

  /** `_score_candidate`. */
  method ScoreCandidate(c: Candidate, tokens: seq<string>) returns (score: nat)
    ensures score == Score(c, tokens)
  {
    var text := Py.LowerStr(c.name + " " + c.title);
    var skills := Py.LowerStr(Py.Join(" ", c.skills));
    score := 0;
    for i := 0 to |tokens|
      invariant score == Score(c, tokens[..i])
    {
      assert tokens[..i + 1][..i] == tokens[..i];
      if Py.Contains(text, tokens[i]) || Py.Contains(skills, tokens[i]) {
        score := score + 1;
      }
    }
    assert tokens[..|tokens|] == tokens;
  }

  /** The query's tokens: its whitespace-separated words, lower-cased. The
      words of `split()` are non-empty and hold no whitespace, so the
      `strip()` calls and the emptiness filter change nothing. */
  function Tokens(query: string): (ts: seq<string>)
    ensures |ts| == |Py.Split(query)|
    ensures forall i :: 0 <= i < |ts| ==> ts[i] == Py.LowerStr(Py.Split(query)[i]) && |ts[i]| > 0
  {
    var words := Py.Split(query);
    seq(|words|, i requires 0 <= i < |words| => Py.LowerStr(words[i]))
  }

  // ---------------------------------------------------------------- search

  /** A `(score, candidate)` pair of the search. */
  datatype Scored = Scored(score: nat, cand: Candidate)

  /** The sort key `(-score, -years_experience)`. */
  function ScoreKey(x: Scored): seq<int> {
    [-(x.score as int), -x.cand.years]
  }

  /** The candidates with a positive score, paired with it, in their order. */
  function ScoredMatches(cands: seq<Candidate>, tokens: seq<string>): seq<Scored>
    decreases |cands|
  {
    if |cands| == 0 then []
    else
      var c := cands[|cands| - 1];
      ScoredMatches(cands[..|cands| - 1], tokens) + (if Score(c, tokens) > 0 then [Scored(Score(c, tokens), c)] else [])
  }

  /** The matches after the stable sort by `ScoreKey`. */
  function RankedOf(cands: seq<Candidate>, tokens: seq<string>): seq<Scored> {
    StableSort.Sort(ScoredMatches(cands, tokens), ScoreKey, false)
  }

  function Cands(xs: seq<Scored>): (cs: seq<Candidate>)
    ensures |cs| == |xs| && forall i :: 0 <= i < |xs| ==> cs[i] == xs[i].cand
  {
    seq(|xs|, i requires 0 <= i < |xs| => xs[i].cand)
  }

  /** The search over `cands`: nothing for an empty query, otherwise the
      ranked matches up to `maxResults`. */
  function Search(cands: seq<Candidate>, query: string, maxResults: int): (r: seq<Candidate>)
    ensures query == "" ==> r == []
    ensures maxResults >= 0 ==> |r| <= maxResults
    ensures maxResults == 0 ==> r == []
  {
    if query == "" then [] else Py.Prefix(Cands(RankedOf(cands, Tokens(query))), maxResults)
  }

  /** What `linkedin_scraper(query, max_results)` returns. */
  function Scraped(query: string, maxResults: int): seq<Candidate> {
    Search(DB, query, maxResults)
  }

  /** `linkedin_scraper` for a string query and an integer bound. */
  method LinkedinScraper(query: string, maxResults: int) returns (r: seq<Candidate>)
    ensures r == Scraped(query, maxResults)
  {
    if query == "" {
      return [];
    }
    var tokens := Tokens(query);
    var scored: seq<Scored> := [];
    for i := 0 to |DB|
      invariant scored == ScoredMatches(DB[..i], tokens)
    {
      assert DB[..i + 1][..i] == DB[..i];
      var score := ScoreCandidate(DB[i], tokens);
      if score > 0 {
        scored := scored + [Scored(score, DB[i])];
      }
    }
    assert DB[..|DB|] == DB;
    scored := StableSort.Sort(scored, ScoreKey, false);
    r := Py.Prefix(Cands(scored), maxResults);
  }

  /** Each match carries its candidate's score, which is positive, and the
      candidate is one of those searched. */
  lemma {:induction false} ScoredMatchesSound(cands: seq<Candidate>, tokens: seq<string>, x: Scored)
    requires x in ScoredMatches(cands, tokens)
    ensures x.cand in cands && x.score == Score(x.cand, tokens) && x.score > 0
    decreases |cands|
  {
    var init := cands[..|cands| - 1];
    if x in ScoredMatches(init, tokens) {
      ScoredMatchesSound(init, tokens, x);
    }
  }

  /** Every searched candidate with a positive score is matched. */
  lemma {:induction false} ScoredMatchesComplete(cands: seq<Candidate>, tokens: seq<string>, c: Candidate)
    requires c in cands && Score(c, tokens) > 0
    ensures Scored(Score(c, tokens), c) in ScoredMatches(cands, tokens)
    decreases |cands|
  {
    var init := cands[..|cands| - 1];
    if c != cands[|cands| - 1] {
      assert c in init;
      ScoredMatchesComplete(init, tokens, c);
    }
  }

  /** Every ranked match is a searched candidate with its positive score. */
  lemma RankedSound(cands: seq<Candidate>, tokens: seq<string>, x: Scored)
    requires x in RankedOf(cands, tokens)
    ensures x.cand in cands && x.score == Score(x.cand, tokens) && x.score > 0
  {
    assert x in multiset(RankedOf(cands, tokens));
    ScoredMatchesSound(cands, tokens, x);
  }

  /** The search returns only searched candidates the query hits, and at
      most `maxResults` of them when that is not negative (a negative bound
      drops that many from the end, as a Python slice does). */
  lemma SearchSound(cands: seq<Candidate>, query: string, maxResults: int, c: Candidate)
    requires c in Search(cands, query, maxResults)
    ensures query != "" && c in cands && Score(c, Tokens(query)) > 0
    ensures maxResults >= 0 ==> |Search(cands, query, maxResults)| <= maxResults
  {
    assert query != "";
    var tokens := Tokens(query);
    var ranked := RankedOf(cands, tokens);
    var cs := Cands(ranked);
    var s := Py.Prefix(cs, maxResults);
    assert Search(cands, query, maxResults) == s;
    var k :| 0 <= k < |s| && s[k] == c;
    assert cs[k] == c;
    RankedSound(cands, tokens, ranked[k]);
  }

  /** Every searched candidate the tokens hit is among the ranked matches. */
  lemma RankedComplete(cands: seq<Candidate>, tokens: seq<string>, c: Candidate)
    requires c in cands && Score(c, tokens) > 0
    ensures Scored(Score(c, tokens), c) in RankedOf(cands, tokens)
  {
    ScoredMatchesComplete(cands, tokens, c);
    assert Scored(Score(c, tokens), c) in multiset(ScoredMatches(cands, tokens));
  }

  /** The key `(-s, -y)` orders by score descending, then years descending. */
  lemma NegatedKeyOrder(x: Scored, y: Scored)
    ensures StableSort.LexLe(ScoreKey(x), ScoreKey(y)) <==>
              x.score > y.score || (x.score == y.score && x.cand.years >= y.cand.years)
  {
    var a, b := ScoreKey(x), ScoreKey(y);
    assert a[1..] == [-x.cand.years] && b[1..] == [-y.cand.years];
    assert [-x.cand.years][1..] == [] && [-y.cand.years][1..] == [];
    assert StableSort.LexLe([], []);
    assert StableSort.LexLe(a[1..], b[1..]) <==> -x.cand.years <= -y.cand.years;
    assert StableSort.LexLe(a, b) <==> a[0] < b[0] || (a[0] == b[0] && StableSort.LexLe(a[1..], b[1..]));
  }

  /** The ranked matches go by score descending, then by years of experience
      descending. */
  lemma RankedOrder(cands: seq<Candidate>, tokens: seq<string>)
    ensures var r := RankedOf(cands, tokens);
            forall i, j :: 0 <= i < j < |r| ==>
              r[i].score > r[j].score || (r[i].score == r[j].score && r[i].cand.years >= r[j].cand.years)
  {
    var r := RankedOf(cands, tokens);
    StableSort.SortSorted(ScoredMatches(cands, tokens), ScoreKey, false);
    forall i, j | 0 <= i < j < |r|
      ensures r[i].score > r[j].score || (r[i].score == r[j].score && r[i].cand.years >= r[j].cand.years)
    {
      NegatedKeyOrder(r[i], r[j]);
    }
  }

  /** Ties keep the searched order: for every key, the matches that carry it
      are in the order `cands` lists them. */
  lemma RankedStable(cands: seq<Candidate>, tokens: seq<string>, k: seq<int>)
    ensures StableSort.WithKey(RankedOf(cands, tokens), ScoreKey, k) == StableSort.WithKey(ScoredMatches(cands, tokens), ScoreKey, k)
  {
    StableSort.SortStable(ScoredMatches(cands, tokens), ScoreKey, false, k);
  }

  const SPLIT_ERROR: string := "AttributeError: object has no " + "attribute 'split'"
  const SLICE_ERROR: string := "TypeError: slice indices must " + "be integers or None or have " + "an __index__ method"

  /** `linkedin_scraper(query, max_results)` called with arbitrary Python
      values, as the agent's tool call does: a falsy query returns [] before
      anything else, a truthy non-string one has no `split`, and the bound
      must be an integer or None. */
  function ScraperOnValues(query: Value, maxResults: Value): (r: Result<seq<Candidate>, string>)
    ensures !Truthy(query) ==> r == Success([])
    ensures query.Str? && maxResults.Int? ==> r == Success(Scraped(query.s, maxResults.i))
    ensures query.Str? && query.s != "" && maxResults.Null? ==> r == Success(Cands(RankedOf(DB, Tokens(query.s))))
    ensures query.Str? && maxResults.Bool? ==> r == Success(Scraped(query.s, if maxResults.b then 1 else 0))
    ensures Truthy(query) && !query.Str? ==> r.Failure?
    ensures query.Str? && query.s != "" && !(maxResults.Int? || maxResults.Bool? || maxResults.Null?) ==> r.Failure?
  {
    if !Truthy(query) then Success([])
    else if !query.Str? then Failure(SPLIT_ERROR)
    else
      match maxResults
      case Int(n) => Success(Scraped(query.s, n))
      case Bool(b) => Success(Scraped(query.s, if b then 1 else 0))
      case Null => Success(Cands(RankedOf(DB, Tokens(query.s))))
      case _ => Failure(SLICE_ERROR)
  }

  // ---------------------------------------------------------------- crawler

  /** `candidates_crawler(seed_urls, limit)`: the database up to `limit`; the
      seed URLs are ignored. */
  function CandidatesCrawler(limit: int): (r: seq<Candidate>)
    ensures r <= DB
    ensures limit >= 0 ==> |r| == Py.Min(limit, |DB|)
    ensures limit < 0 ==> |r| == Py.Max(0, |DB| + limit)
  {
    Py.Prefix(DB, limit)
  }

  // ---------------------------------------------------------------- embedder

  /** `len(v)`. */
  function Len(v: Value): (r: Result<nat, string>)
    ensures v.List? ==> r == Success(|v.items|)
    ensures v.Str? ==> r == Success(|v.s|)
    ensures v.Dict? ==> r == Success(|v.fields|)
    ensures r.Failure? <==> !(v.List? || v.Str? || v.Dict?)
  {
    match v
    case List(xs) => Success(|xs|)
    case Str(s) => Success(|s|)
    case Dict(m) => Success(|m|)
    case _ => Failure("TypeError: object has no len()")
  }

  /** `float(v)` for integers, booleans and strings of decimal digits. */
  function ToFloat(v: Value): Result<real, string> {
    match v
    case Int(i) => Success(i as real)
    case Bool(b) => Success(if b then 1.0 else 0.0)
    case Str(s) =>
      if |s| > 0 && Py.AllDigits(s) then Success(Py.ParseNat(s) as real)
      else Failure("ValueError: could not convert " + "string to float")
    case _ => Failure("TypeError: float() argument " + "must be a string or a real " + "number")
  }

  /** `[num_skills, years, has_contact]`. */
  datatype Vector3 = Vector3(numSkills: nat, years: real, hasContact: real)

  function EmbeddingOf(c: map<string, Value>): (r: Result<Vector3, string>)
    ensures r.Success? ==> r.value.hasContact == 0.0 || r.value.hasContact == 1.0
    ensures r.Success? ==> (r.value.hasContact == 1.0 <==> Truthy(Get(c, "contact", Null)))
    ensures r.Success? <==> Len(Get(c, "skills", List([]))).Success? && ToFloat(Get(c, "years_experience", Int(0))).Success?
  {
    var n :- Len(Get(c, "skills", List([])));
    var y :- ToFloat(Get(c, "years_experience", Int(0)));
    Success(Vector3(n, y, if Truthy(Get(c, "contact", Null)) then 1.0 else 0.0))
  }

  /** On a database record the embedding is its skill count, its years and
      whether it has a contact. */
  lemma EmbeddingOfRecord(c: Candidate)
    ensures EmbeddingOf(CandidateDict(c)) ==
              Success(Vector3(|c.skills|, c.years as real, if c.contact.Some? && c.contact.value != "" then 1.0 else 0.0))
  {
    var d := CandidateDict(c);
    assert Get(d, "skills", List([])) == d["skills"];
    assert Get(d, "years_experience", Int(0)) == Int(c.years);
  }

  /** `candidates_embedder`: one vector per candidate, in order; the first
      candidate whose skills have no length or whose years are no number
      raises. */
  method CandidatesEmbedder(cands: seq<map<string, Value>>) returns (r: Result<seq<Vector3>, string>)
    ensures r.Success? <==> forall i :: 0 <= i < |cands| ==> EmbeddingOf(cands[i]).Success?
    ensures r.Success? ==> |r.value| == |cands| && forall i :: 0 <= i < |cands| ==> r.value[i] == EmbeddingOf(cands[i]).value
    ensures r.Failure? ==> exists i :: 0 <= i < |cands| && EmbeddingOf(cands[i]).Failure? && r.error == EmbeddingOf(cands[i]).error &&
                                       forall j :: 0 <= j < i ==> EmbeddingOf(cands[j]).Success?
  {
    var embeddings: seq<Vector3> := [];
    for i := 0 to |cands|
      invariant |embeddings| == i
      invariant forall j :: 0 <= j < i ==> EmbeddingOf(cands[j]).Success? && embeddings[j] == EmbeddingOf(cands[j]).value
    {
      var c := cands[i];
      var numSkills := Len(Get(c, "skills", List([])));
      if numSkills.Failure? {
        return Failure(numSkills.error);
      }
      var years := ToFloat(Get(c, "years_experience", Int(0)));
      if years.Failure? {
        return Failure(years.error);
      }
      var hasContact := if Truthy(Get(c, "contact", Null)) then 1.0 else 0.0;
      embeddings := embeddings + [Vector3(numSkills.value, years.value, hasContact)];
    }
    return Success(embeddings);
  }

  // ---------------------------------------------------------------- questions

  const FILLER_QUESTION: string := "How do you approach learning " + "a new technology or tool?"

  function Opener(title: string): string {
    ("Tell me about your most " + "impactful project as a ") + title + "."
  }

  function SkillQuestion(skill: string): string {
    ("Describe a challenge you " + "solved using ") + skill + " and what you learned."
  }

  /** `v[:k]` for `k >= 0`, as the items a `for` loop sees: a list gives its
      elements and a string its characters; a dict or a scalar raises. */
  function SliceItems(v: Value, k: nat): (r: Result<seq<Value>, string>)
    ensures r.Success? <==> v.List? || v.Str?
    ensures r.Success? ==> |r.value| == Py.Min(k, if v.List? then |v.items| else |v.s|)
    ensures v.List? ==> r == Success(Py.Prefix(v.items, k))
  {
    match v
    case List(xs) => Success(Py.Prefix(xs, k))
    case Str(s) =>
      var p := Py.Prefix(s, k);
      Success(seq(|p|, i requires 0 <= i < |p| => Str([p[i]])))
    case Dict(_) => Failure("TypeError: unhashable type: " + "'slice'")
    case _ => Failure("TypeError: object is not " + "subscriptable")
  }

  /** `interview_question_generator(candidate, num_questions)`: exactly
      `max(0, num_questions)` questions; the title opener first, then one
      question for each of at most `num_questions - 2` skills, then the
      filler question. */
  method InterviewQuestionGenerator(h: Host, candidate: map<string, Value>, numQuestions: int) returns (r: Result<seq<string>, string>)
    ensures r.Success? <==> SliceItems(Get(candidate, "skills", List([])), Py.Max(0, numQuestions - 2)).Success?
    ensures r.Success? ==> |r.value| == Py.Max(0, numQuestions)
    ensures r.Success? && numQuestions >= 1 ==> r.value[0] == Opener(Format(h, Get(candidate, "title", Str("Candidate"))))
    ensures r.Success? ==>
              var items := SliceItems(Get(candidate, "skills", List([])), Py.Max(0, numQuestions - 2)).value;
              |items| <= Py.Max(0, numQuestions - 2) &&
              (forall i :: 1 <= i < |r.value| && i <= |items| ==> r.value[i] == SkillQuestion(Format(h, items[i - 1]))) &&
              (forall i :: 1 + |items| <= i < |r.value| ==> r.value[i] == FILLER_QUESTION)
  {
    var skills := Get(candidate, "skills", List([]));
    var title := Get(candidate, "title", Str("Candidate"));
    var questions := [Opener(Format(h, title))];
    var sliced := SliceItems(skills, Py.Max(0, numQuestions - 2));
    if sliced.Failure? {
      return Failure(sliced.error);
    }
    var items := sliced.value;
    for i := 0 to |items|
      invariant |questions| == 1 + i
      invariant questions[0] == Opener(Format(h, title))
      invariant forall j :: 1 <= j <= i ==> questions[j] == SkillQuestion(Format(h, items[j - 1]))
    {
      questions := questions + [SkillQuestion(Format(h, items[i]))];
    }
    while |questions| < numQuestions
      invariant |questions| >= 1 + |items|
      invariant |questions| == 1 + |items| || |questions| <= numQuestions
      invariant questions[0] == Opener(Format(h, title))
      invariant forall j :: 1 <= j <= |items| ==> questions[j] == SkillQuestion(Format(h, items[j - 1]))
      invariant forall j :: 1 + |items| <= j < |questions| ==> questions[j] == FILLER_QUESTION
      decreases numQuestions - |questions|
    {
      questions := questions + [FILLER_QUESTION];
    }
    if numQuestions >= 1 {
      assert |questions| == numQuestions;
    } else {
      assert |items| == 0 && |questions| == 1;
    }
    return Success(Py.Prefix(questions, numQuestions));
  }

  // ---------------------------------------------------------------- final answer

  function NullRecord(): map<string, Value> {
    map["name" := Null, "title" := Null]
  }

  /** A parsed item as a dict: dicts stay, a list or tuple gives its first two
      entries as name and title (None where missing), anything else gives
      None for both. */
  function Coerce(item: Value): (c: map<string, Value>)
    ensures item.Dict? ==> c == item.fields
    ensures !item.Dict? ==> c.Keys == {"name", "title"}
    ensures item.List? && |item.items| >= 2 ==> c == map["name" := item.items[0], "title" := item.items[1]]
  {
    match item
    case Dict(m) => m
    case List(xs) => map["name" := (if |xs| > 0 then xs[0] else Null), "title" := (if |xs| > 1 then xs[1] else Null)]
    case _ => NullRecord()
  }

  /** The normalised input: a string is tried as JSON, then as a Python
      literal, and is otherwise []; a list is taken as it is; anything else
      is []. */
  function ParseCandidates(h: Host, candidates: Value): (parsed: Value)
    ensures candidates.List? ==> parsed == candidates
    ensures !candidates.List? && !candidates.Str? ==> parsed == List([])
    ensures candidates.Str? && h.loads(candidates.s).Success? ==> parsed == h.loads(candidates.s).value
    ensures candidates.Str? && h.loads(candidates.s).Failure? && h.literalEval(candidates.s).Success? ==>
              parsed == h.literalEval(candidates.s).value
    ensures candidates.Str? && h.loads(candidates.s).Failure? && h.literalEval(candidates.s).Failure? ==> parsed == List([])
  {
    match candidates
    case Str(s) =>
      (match h.loads(s)
       case Success(v) => v
       case Failure(_) =>
         match h.literalEval(s)
         case Success(v) => v
         case Failure(_) => List([]))
    case List(_) => candidates
    case _ => List([])
  }

  /** The items `for item in parsed` visits. A dict is iterated over its keys;
      key order is not modelled, and as every key is a string, which the
      coercion turns into the same record, each key is represented by an
      empty string here. Iterating anything other than a list, a string or a
      dict raises. */
  function Iteration(parsed: Value): (r: Result<seq<Value>, string>)
    ensures r.Success? <==> parsed.List? || parsed.Str? || parsed.Dict?
    ensures parsed.List? ==> r == Success(parsed.items)
    ensures r.Success? ==> |r.value| == if parsed.List? then |parsed.items| else if parsed.Str? then |parsed.s| else |parsed.fields|
  {
    match parsed
    case List(xs) => Success(xs)
    case Str(s) => Success(seq(|s|, i requires 0 <= i < |s| => Str([s[i]])))
    case Dict(m) => Success(seq(|m|, _ => Str("")))
    case _ => Failure("TypeError: object is not " + "iterable")
  }

  /** The third component of the rank key, `c.get("years_experience", 0)`. */
  function Years(c: map<string, Value>): Value {
    Get(c, "years_experience", Int(0))
  }

  /** What Python's `<` can order a years value against: a number (an
      integer or a boolean) against numbers, a string against strings, and
      None, a list or a dict only against an equal value. */
  datatype YearsKind = Number | Text | Only(v: Value)

  function KindOf(v: Value): YearsKind {
    match v
    case Int(_) => Number
    case Bool(_) => Number
    case Str(_) => Text
    case _ => Only(v)
  }

  /** A number as an integer (`True` is 1). */
  function NumberOf(v: Value): int {
    match v
    case Int(i) => i
    case Bool(b) => if b then 1 else 0
    case _ => 0
  }

  /** Python's `a <= b` on two years values of the same kind. */
  predicate YearsLe(a: Value, b: Value)
    requires KindOf(a) == KindOf(b)
  {
    match KindOf(a)
    case Number => NumberOf(a) <= NumberOf(b)
    case Text => Py.StrLe(a.s, b.s)
    case Only(_) => true
  }

  /** The years as integer rank-key components: a number as itself, a
      string as its code points, and any other value (compared only with an
      equal one) as nothing. */
  function YearsCode(v: Value): seq<int> {
    match v
    case Int(i) => [i]
    case Bool(b) => [if b then 1 else 0]
    case Str(s) => seq(|s|, i requires 0 <= i < |s| => s[i] as int)
    case _ => []
  }

  /** `rank_key(c)`: (number of skills, 1 if a truthy contact else 0, years),
      the years written out by `YearsCode`. Only `len` can raise while the
      key is built. */
  function RankKey(c: map<string, Value>): (r: Result<seq<int>, string>)
    ensures r.Success? <==> Len(Get(c, "skills", List([]))).Success?
    ensures r.Success? ==> |r.value| >= 2 && r.value[0] == Len(Get(c, "skills", List([]))).value
    ensures r.Success? ==> r.value[1] == (if Truthy(Get(c, "contact", Null)) then 1 else 0)
    ensures r.Success? ==> r.value[2..] == YearsCode(Years(c))
  {
    var n :- Len(Get(c, "skills", List([])));
    Success([n, if Truthy(Get(c, "contact", Null)) then 1 else 0] + YearsCode(Years(c)))
  }

  /** The rank key as a total function; it is only used once every record's
      key has been computed. */
  function KeyOf(c: map<string, Value>): seq<int> {
    match RankKey(c)
    case Success(k) => k
    case Failure(_) => []
  }

  /** Computing the keys of all records: the first failure raises. */
  function CheckKeys(cs: seq<map<string, Value>>): (r: Result<bool, string>)
    ensures r.Success? <==> forall i :: 0 <= i < |cs| ==> RankKey(cs[i]).Success?
    decreases |cs|
  {
    if |cs| == 0 then Success(true)
    else if RankKey(cs[0]).Failure? then Failure(RankKey(cs[0]).error)
    else
      assert forall i :: 1 <= i < |cs| ==> cs[i] == cs[1..][i - 1];
      CheckKeys(cs[1..])
  }

  /** Two computed keys agree on their first two components, so comparing
      them reaches the years. */
  predicate Tie(c: map<string, Value>, d: map<string, Value>) {
    RankKey(c).Success? && RankKey(d).Success? &&
    RankKey(c).value[0] == RankKey(d).value[0] && RankKey(c).value[1] == RankKey(d).value[1]
  }

  /** No two tied records have years that Python cannot compare. */
  predicate Orderable(cs: seq<map<string, Value>>) {
    forall c, d :: c in cs && d in cs && Tie(c, d) ==> KindOf(Years(c)) == KindOf(Years(d))
  }

  const COMPARE_ERROR: string := "TypeError: '<' not supported " + "between instances"

  /** Python's `rank_key(c) <= rank_key(d)` on tuples, for two records whose
      comparison does not raise. */
  predicate RankLe(c: map<string, Value>, d: map<string, Value>)
    requires RankKey(c).Success? && RankKey(d).Success?
    requires Tie(c, d) ==> KindOf(Years(c)) == KindOf(Years(d))
  {
    var p := RankKey(c).value;
    var q := RankKey(d).value;
    p[0] < q[0] || (p[0] == q[0] && (p[1] < q[1] || (p[1] == q[1] && YearsLe(Years(c), Years(d)))))
  }

  /** The code points of a string. */
  lemma {:induction false} TextCodeOrder(s: string, t: string)
    ensures StableSort.LexLe(YearsCode(Str(s)), YearsCode(Str(t))) <==> Py.StrLe(s, t)
    decreases |s|
  {
    var a, b := YearsCode(Str(s)), YearsCode(Str(t));
    if |s| > 0 && |t| > 0 {
      assert a[0] == s[0] as int && b[0] == t[0] as int;
      assert a[1..] == YearsCode(Str(s[1..]));
      assert b[1..] == YearsCode(Str(t[1..]));
      TextCodeOrder(s[1..], t[1..]);
    }
  }

  /** On two years of the same kind, the code order is Python's order. */
  lemma YearsCodeOrder(x: Value, y: Value)
    requires KindOf(x) == KindOf(y)
    ensures StableSort.LexLe(YearsCode(x), YearsCode(y)) <==> YearsLe(x, y)
  {
    match KindOf(x)
    case Number =>
      assert YearsCode(x) == [NumberOf(x)] && YearsCode(y) == [NumberOf(y)];
      assert StableSort.LexLe([], []);
    case Text =>
      TextCodeOrder(x.s, y.s);
    case Only(_) =>
  }

  /** The integer key orders two records as Python orders their rank-key
      tuples. */
  lemma KeyOfOrder(c: map<string, Value>, d: map<string, Value>)
    requires RankKey(c).Success? && RankKey(d).Success?
    requires Tie(c, d) ==> KindOf(Years(c)) == KindOf(Years(d))
    ensures StableSort.LexLe(KeyOf(c), KeyOf(d)) <==> RankLe(c, d)
  {
    var p, q := KeyOf(c), KeyOf(d);
    assert p[1..][1..] == p[2..] && q[1..][1..] == q[2..];
    if Tie(c, d) {
      YearsCodeOrder(Years(c), Years(d));
    }
  }

  /** `f"Matches skills: {', '.join(c.get('skills', [])[:3])}."`. */
  function Rationale(skills: Value): Result<string, string> {
    match skills
    case List(xs) =>
      var first := Py.Prefix(xs, 3);
      if forall i :: 0 <= i < |first| ==> first[i].Str? then
        Success("Matches skills: " + Py.Join(", ", seq(|first|, i requires 0 <= i < |first| && first[i].Str? => first[i].s)) + ".")
      else Failure("TypeError: sequence item: " + "expected str instance")
    case Str(s) =>
      var first := Py.Prefix(s, 3);
      Success("Matches skills: " + Py.Join(", ", seq(|first|, i requires 0 <= i < |first| => [first[i]])) + ".")
    case _ => Failure("TypeError: unhashable type: " + "'slice'")
  }

  /** The summary record of one ranked candidate. */
  function Record(c: map<string, Value>): (r: Result<Value, string>)
    ensures r.Success? <==> Rationale(Get(c, "skills", List([]))).Success?
    ensures r.Success? ==> (r.value.Dict? &&
              r.value.fields.Keys == {"name", "title", "skills", "years_experience", "location", "contact", "rationale"} &&
              r.value.fields["name"] == Get(c, "name", Null) && r.value.fields["title"] == Get(c, "title", Null) &&
              r.value.fields["contact"] == Get(c, "contact", Null))
  {
    var why :- Rationale(Get(c, "skills", List([])));
    Success(Dict(map[
      "name" := Get(c, "name", Null),
      "title" := Get(c, "title", Null),
      "skills" := Get(c, "skills", List([])),
      "years_experience" := Get(c, "years_experience", Null),
      "location" := Get(c, "location", Null),
      "contact" := Get(c, "contact", Null),
      "rationale" := Str(why)]))
  }

  function Records(cs: seq<map<string, Value>>): (r: Result<seq<Value>, string>)
    ensures r.Success? <==> forall i :: 0 <= i < |cs| ==> Record(cs[i]).Success?
    ensures r.Success? ==> |r.value| == |cs| && forall i :: 0 <= i < |cs| ==> r.value[i] == Record(cs[i]).value
  {
    MapAll(Record, cs)
  }

  const OUTREACH_TEMPLATE: string :=
    "Hi {name},\n\nI came across " + "your profile and think you'd " + "be a great fit for {role}. " +
    "Would you be open to a quick " + "call to discuss?\n\nBest regards"
  const INTRO_QUESTION: string := "Intro: walk me through your " + "background."
  const ROLE_FIT_QUESTION: string := "Role fit: technical challenge " + "related to key skills."
  const BEHAVIORAL_QUESTION: string := "Behavioral: teamwork/conflict " + "resolution."

  /** The fixed suggestions of every answer. */
  function NextSteps(): Value {
    Dict(map[
      "outreach_template" := Str(OUTREACH_TEMPLATE),
      "interview_questions" := List([Str(INTRO_QUESTION), Str(ROLE_FIT_QUESTION), Str(BEHAVIORAL_QUESTION)])])
  }

  /** The records of the input, each item giving exactly one. */
  function Normalized(h: Host, candidates: Value): (r: Result<seq<map<string, Value>>, string>)
    ensures r.Success? <==> Iteration(ParseCandidates(h, candidates)).Success?
    ensures r.Success? ==> |r.value| == |Iteration(ParseCandidates(h, candidates)).value|
    ensures r.Success? ==> forall i :: 0 <= i < |r.value| ==> r.value[i] == Coerce(Iteration(ParseCandidates(h, candidates)).value[i])
  {
    var items :- Iteration(ParseCandidates(h, candidates));
    Success(seq(|items|, i requires 0 <= i < |items| => Coerce(items[i])))
  }

  /** The returned dict. */
  function Answer(h: Host, recs: seq<Value>, role: Value): (v: Value)
    ensures v.Dict? && v.fields.Keys == {"candidates", "next_steps", "notes"}
    ensures v.fields["candidates"] == List(recs) && v.fields["next_steps"] == NextSteps()
    ensures v.fields["notes"] == Str("Searched for " + Format(h, role) + ".")
  {
    Dict(map[
      "candidates" := List(recs),
      "next_steps" := NextSteps(),
      "notes" := Str("Searched for " + Format(h, role) + ".")])
  }

  /** Ranking and summarising the normalised records. */
  function Summarise(h: Host, norm: seq<map<string, Value>>, role: Value): Result<Value, string> {
    var ok :- CheckKeys(norm);
    if !Orderable(norm) then Failure(COMPARE_ERROR) else Summary(h, StableSort.Sort(norm, KeyOf, true), role)
  }

  /** The answer for the ranked records. */
  function Summary(h: Host, ranked: seq<map<string, Value>>, role: Value): Result<Value, string> {
    var recs :- Records(ranked);
    Success(Answer(h, recs, role))
  }

  /** What `final_answer(candidates, role)` returns. */
  function FinalAnswerOf(h: Host, candidates: Value, role: Value): (r: Result<Value, string>)
    ensures Normalized(h, candidates).Failure? ==> r == Failure(Normalized(h, candidates).error)
    ensures r.Success? ==>
              r.value.Dict? && r.value.fields.Keys == {"candidates", "next_steps", "notes"} &&
              r.value.fields["next_steps"] == NextSteps() &&
              r.value.fields["notes"] == Str("Searched for " + Format(h, role) + ".")
    ensures r.Success? ==>
              r.value.fields["candidates"].List? &&
              |r.value.fields["candidates"].items| == |Normalized(h, candidates).value|
  {
    var norm :- Normalized(h, candidates);
    Summarise(h, norm, role)
  }

  /** `final_answer`: normalise the input item by item, rank, summarise. */
  method FinalAnswer(h: Host, candidates: Value, role: Value) returns (r: Result<Value, string>)
    ensures r == FinalAnswerOf(h, candidates, role)
  {
    var parsed := ParseCandidates(h, candidates);
    var iteration := Iteration(parsed);
    if iteration.Failure? {
      return Failure(iteration.error);
    }
    var items := iteration.value;
    var norm: seq<map<string, Value>> := [];
    for i := 0 to |items|
      invariant norm == seq(i, j requires 0 <= j < i => Coerce(items[j]))
    {
      norm := norm + [Coerce(items[i])];
    }
    assert Normalized(h, candidates) == Success(norm);
    r := Summarising(h, norm, role);
  }

  /** The ranking and summary half of `final_answer`. */
  method Summarising(h: Host, norm: seq<map<string, Value>>, role: Value) returns (r: Result<Value, string>)
    ensures r == Summarise(h, norm, role)
  {
    var keys := CheckKeys(norm);
    if keys.Failure? {
      return Failure(keys.error);
    }
    if !Orderable(norm) {
      return Failure(COMPARE_ERROR);
    }
    var ranked := StableSort.Sort(norm, KeyOf, true);
    var recs := BuildRecords(ranked);
    if recs.Failure? {
      return Failure(recs.error);
    }
    r := Success(Answer(h, recs.value, role));
  }

  /** The per-candidate loop of `final_answer`: one record per ranked
      candidate, the first that cannot be built raising. */
  method BuildRecords(ranked: seq<map<string, Value>>) returns (r: Result<seq<Value>, string>)
    ensures r == Records(ranked)
  {
    var recs: seq<Value> := [];
    for i := 0 to |ranked|
      invariant |recs| == i
      invariant forall j :: 0 <= j < i ==> Record(ranked[j]).Success? && recs[j] == Record(ranked[j]).value
    {
      var rec := Record(ranked[i]);
      if rec.Failure? {
        FirstRecordFailure(ranked, i);
        return Failure(rec.error);
      }
      recs := recs + [rec.value];
    }
    RecordsAllBuilt(ranked, recs);
    r := Success(recs);
  }

  /** When every record builds, building them all gives exactly those. */
  lemma RecordsAllBuilt(cs: seq<map<string, Value>>, recs: seq<Value>)
    requires |recs| == |cs|
    requires forall j :: 0 <= j < |cs| ==> Record(cs[j]).Success? && recs[j] == Record(cs[j]).value
    ensures Records(cs) == Success(recs)
  {
    MapAllBuilt(Record, cs, recs);
  }

  /** When every record before `i` builds and record `i` does not, building
      them all fails with record `i`'s error. */
  lemma FirstRecordFailure(cs: seq<map<string, Value>>, i: nat)
    requires i < |cs| && Record(cs[i]).Failure?
    requires forall j :: 0 <= j < i ==> Record(cs[j]).Success?
    ensures Records(cs) == Failure(Record(cs[i]).error)
  {
    MapAllFirstFailure(Record, cs, i);
  }

  /** The records are ranked by `rank_key`, highest first, records with
      equal keys in input order, and none is lost or added. */
  lemma RankKeyOrder(norm: seq<map<string, Value>>)
    ensures var ranked := StableSort.Sort(norm, KeyOf, true);
            multiset(ranked) == multiset(norm) &&
            (forall i, j :: 0 <= i < j < |ranked| ==> StableSort.LexLe(KeyOf(ranked[j]), KeyOf(ranked[i]))) &&
            (forall k :: StableSort.WithKey(ranked, KeyOf, k) == StableSort.WithKey(norm, KeyOf, k))
  {
    StableSort.SortSorted(norm, KeyOf, true);
    forall k {
      StableSort.SortStable(norm, KeyOf, true, k);
    }
  }

  /** `rank_key(c) <= rank_key(d)` holds in Python and does not raise. */
  predicate TupleLe(c: map<string, Value>, d: map<string, Value>) {
    RankKey(c).Success? && RankKey(d).Success? &&
    (Tie(c, d) ==> KindOf(Years(c)) == KindOf(Years(d))) &&
    RankLe(c, d)
  }

  /** One pair of an orderable list, ordered by the integer key. */
  lemma OrderablePair(norm: seq<map<string, Value>>, c: map<string, Value>, d: map<string, Value>)
    requires CheckKeys(norm).Success? && Orderable(norm)
    requires c in norm && d in norm && StableSort.LexLe(KeyOf(c), KeyOf(d))
    ensures TupleLe(c, d)
  {
    KeyOfOrder(c, d);
  }

  /** When the keys are computed and no tie reaches incomparable years,
      the ranking is descending in Python's order of the rank-key tuples. */
  lemma RankedByTuple(norm: seq<map<string, Value>>)
    requires CheckKeys(norm).Success? && Orderable(norm)
    ensures var ranked := StableSort.Sort(norm, KeyOf, true);
            forall i, j :: 0 <= i < j < |ranked| ==> TupleLe(ranked[j], ranked[i])
  {
    var ranked := StableSort.Sort(norm, KeyOf, true);
    RankKeyOrder(norm);
    forall i, j | 0 <= i < j < |ranked|
      ensures TupleLe(ranked[j], ranked[i])
    {
      assert ranked[i] in multiset(norm) && ranked[j] in multiset(norm);
      OrderablePair(norm, ranked[j], ranked[i]);
    }
  }

  /** A tie between years of different kinds is not orderable. */
  lemma IncomparableTie(norm: seq<map<string, Value>>, i: nat, j: nat)
    requires i < |norm| && j < |norm| && Tie(norm[i], norm[j])
    requires KindOf(Years(norm[i])) != KindOf(Years(norm[j]))
    ensures !Orderable(norm)
  {
    var c, d := norm[i], norm[j];
    assert c in norm && d in norm;
  }

  /** Two tied records whose years Python cannot compare make the ranking
      raise, once every key is computed. */
  lemma IncomparableTieRaises(h: Host, norm: seq<map<string, Value>>, role: Value, i: nat, j: nat)
    requires CheckKeys(norm).Success?
    requires i < |norm| && j < |norm| && Tie(norm[i], norm[j])
    requires KindOf(Years(norm[i])) != KindOf(Years(norm[j]))
    ensures Summarise(h, norm, role) == Failure(COMPARE_ERROR)
  {
    IncomparableTie(norm, i, j);
    UnorderableRaises(h, norm, role);
  }

  /** Sorting raises on a list that is not orderable. */
  lemma UnorderableRaises(h: Host, norm: seq<map<string, Value>>, role: Value)
    requires CheckKeys(norm).Success? && !Orderable(norm)
    ensures Summarise(h, norm, role) == Failure(COMPARE_ERROR)
  {
  }

  /** Integer or boolean years never make the ranking raise. */
  lemma NumberYearsOrderable(norm: seq<map<string, Value>>)
    requires forall i :: 0 <= i < |norm| ==> Years(norm[i]).Int? || Years(norm[i]).Bool?
    ensures Orderable(norm)
  {
    forall c, d | c in norm && d in norm
      ensures KindOf(Years(c)) == Number && KindOf(Years(d)) == Number
    {
    }
  }

  /** A single record is never compared: whatever its years, the answer
      lists its summary alone. */
  lemma SingleRecordRanks(h: Host, c: map<string, Value>, role: Value)
    requires RankKey(c).Success? && Record(c).Success?
    ensures Summarise(h, [c], role) == Success(Answer(h, [Record(c).value], role))
  {
    assert CheckKeys([c]).Success?;
    assert Orderable([c]);
    assert StableSort.Sort([c], KeyOf, true) == [c];
    RecordsAllBuilt([c], [Record(c).value]);
  }

  /** So even None for the years of a lone record gives an answer. */
  lemma SingleNullYearsRanks(h: Host, role: Value)
    ensures var c := map["name" := Str("A"), "years_experience" := Null];
            var v := Summarise(h, [c], role);
            v.Success? && v.value.fields["candidates"] == List([Record(c).value]) &&
            Record(c).value.fields["name"] == Str("A")
  {
    var c := map["name" := Str("A"), "years_experience" := Null];
    assert Rationale(List([])).Success?;
    SingleRecordRanks(h, c, role);
  }

  /** A successful summary lists one record per ranked candidate, in ranked
      order, with the fixed next steps and the note naming the role. */
  lemma SummariseRecords(h: Host, norm: seq<map<string, Value>>, role: Value)
    requires Summarise(h, norm, role).Success?
    ensures var ranked := StableSort.Sort(norm, KeyOf, true);
            var v := Summarise(h, norm, role).value;
            v.Dict? && "candidates" in v.fields && "next_steps" in v.fields &&
            v.fields["next_steps"] == NextSteps() && v.fields["candidates"].List? &&
            |v.fields["candidates"].items| == |ranked| &&
            forall i :: 0 <= i < |ranked| ==> Record(ranked[i]).Success? && v.fields["candidates"].items[i] == Record(ranked[i]).value
  {
    var ranked := StableSort.Sort(norm, KeyOf, true);
    var recs := Records(ranked);
    assert recs.Success?;
    assert Summarise(h, norm, role).value == Answer(h, recs.value, role);
  }

  /** A string that neither parser accepts, and any input that is neither a
      string nor a list, is treated as the empty list. */
  lemma FinalAnswerFallsBackToEmpty(h: Host, candidates: Value, role: Value)
    requires !candidates.List?
    requires candidates.Str? ==> h.loads(candidates.s).Failure? && h.literalEval(candidates.s).Failure?
    ensures FinalAnswerOf(h, candidates, role) == Success(Dict(map[
              "candidates" := List([]),
              "next_steps" := NextSteps(),
              "notes" := Str("Searched for " + Format(h, role) + ".")]))
  {
    assert ParseCandidates(h, candidates) == List([]);
    assert Normalized(h, candidates).value == [];
    assert StableSort.Sort([], KeyOf, true) == [];
  }

  /** A list passed as its JSON text gives the same answer as the list. */
  lemma FinalAnswerOfJsonText(h: Host, xs: seq<Value>, role: Value)
    requires JsonRoundTrips(h)
    ensures FinalAnswerOf(h, Str(h.dumps(List(xs))), role) == FinalAnswerOf(h, List(xs), role)
  {
    assert h.loads(h.dumps(List(xs))) == Success(List(xs));
    assert ParseCandidates(h, Str(h.dumps(List(xs)))) == List(xs);
  }

  // ---------------------------------------------------------------- schemas

  const SCRAPER_DOC: string :=
    "Return up to `max_results` " + "candidates matching the query " + "using\n        simple " +
    "substring matching over title " + "and skills.\n        "

  const FINAL_ANSWER_DOC: string :=
    "Synthesize a compact " + "human-facing final " + "answer.\n\n        Ranks " + "candidates by simple " +
    "heuristics and returns a " + "structured dict\n        " + "containing short summaries " +
    "and suggested next " + "steps.\n        The " + "`candidates` argument may be " +
    "a list, or a string (JSON or " + "Python repr).\n        "

  /** `linkedin_scraper(query: str, max_results: int = 5)`. */
  const SCRAPER_SIGNATURE: Schema.Signature := Schema.Signature("linkedin_scraper", Some(SCRAPER_DOC), [
    Schema.Param("query", Schema.PositionalOrKeyword, Some(Schema.StrType), None),
    Schema.Param("max_results", Schema.PositionalOrKeyword, Some(Schema.IntType), Some(Int(5)))])

  /** `final_answer(candidates: list, role: str = "the role")`; the bare
      `list` annotation has no origin. */
  const FINAL_ANSWER_SIGNATURE: Schema.Signature := Schema.Signature("final_answer", Some(FINAL_ANSWER_DOC), [
    Schema.Param("candidates", Schema.PositionalOrKeyword, Some(Schema.Other), None),
    Schema.Param("role", Schema.PositionalOrKeyword, Some(Schema.StrType), Some(Str("the role")))])

  /** The keyword binding of the two tools the agent can call. */
  const SCRAPER_FORMALS: seq<Formal> := [Formal("query", None), Formal("max_results", Some(Int(5)))]
  const FINAL_ANSWER_FORMALS: seq<Formal> := [Formal("candidates", None), Formal("role", Some(Str("the role")))]
}
