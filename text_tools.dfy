/** The string tools that self_mcp_server/mcp_server_all.py,
    ollama_recruiter/tools_separate.py and weather/weather.py each define
    alike (`count_characters`, `get_first_half`), and the offline early
    returns of `candidate_search` and `extract_profiles` as
    ollama_recruiter/tools_separate.py writes them. */
module TextTools {
  import ChatTools

  /** `count_characters(input_str)`. */
  function CountCharacters(s: string): (n: nat)
    ensures n == |s|
  {
    |s|
  }

  /** `get_first_half(input_str)`: the prefix cut at `len // 2`. */
  function FirstHalf(s: string): (r: string)
    ensures r <= s
    ensures 2 * |r| <= |s| <= 2 * |r| + 1
  {
    s[..|s| / 2]
  }

  /** An odd-length string is its first half, the middle character, then
      a rest as long as the first half: the middle is not in the result. */
  lemma OddMiddleExcluded(s: string)
    requires |s| % 2 == 1
    ensures var r := FirstHalf(s);
            |s| == 2 * |r| + 1 && s == r + [s[|r|]] + s[|r| + 1..] && |s[|r| + 1..]| == |r|
  {
    var r := FirstHalf(s);
    assert s == s[..|r|] + [s[|r|]] + s[|r| + 1..];
  }

  /** An even-length string is its first half twice as long. */
  lemma EvenHalves(s: string)
    requires |s| % 2 == 0
    ensures var r := FirstHalf(s); 2 * CountCharacters(r) == CountCharacters(s) && s == r + s[|r|..]
  {
    var r := FirstHalf(s);
    assert s == s[..|r|] + s[|r|..];
  }

  /** Halving again keeps a prefix of the first half. */
  lemma HalfOfHalf(s: string)
    ensures FirstHalf(FirstHalf(s)) <= FirstHalf(s) <= s
    ensures 4 * CountCharacters(FirstHalf(FirstHalf(s))) <= CountCharacters(s)
  {
  }

  /** The values the self-test of mcp_server_all.py prints. */
  lemma SelfTests()
    ensures CountCharacters("abc") == 3
    ensures FirstHalf("abcdef") == "abc"
  {
    assert "abcdef"[..3] == "abc";
  }

  /** The two links `candidate_search` returns offline in test mode. */
  const TEST_LINKS: seq<string> := [
    "https://www.linkedin.com/in/sa" + "ber-chadded-36552b192/",
    "https://www.linkedin.com/in/gu" + "esmi-wejden-5269222aa/"]

  /** `candidate_search(query, num_candidates, test_mode_extract)`, given
      whether `requests` imports, the module's fallback links and the remote
      search it calls otherwise. */
  function CandidateSearch(query: string, numCandidates: int, testModeExtract: bool, haveRequests: bool,
                           fallbackLinks: seq<string>, remote: (string, int, bool) -> seq<string>): (r: seq<string>)
    ensures !haveRequests && testModeExtract ==> r == TEST_LINKS
    ensures !haveRequests && !testModeExtract ==> r == fallbackLinks
    ensures haveRequests ==> r == remote(query, numCandidates, testModeExtract)
  {
    if !haveRequests then (if testModeExtract then TEST_LINKS else fallbackLinks)
    else remote(query, numCandidates, testModeExtract)
  }

  /** The offline test-mode links are the first two of the canned search
      links of the chat front end. */
  lemma TestLinksAreCannedPrefix(query: string, numCandidates: int, fallbackLinks: seq<string>,
                                 remote: (string, int, bool) -> seq<string>)
    ensures CandidateSearch(query, numCandidates, true, false, fallbackLinks, remote) == ChatTools.CANNED_LINKS[..2]
  {
  }

  /** `extract_profiles(links, ...)`, given whether `requests` imports and
      the extraction it calls otherwise: no links means no work. */
  function ExtractProfiles(links: seq<string>, haveRequests: bool, extract: seq<string> -> seq<string>): (r: seq<string>)
    ensures |links| == 0 ==> r == []
    ensures !haveRequests ==> r == []
    ensures |links| > 0 && haveRequests ==> r == extract(links)
  {
    if |links| == 0 then []
    else if !haveRequests then []
    else extract(links)
  }

  /** The extraction is reached only with links to work on. */
  lemma ExtractOnlyWithLinks(links: seq<string>, haveRequests: bool, extract: seq<string> -> seq<string>)
    requires ExtractProfiles(links, haveRequests, extract) != []
    ensures |links| > 0 && haveRequests && ExtractProfiles(links, haveRequests, extract) == extract(links)
  {
  }
}
