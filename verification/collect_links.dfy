/**
 * `CollectLinks.run`: extract keywords for the topic, search each keyword,
 * fit the results into the decomposition prompt, obtain the research
 * queries and rank links for each query; plus the research system texts.
 */
module CollectLinks {
  import opened Wrappers
  import opened Text
  import opened OrderedMaps
  import opened Search
  import opened Grounding
  import opened Ranking
  import opened Seqs

  /** The default system text naming the research topic. */
  function TopicSystemText(topic: string): string {
    "You are an AI researcher assistant, and your research topic is:\n#TOPIC#\n" + topic
  }

  const LanguagePrefix: string := "Please respond in "

  /** `get_research_system_text`: the topic system text, a space, and the language request. */
  function ResearchSystemText(topic: string, language: string): (r: string)
    ensures StartsWith(r, TopicSystemText(topic))
    ensures |r| > |TopicSystemText(topic)| && r[|TopicSystemText(topic)|] == ' '
    ensures r[|TopicSystemText(topic)| + 1..] == LanguagePrefix + language + "."
  {
    TopicSystemText(topic) + " " + (LanguagePrefix + language + ".")
  }

  /** The caller's system text when it is non-empty, else the topic system text. */
  function SystemText(topic: string, given: Option<string>): (r: string)
    ensures given.Some? && given.value != "" ==> r == given.value
    ensures given.None? || given.value == "" ==> r == TopicSystemText(topic)
  {
    match given
    case Some(s) => if s != "" then s else TopicSystemText(topic)
    case None => TopicSystemText(topic)
  }

  const SearchTopicPrompt: string :=
    "Please provide up to 2 necessary keywords related to your research topic for Google search. "
    + "Your response must be in JSON format, for example: [\"keyword1\", \"keyword2\"]."

  /**
   * The collaborators of one run: the completion service, the parsers for a
   * list of strings and a list of integers, the keyword search, the
   * candidate search used by the ranker (query and pool size), the token
   * budget predicate and the optional re-rank hook.
   */
  datatype Services = Services(
    ask: (string, seq<string>) -> string,
    parseStrings: string -> Option<seq<string>>,
    parseIndices: string -> Option<seq<int>>,
    search: string -> seq<SearchResult>,
    candidates: (string, int) -> seq<SearchResult>,
    fits: string -> bool,
    hook: Option<seq<SearchResult> -> seq<SearchResult>>)

  datatype CollectError = GroundingFailed(g: GroundingError) | RankingFailed(k: RankError)

  /** What a run settles on before ranking: the keywords, the fitted prompt and the queries. */
  datatype Plan = Plan(keywords: seq<string>, prompt: string, queries: seq<string>)

  /** The outcome of a run: the keywords and queries used, the fitted prompt and the links per query. */
  datatype Collected = Collected(keywords: seq<string>, prompt: string, queries: seq<string>, links: Ordered<seq<string>>)

  /** The ranked links of one query. */
  function RankQuery(topic: string, query: string, n: int, s: Services, forceFirst: bool): Result<seq<string>, RankError> {
    RankUrls(topic, query, n, s.candidates(query, PoolSize(n)), s.ask, s.parseIndices, s.hook, forceFirst)
  }

  /** Ranking every query in order; the first ranking that raises ends the run. */
  function RankAll(topic: string, queries: seq<string>, n: int, s: Services, forceFirst: bool)
    : (r: Result<seq<seq<string>>, RankError>)
    ensures r.Ok? <==> forall k :: 0 <= k < |queries| ==> RankQuery(topic, queries[k], n, s, forceFirst).Ok?
    ensures r.Ok? ==> |r.value| == |queries|
    ensures r.Ok? ==> forall k :: 0 <= k < |queries| ==> r.value[k] == RankQuery(topic, queries[k], n, s, forceFirst).value
  {
    if |queries| == 0 then Ok([])
    else
      var first :- RankQuery(topic, queries[0], n, s, forceFirst);
      var rest :- RankAll(topic, queries[1..], n, s, forceFirst);
      Ok([first] + rest)
  }

  /** The keywords a run searches for: the parsed reply to the keyword request, else the topic alone. */
  function KeywordsOf(topic: string, given: Option<string>, s: Services): seq<string> {
    s.parseStrings(s.ask(SearchTopicPrompt, [SystemText(topic, given)])).GetOr([topic])
  }

  /** The decomposition prompt fitted to the budget over the keyword search results. */
  function Grounded(nums: int, keywords: seq<string>, s: Services): Result<string, GroundingError> {
    Fit(rs => Prompt(nums, keywords, rs), Map(keywords, s.search), s.fits)
  }

  /**
   * Keywords, grounding and decomposition: unparsable keywords fall back to
   * the topic and unparsable queries to the keywords. Only grounding can
   * fail; the queries are asked for with the fitted prompt.
   */
  function MakePlan(topic: string, nums: int, given: Option<string>, s: Services): (r: Result<Plan, GroundingError>)
    ensures var grounded := Grounded(nums, KeywordsOf(topic, given, s), s);
      && (r.Err? <==> grounded.Err?)
      && (r.Err? ==> r.error == grounded.error)
      && (r.Ok? ==> r.value.keywords == KeywordsOf(topic, given, s) && r.value.prompt == grounded.value)
    ensures var system := SystemText(topic, given);
      var parsedKeywords := s.parseStrings(s.ask(SearchTopicPrompt, [system]));
      r.Ok? ==>
        && (parsedKeywords.None? ==> r.value.keywords == [topic])
        && (parsedKeywords.Some? ==> r.value.keywords == parsedKeywords.value)
        && (s.parseStrings(s.ask(r.value.prompt, [system])).None? ==> r.value.queries == r.value.keywords)
        && (s.parseStrings(s.ask(r.value.prompt, [system])).Some? ==>
              r.value.queries == s.parseStrings(s.ask(r.value.prompt, [system])).value)
  {
    var system := SystemText(topic, given);
    var keywords := KeywordsOf(topic, given, s);
    var prompt :- Grounded(nums, keywords, s);
    var queries := s.parseStrings(s.ask(prompt, [system])).GetOr(keywords);
    Ok(Plan(keywords, prompt, queries))
  }

  /** The links dictionary: `ret[query] = ranking` for every query in turn. */
  function RankLinks(topic: string, queries: seq<string>, n: int, s: Services, forceFirst: bool)
    : (r: Result<Ordered<seq<string>>, RankError>)
    ensures r.Ok? <==> forall k :: 0 <= k < |queries| ==> RankQuery(topic, queries[k], n, s, forceFirst).Ok?
    ensures r.Ok? ==> Valid(r.value) && r.value.keys == Dedup(queries)
    ensures r.Ok? ==> forall q :: q in r.value.values ==>
      q in queries && RankQuery(topic, q, n, s, forceFirst) == Ok(r.value.values[q])
  {
    var ranked :- RankAll(topic, queries, n, s, forceFirst);
    RankedByQuery(topic, queries, n, s, forceFirst);
    Ok(FromPairs(queries, ranked))
  }

  /**
   * One run. `forceFirst` is the unconditional `indices = [0]` of the ranker;
   * the code as written always has it on. The caller's defaults are
   * `nums = 4`, `urlPerQuery = 4` and no system text.
   */
  function Collect(topic: string, nums: int, urlPerQuery: int, given: Option<string>, s: Services, forceFirst: bool)
    : (r: Result<Collected, CollectError>)
    ensures var plan := MakePlan(topic, nums, given, s);
      && (plan.Err? ==> r == Err(GroundingFailed(plan.error)))
      && (r.Ok? ==> plan == Ok(Plan(r.value.keywords, r.value.prompt, r.value.queries)))
    ensures r.Ok? ==>
      && Valid(r.value.links)
      && r.value.links.keys == Dedup(r.value.queries)
      && (forall q :: q in r.value.links.values ==>
            q in r.value.queries && RankQuery(topic, q, urlPerQuery, s, forceFirst) == Ok(r.value.links.values[q]))
  {
    match MakePlan(topic, nums, given, s)
    case Err(g) => Err(GroundingFailed(g))
    case Ok(plan) =>
      match RankLinks(topic, plan.queries, urlPerQuery, s, forceFirst)
      case Err(k) => Err(RankingFailed(k))
      case Ok(links) => Ok(Collected(plan.keywords, plan.prompt, plan.queries, links))
  }

  /** Once grounding has succeeded, the run succeeds exactly when every query ranks. */
  lemma CollectFailsOnlyInRanking(topic: string, nums: int, urlPerQuery: int, given: Option<string>, s: Services, forceFirst: bool)
    requires MakePlan(topic, nums, given, s).Ok?
    ensures var queries := MakePlan(topic, nums, given, s).value.queries;
      Collect(topic, nums, urlPerQuery, given, s, forceFirst).Ok? <==>
        forall k :: 0 <= k < |queries| ==> RankQuery(topic, queries[k], urlPerQuery, s, forceFirst).Ok?
  {
    var queries := MakePlan(topic, nums, given, s).value.queries;
    assert Collect(topic, nums, urlPerQuery, given, s, forceFirst).Ok? <==>
      RankLinks(topic, queries, urlPerQuery, s, forceFirst).Ok?;
  }

  /**
   * A run that succeeds searched for the parsed keywords, or the topic when
   * they do not parse, and ranks the parsed queries, or the keywords when
   * those do not parse.
   */
  lemma CollectFallbacks(topic: string, nums: int, urlPerQuery: int, given: Option<string>, s: Services, forceFirst: bool)
    ensures var r := Collect(topic, nums, urlPerQuery, given, s, forceFirst);
      var system := SystemText(topic, given);
      var parsedKeywords := s.parseStrings(s.ask(SearchTopicPrompt, [system]));
      r.Ok? ==>
        && (parsedKeywords.None? ==> r.value.keywords == [topic])
        && (parsedKeywords.Some? ==> r.value.keywords == parsedKeywords.value)
        && r.value.prompt == Grounded(nums, r.value.keywords, s).value
        && (s.parseStrings(s.ask(r.value.prompt, [system])).None? ==> r.value.queries == r.value.keywords)
        && (s.parseStrings(s.ask(r.value.prompt, [system])).Some? ==>
              r.value.queries == s.parseStrings(s.ask(r.value.prompt, [system])).value)
  {
    var r := Collect(topic, nums, urlPerQuery, given, s, forceFirst);
    if r.Ok? {
      assert MakePlan(topic, nums, given, s) == Ok(Plan(r.value.keywords, r.value.prompt, r.value.queries));
    }
  }

  /** Each query of the links dictionary holds that query's own ranking. */
  lemma RankedByQuery(topic: string, queries: seq<string>, n: int, s: Services, forceFirst: bool)
    requires RankAll(topic, queries, n, s, forceFirst).Ok?
    ensures var links := FromPairs(queries, RankAll(topic, queries, n, s, forceFirst).value);
      forall q :: q in links.values ==> q in queries && RankQuery(topic, q, n, s, forceFirst) == Ok(links.values[q])
  {
    var ranked := RankAll(topic, queries, n, s, forceFirst).value;
    var links := FromPairs(queries, ranked);
    forall q | q in links.values
      ensures q in queries && RankQuery(topic, q, n, s, forceFirst) == Ok(links.values[q])
    {
      assert q in queries by {
        assert q in Dedup(queries);
      }
      LastAssignmentWins(queries, ranked, q);
    }
  }

  /**
   * With the override on (as the code runs) and no hook, every query that was
   * collected maps to the first candidate's link alone.
   */
  lemma OverrideKeepsFirstCandidate(topic: string, nums: int, urlPerQuery: int, given: Option<string>, s: Services)
    requires urlPerQuery >= 1 && s.hook.None?
    ensures var r := Collect(topic, nums, urlPerQuery, given, s, true);
      r.Ok? ==> forall q :: q in r.value.links.values ==>
        r.value.links.values[q] == [s.candidates(q, PoolSize(urlPerQuery))[0].link]
  {
    var r := Collect(topic, nums, urlPerQuery, given, s, true);
    if r.Ok? {
      forall q | q in r.value.links.values
        ensures r.value.links.values[q] == [s.candidates(q, PoolSize(urlPerQuery))[0].link]
      {
        var rq := RankQuery(topic, q, urlPerQuery, s, true);
        assert rq == Ok(r.value.links.values[q]);
        assert |s.candidates(q, PoolSize(urlPerQuery))| >= 1;
      }
    }
  }

  /**
   * With the override on, the run fails in the ranking stage exactly when
   * some query gets no candidates at all.
   */
  lemma OverrideNeedsACandidate(topic: string, nums: int, urlPerQuery: int, given: Option<string>, s: Services)
    requires s.hook.None?
    requires MakePlan(topic, nums, given, s).Ok?
    ensures var queries := MakePlan(topic, nums, given, s).value.queries;
      Collect(topic, nums, urlPerQuery, given, s, true).Err? <==>
        exists k :: 0 <= k < |queries| && |s.candidates(queries[k], PoolSize(urlPerQuery))| == 0
  {
    var queries := MakePlan(topic, nums, given, s).value.queries;
    assert Collect(topic, nums, urlPerQuery, given, s, true).Err? <==>
      RankLinks(topic, queries, urlPerQuery, s, true).Err?;
    forall k | 0 <= k < |queries|
      ensures RankQuery(topic, queries[k], urlPerQuery, s, true).Err? <==>
        |s.candidates(queries[k], PoolSize(urlPerQuery))| == 0
    {
    }
  }
}
