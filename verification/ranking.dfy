/**
 * `CollectLinks._search_and_rank_urls`: fetch a candidate pool, ask the
 * completion service for a ranked list of indices, map the indices back to
 * results, apply the optional re-rank hook and keep the first links.
 */
module Ranking {
  import opened Wrappers
  import opened Text
  import opened Search

  datatype RankError = IndexOutOfRange(index: int)  // `results[i]` with `i` outside the list

  /** Size of the candidate pool requested for `n` wanted links: `max(n * 2, 6)`. */
  function PoolSize(n: int): (m: int)
    ensures m >= 6 && m >= 2 * n
    ensures m == 6 || m == 2 * n
  {
    if n * 2 > 6 then n * 2 else 6
  }

  /** `[0, 1, ..., m - 1]`, Python's `list(range(m))`. */
  function Range(m: int): (r: seq<int>)
    ensures |r| == (if m > 0 then m else 0)
    ensures forall k :: 0 <= k < |r| ==> r[k] == k
  {
    if m <= 0 then [] else Range(m - 1) + [m - 1]
  }

  /** Position `i` denotes in a list of length `len`, counting negative `i` from the end. */
  function Wrap(len: nat, i: int): int {
    if i < 0 then len + i else i
  }

  /** Python's `s[i]`, which raises for `i` outside `-|s| .. |s| - 1`. */
  function PyIndex<T>(s: seq<T>, i: int): (r: Result<T, RankError>)
    ensures r.Ok? <==> -|s| <= i < |s|
    ensures r.Ok? ==> r.value == s[Wrap(|s|, i)]
    ensures r.Err? ==> r.error == IndexOutOfRange(i)
  {
    if 0 <= i < |s| then Ok(s[i])
    else if -|s| <= i < 0 then Ok(s[|s| + i])
    else Err(IndexOutOfRange(i))
  }

  /** Python's `[results[i] for i in indices]`: raises at the first index out of range. */
  function Select(rs: seq<SearchResult>, indices: seq<int>): (r: Result<seq<SearchResult>, RankError>)
    ensures r.Ok? <==> forall k :: 0 <= k < |indices| ==> -|rs| <= indices[k] < |rs|
    ensures r.Ok? ==> |r.value| == |indices|
    ensures r.Ok? ==> forall k :: 0 <= k < |indices| ==> r.value[k] == rs[Wrap(|rs|, indices[k])]
    ensures r.Err? ==> exists k :: 0 <= k < |indices| && r.error == IndexOutOfRange(indices[k]) && !(-|rs| <= indices[k] < |rs|)
  {
    if |indices| == 0 then Ok([])
    else
      var x :- PyIndex(rs, indices[0]);
      var rest :- Select(rs, indices[1..]);
      Ok([x] + rest)
  }

  /** Python's `s[:n]`: a negative `n` drops `-n` items from the end. */
  function TakePrefix<T>(s: seq<T>, n: int): (r: seq<T>)
    ensures |r| <= |s|
    ensures n >= 0 ==> |r| == (if n < |s| then n else |s|)
    ensures n < 0 ==> |r| == (if |s| + n > 0 then |s| + n else 0)
    ensures r == s[..|r|]
  {
    if n >= |s| then s
    else if n >= 0 then s[..n]
    else if |s| + n > 0 then s[..|s| + n]
    else []
  }

  const PromptRequirements: string :=
    "### Requirements\n"
    + "Please remove irrelevant search results that are not related to the query or topic. Then, sort the remaining search results "
    + "based on the link credibility. If two results have equal credibility, prioritize them based on the relevance. Provide the\n"
    + "ranked results' indices in JSON format, like [0, 1, 3, 4, ...], without including other words.\n"

  /** The candidates listed as `i: result`, at most `maxResults` of them. */
  function Listing(rs: seq<SearchResult>, maxResults: int): string {
    var n := if maxResults < |rs| then (if maxResults > 0 then maxResults else 0) else |rs|;
    Join("\n", seq(n, i requires 0 <= i < n => NatToString(i) + ": " + Show(rs[i])))
  }

  /** The ranking prompt for a query. */
  function RankPrompt(topic: string, query: string, rs: seq<SearchResult>, maxResults: int): string {
    "### Topic\n" + topic + "\n### Query\n" + query + "\n\n### The online search results\n"
    + Listing(rs, maxResults) + "\n\n" + PromptRequirements
  }

  /**
   * The indices used to pick results: the parsed reply, or the identity
   * ordering when it does not parse as a list of integers; replaced by `[0]`
   * when `forceFirst` holds, which the code does unconditionally.
   */
  function ChooseIndices(parsed: Option<seq<int>>, maxResults: int, forceFirst: bool): (r: seq<int>)
    ensures forceFirst ==> r == [0]
    ensures !forceFirst && parsed.None? ==> r == Range(maxResults)
    ensures !forceFirst && parsed.Some? ==> r == parsed.value
  {
    if forceFirst then [0] else parsed.GetOr(Range(maxResults))
  }

  /** The indices the ranker selects by: the reply to the ranking prompt over a pool of `PoolSize(n)`. */
  function RankIndices(topic: string, query: string, n: int, candidates: seq<SearchResult>,
                       ask: (string, seq<string>) -> string, parseIndices: string -> Option<seq<int>>, forceFirst: bool)
    : seq<int>
  {
    var maxResults := PoolSize(n);
    ChooseIndices(parseIndices(ask(RankPrompt(topic, query, candidates, maxResults), [])), maxResults, forceFirst)
  }

  /**
   * The ranked links for `query`. `candidates` is what the search collaborator
   * returned for the pool size, `ask` the completion service, `parseIndices`
   * the list-of-integers parser and `hook` the optional `rank_func`.
   */
  function RankUrls(topic: string, query: string, n: int, candidates: seq<SearchResult>,
                    ask: (string, seq<string>) -> string, parseIndices: string -> Option<seq<int>>,
                    hook: Option<seq<SearchResult> -> seq<SearchResult>>, forceFirst: bool)
    : (r: Result<seq<string>, RankError>)
    ensures r.Ok? && n >= 0 ==> |r.value| <= n
    ensures forceFirst && hook.None? ==> (r.Ok? <==> |candidates| >= 1)
    ensures forceFirst && hook.None? && |candidates| >= 1 && n >= 1 ==> r == Ok([candidates[0].link])
    ensures forceFirst && hook.None? && |candidates| >= 1 && n <= 0 ==> r == Ok([])
    ensures hook.None? && r.Ok? ==>
      forall k :: 0 <= k < |r.value| ==> exists j :: 0 <= j < |candidates| && r.value[k] == candidates[j].link
  {
    var indices := RankIndices(topic, query, n, candidates, ask, parseIndices, forceFirst);
    var selected :- Select(candidates, indices);
    var reranked := match hook case Some(f) => f(selected) case None => selected;
    var links := Links(TakePrefix(reranked, n));
    if hook.None? then
      LinksFromCandidates(candidates, indices, n);
      if forceFirst then
        FirstCandidateOnly(candidates, n);
        Ok(links)
      else Ok(links)
    else Ok(links)
  }

  /**
   * The ranking raises exactly when an index is out of range. Without a hook
   * it keeps the first `n` selected candidates' links, in index order; with a
   * hook it keeps the first `n` links of what the hook returns.
   */
  lemma RankedByIndices(topic: string, query: string, n: int, candidates: seq<SearchResult>,
                        ask: (string, seq<string>) -> string, parseIndices: string -> Option<seq<int>>,
                        hook: Option<seq<SearchResult> -> seq<SearchResult>>, forceFirst: bool)
    ensures var indices := RankIndices(topic, query, n, candidates, ask, parseIndices, forceFirst);
      var r := RankUrls(topic, query, n, candidates, ask, parseIndices, hook, forceFirst);
      && (r.Ok? <==> forall k :: 0 <= k < |indices| ==> -|candidates| <= indices[k] < |candidates|)
      && (r.Err? ==> exists k :: 0 <= k < |indices| && r.error == IndexOutOfRange(indices[k]))
      && (r.Ok? && hook.None? && n >= 0 ==>
            && |r.value| == (if n < |indices| then n else |indices|)
            && forall k :: 0 <= k < |r.value| ==> r.value[k] == candidates[Wrap(|candidates|, indices[k])].link)
      && (r.Ok? && hook.Some? ==>
            r.value == Links(TakePrefix(hook.value(Select(candidates, indices).value), n)))
  {
    var indices := RankIndices(topic, query, n, candidates, ask, parseIndices, forceFirst);
    var r := RankUrls(topic, query, n, candidates, ask, parseIndices, hook, forceFirst);
    if r.Ok? && hook.None? && n >= 0 {
      var selected := Select(candidates, indices).value;
      assert r.value == Links(TakePrefix(selected, n));
      forall k | 0 <= k < |r.value|
        ensures r.value[k] == candidates[Wrap(|candidates|, indices[k])].link
      {
        assert TakePrefix(selected, n)[k] == selected[k];
      }
    }
  }

  /** Every link kept from a selection is the link of some candidate. */
  lemma LinksFromCandidates(candidates: seq<SearchResult>, indices: seq<int>, n: int)
    requires Select(candidates, indices).Ok?
    ensures var links := Links(TakePrefix(Select(candidates, indices).value, n));
      forall k :: 0 <= k < |links| ==> exists j :: 0 <= j < |candidates| && links[k] == candidates[j].link
  {
    var sel := Select(candidates, indices).value;
    var links := Links(TakePrefix(sel, n));
    forall k | 0 <= k < |links|
      ensures exists j :: 0 <= j < |candidates| && links[k] == candidates[j].link
    {
      var j := Wrap(|candidates|, indices[k]);
      assert TakePrefix(sel, n)[k] == sel[k];
      assert links[k] == candidates[j].link;
    }
  }

  /** Selecting by `[0]` keeps exactly the first candidate, and its link when at least one is wanted. */
  lemma FirstCandidateOnly(candidates: seq<SearchResult>, n: int)
    requires |candidates| >= 1
    ensures Select(candidates, [0]) == Ok([candidates[0]])
    ensures n >= 1 ==> Links(TakePrefix([candidates[0]], n)) == [candidates[0].link]
    ensures n <= 0 ==> Links(TakePrefix([candidates[0]], n)) == []
  {
    assert [0][1..] == [];
    assert Select(candidates, []) == Ok([]);
    assert [candidates[0]] + [] == [candidates[0]];
    if n >= 1 {
      assert TakePrefix([candidates[0]], n) == [candidates[0]];
    }
  }

  /**
   * Without the override and the hook, an unparsable reply ranks the
   * candidates in fetch order when the pool is full, and raises at the first
   * missing position when the search returned fewer than the pool size.
   */
  lemma FallbackKeepsFetchOrder(topic: string, query: string, n: int, candidates: seq<SearchResult>,
                                ask: (string, seq<string>) -> string, parseIndices: string -> Option<seq<int>>)
    requires parseIndices(ask(RankPrompt(topic, query, candidates, PoolSize(n)), [])).None?
    ensures var r := RankUrls(topic, query, n, candidates, ask, parseIndices, None, false);
      && (|candidates| >= PoolSize(n) && n >= 0 ==> r == Ok(Links(candidates[..n])))
      && (|candidates| < PoolSize(n) ==> r == Err(IndexOutOfRange(|candidates|)))
  {
    var m := PoolSize(n);
    var idx := Range(m);
    if |candidates| >= m {
      var sel := Select(candidates, idx);
      assert sel.Ok?;
      assert sel.value == candidates[..m];
      if n >= 0 {
        assert TakePrefix(sel.value, n) == candidates[..n];
      }
    } else {
      SelectFailsAtFirstGap(candidates, idx, |candidates|);
    }
  }

  /** Selecting by `0, 1, ...` fails at the first position past the end of the list. */
  lemma {:induction false} SelectFailsAtFirstGap(rs: seq<SearchResult>, idx: seq<int>, g: nat)
    requires g < |idx| && idx[g] == |rs|
    requires forall k :: 0 <= k < g ==> 0 <= idx[k] < |rs|
    ensures Select(rs, idx) == Err(IndexOutOfRange(|rs|))
  {
    if g > 0 {
      SelectFailsAtFirstGap(rs, idx[1..], g - 1);
    }
  }
}
