/**
 * `WebBrowseAndSummarize.run`: fetch every URL, summarise each content chunk
 * against the research question (map), drop chunks answered with the
 * relevance sentinel, and merge two or more survivors with one more
 * completion call (reduce).
 */
module Summarize {
  import opened Wrappers
  import opened Text
  import opened OrderedMaps
  import opened Seqs

  /** The exact reply that marks a chunk as unrelated to the research topic. */
  const NotRelevant: string := "Not relevant."

  const PromptHead: string :=
    "### Requirements\n"
    + "1. Utilize the text in the \"Reference Information\" section to respond to the question \""
  const PromptMiddle: string :=
    "\".\n"
    + "2. If the question cannot be directly answered using the text, but the text is related to the research topic, please provide "
    + "a comprehensive summary of the text.\n"
    + "3. If the text is entirely unrelated to the research topic, please reply with a simple text \"Not relevant.\"\n"
    + "4. Include all relevant factual information, numbers, statistics, etc., if available.\n"
    + "\n"
    + "### Reference Information\n"

  /** The summarise prompt for `query` over `content`; the reduce step uses it on the joined survivors. */
  function SummarizePrompt(query: string, content: string): string {
    PromptHead + query + PromptMiddle + content + "\n"
  }

  /** The completion service's reply to each chunk prompt, in order. */
  function Replies(prompts: seq<string>, system: string, ask: (string, seq<string>) -> string): (r: seq<string>)
    ensures |r| == |prompts|
    ensures forall k :: 0 <= k < |prompts| ==> r[k] == ask(prompts[k], [system])
  {
    seq(|prompts|, k requires 0 <= k < |prompts| => ask(prompts[k], [system]))
  }

  /** The replies that are not the relevance sentinel, in order. */
  function Relevant(replies: seq<string>): (r: seq<string>)
    ensures |r| <= |replies|
    ensures forall x :: x in r <==> x in replies && x != NotRelevant
  {
    if |replies| == 0 then []
    else
      var rest := Relevant(replies[..|replies| - 1]);
      var last := replies[|replies| - 1];
      assert replies == replies[..|replies| - 1] + [last];
      if last == NotRelevant then rest else rest + [last]
  }

  /** Filtering the sentinel distributes over concatenation, so the survivors keep their order. */
  lemma {:induction false} RelevantAppend(a: seq<string>, b: seq<string>)
    ensures Relevant(a + b) == Relevant(a) + Relevant(b)
    decreases |b|
  {
    if |b| > 0 {
      var b' := b[..|b| - 1];
      RelevantAppend(a, b');
      assert (a + b)[..|a + b| - 1] == a + b';
      assert b == b' + [b[|b| - 1]];
    } else {
      assert a + b == a;
    }
  }

  /** No survivor exactly when every reply is the sentinel. */
  lemma NoSurvivorIffAllSentinel(replies: seq<string>)
    ensures |Relevant(replies)| == 0 <==> forall k :: 0 <= k < |replies| ==> replies[k] == NotRelevant
  {
    if |Relevant(replies)| == 0 {
      forall k | 0 <= k < |replies|
        ensures replies[k] == NotRelevant
      {
        assert replies[k] in replies;
      }
    }
  }

  /**
   * The map phase as the source runs it: one completion call per chunk,
   * keeping every reply other than the sentinel.
   */
  method MapChunks(prompts: seq<string>, system: string, ask: (string, seq<string>) -> string)
    returns (survivors: seq<string>)
    ensures survivors == Relevant(Replies(prompts, system, ask))
  {
    survivors := [];
    var i := 0;
    while i < |prompts|
      invariant 0 <= i <= |prompts|
      invariant survivors == Relevant(Replies(prompts[..i], system, ask))
    {
      var summary := ask(prompts[i], [system]);
      RelevantAppend(Replies(prompts[..i], system, ask), [summary]);
      assert Replies(prompts[..i + 1], system, ask) == Replies(prompts[..i], system, ask) + [summary];
      if summary != NotRelevant {
        survivors := survivors + [summary];
      }
      i := i + 1;
    }
    assert prompts[..i] == prompts;
  }

  /** The summary of one page, and every prompt sent to the completion service for it. */
  datatype PageSummary = PageSummary(summary: Option<string>, asked: seq<string>)

  /**
   * The reduce phase for one page: no survivor gives `None`, one survivor is
   * the summary, two or more are joined with newlines and summarised once more.
   */
  function SummarizePage(query: string, system: string, prompts: seq<string>, ask: (string, seq<string>) -> string)
    : (r: PageSummary)
    ensures var survivors := Relevant(Replies(prompts, system, ask));
      && (r.summary.None? <==> forall k :: 0 <= k < |prompts| ==> ask(prompts[k], [system]) == NotRelevant)
      && (|survivors| == 1 ==> r.summary == Some(survivors[0]) && r.asked == prompts)
      && (|survivors| >= 2 ==>
            var merge := SummarizePrompt(query, Join("\n", survivors));
            r.summary == Some(ask(merge, [system])) && r.asked == prompts + [merge])
      && |r.asked| == |prompts| + (if |survivors| >= 2 then 1 else 0)
      && r.asked[..|prompts|] == prompts
  {
    var survivors := Relevant(Replies(prompts, system, ask));
    NoSurvivorIffAllSentinel(Replies(prompts, system, ask));
    if |survivors| == 0 then PageSummary(None, prompts)
    else if |survivors| == 1 then PageSummary(Some(survivors[0]), prompts)
    else
      var merge := SummarizePrompt(query, Join("\n", survivors));
      PageSummary(Some(ask(merge, [system])), prompts + [merge])
  }

  /** A single reply other than the sentinel is the only survivor. */
  lemma {:induction false} OnlySurvivor(rs: seq<string>, i: nat)
    requires i < |rs| && rs[i] != NotRelevant
    requires forall k :: 0 <= k < |rs| && k != i ==> rs[k] == NotRelevant
    ensures Relevant(rs) == [rs[i]]
  {
    var n := |rs| - 1;
    var init := rs[..n];
    if i == n {
      assert Relevant(init) == [] by {
        forall k | 0 <= k < |init|
          ensures init[k] == NotRelevant
        {
          assert init[k] == rs[k];
        }
        AllSentinel(init);
      }
    } else {
      assert rs[n] == NotRelevant;
      assert Relevant(init) == [rs[i]] by {
        forall k | 0 <= k < |init| && k != i
          ensures init[k] == NotRelevant
        {
          assert init[k] == rs[k];
        }
        OnlySurvivor(init, i);
      }
    }
  }

  /** Replies that are all the sentinel leave no survivor. */
  lemma AllSentinel(rs: seq<string>)
    requires forall k :: 0 <= k < |rs| ==> rs[k] == NotRelevant
    ensures Relevant(rs) == []
  {
    NoSurvivorIffAllSentinel(rs);
  }

  /** A single relevant chunk among sentinels is the summary, with no extra call. */
  lemma OneRelevantChunk(query: string, system: string, prompts: seq<string>, ask: (string, seq<string>) -> string, i: nat)
    requires i < |prompts| && ask(prompts[i], [system]) != NotRelevant
    requires forall k :: 0 <= k < |prompts| && k != i ==> ask(prompts[k], [system]) == NotRelevant
    ensures SummarizePage(query, system, prompts, ask) == PageSummary(Some(ask(prompts[i], [system])), prompts)
  {
    OnlySurvivor(Replies(prompts, system, ask), i);
  }

  /** What the browser collaborator hands back: one page for one URL, a list for several. */
  datatype BrowseReply = OnePage(text: string) | PageList(texts: seq<string>)

  datatype SummarizeError =
    | ListHasNoText    // a list wrapped as the single page has no `inner_text`
    | PageNotIterable  // a single page returned where a list was expected

  /** The page texts to pair with `[url, *urls]`; a single page is wrapped in a list first. */
  function Contents(urls: seq<string>, reply: BrowseReply): (r: Result<seq<string>, SummarizeError>)
    ensures |urls| == 0 && reply.OnePage? ==> r == Ok([reply.text])
    ensures |urls| > 0 && reply.PageList? ==> r == Ok(reply.texts)
    ensures r.Err? <==> (|urls| == 0) == reply.PageList?
  {
    if |urls| == 0 then
      match reply
      case OnePage(t) => Ok([t])
      case PageList(_) => Err(ListHasNoText)
    else
      match reply
      case PageList(ts) => Ok(ts)
      case OnePage(_) => Err(PageNotIterable)
  }

  /** The summaries by URL, and every prompt sent to the completion service, in order. */
  datatype Summaries = Summaries(byUrl: Ordered<Option<string>>, asked: seq<string>)

  /** The prompts sent for each page, page by page. */
  function AskedLists(pages: seq<PageSummary>): (r: seq<seq<string>>)
    ensures |r| == |pages| && forall i :: 0 <= i < |pages| ==> r[i] == pages[i].asked
  {
    seq(|pages|, i requires 0 <= i < |pages| => pages[i].asked)
  }

  /** Page `k`'s prompts follow those of the pages before it, at offset `SumAsked(pages[..k])`. */
  lemma AskedInPageOrder(pages: seq<PageSummary>)
    ensures forall k :: 0 <= k < |pages| ==>
      var o := SumAsked(pages[..k]);
      o + |pages[k].asked| <= |Concat(AskedLists(pages))|
      && Concat(AskedLists(pages))[o..o + |pages[k].asked|] == pages[k].asked
  {
    forall k | 0 <= k < |pages|
      ensures var o := SumAsked(pages[..k]);
        o + |pages[k].asked| <= |Concat(AskedLists(pages))|
        && Concat(AskedLists(pages))[o..o + |pages[k].asked|] == pages[k].asked
    {
      ConcatPart(AskedLists(pages), k);
      assert AskedLists(pages)[..k] == AskedLists(pages[..k]);
      ConcatLength(pages[..k]);
    }
  }

  /** The summaries keyed by URL, each URL paired with the page text at its position. */
  function SummarizeAll(urls: seq<string>, pages: seq<PageSummary>): (r: Summaries)
    requires |urls| == |pages|
    ensures Valid(r.byUrl)
    ensures r.byUrl.keys == Dedup(urls)
    ensures forall u :: u in r.byUrl.values ==> u in urls && r.byUrl.values[u] == pages[LastIndex(urls, u)].summary
    ensures |r.asked| == SumAsked(pages)
  {
    var summaries := seq(|pages|, i requires 0 <= i < |pages| => pages[i].summary);
    var byUrl := FromPairs(urls, summaries);
    forall u | u in byUrl.values
      ensures u in urls && byUrl.values[u] == pages[LastIndex(urls, u)].summary
    {
      LastAssignmentWins(urls, summaries, u);
    }
    ConcatLength(pages);
    Summaries(byUrl, Concat(AskedLists(pages)))
  }

  /** The prompts asked are those of every page, page after page, nothing else and in order. */
  lemma SummarizeAllAsksInPageOrder(urls: seq<string>, pages: seq<PageSummary>)
    requires |urls| == |pages|
    ensures var asked := SummarizeAll(urls, pages).asked;
      && |asked| == SumAsked(pages)
      && forall k :: 0 <= k < |pages| ==>
           var o := SumAsked(pages[..k]);
           o + |pages[k].asked| <= |asked| && asked[o..o + |pages[k].asked|] == pages[k].asked
  {
    assert SummarizeAll(urls, pages).asked == Concat(AskedLists(pages));
    AskedInPageOrder(pages);
  }

  /**
   * The whole action: `browse` fetches the URLs, `chunk` turns a page text
   * into its chunk prompts and `ask` is the completion service. URLs are
   * paired with page texts up to the shorter of the two lists.
   */
  function BrowseAndSummarize(url: string, urls: seq<string>, query: string, system: string,
                              browse: seq<string> -> BrowseReply, chunk: string -> seq<string>,
                              ask: (string, seq<string>) -> string)
    : (r: Result<Summaries, SummarizeError>)
    ensures r.Err? <==> (|urls| == 0) == browse([url] + urls).PageList?
    ensures r.Ok? ==>
      var all := [url] + urls;
      var texts := Contents(urls, browse(all)).value;
      var n := if |all| < |texts| then |all| else |texts|;
      var paired := texts[..n];
      && Valid(r.value.byUrl)
      && r.value.byUrl.keys == Dedup(all[..n])
      && forall u :: u in r.value.byUrl.values ==>
           u in all[..n] && r.value.byUrl.values[u] == SummarizePage(query, system, chunk(paired[LastIndex(all[..n], u)]), ask).summary
  {
    var all := [url] + urls;
    var texts :- Contents(urls, browse(all));
    var n := if |all| < |texts| then |all| else |texts|;
    var page := t => SummarizePage(query, system, chunk(t), ask);
    SummariesOfPages(all[..n], texts[..n], page);
    Ok(SummarizeAll(all[..n], Map(texts[..n], page)))
  }

  /** Each URL's entry is the summary of the page text at the URL's last position. */
  lemma SummariesOfPages(urls: seq<string>, texts: seq<string>, page: string -> PageSummary)
    requires |urls| == |texts|
    ensures var r := SummarizeAll(urls, Map(texts, page));
      && Valid(r.byUrl)
      && r.byUrl.keys == Dedup(urls)
      && forall u :: u in r.byUrl.values ==> u in urls && r.byUrl.values[u] == page(texts[LastIndex(urls, u)]).summary
  {
  }

  /** Total number of completion calls over the pages. */
  function SumAsked(pages: seq<PageSummary>): nat {
    if |pages| == 0 then 0 else SumAsked(pages[..|pages| - 1]) + |pages[|pages| - 1].asked|
  }

  /** The prompts laid end to end number as many as the pages' counts add up to. */
  lemma {:induction false} ConcatLength(pages: seq<PageSummary>)
    ensures |Concat(AskedLists(pages))| == SumAsked(pages)
  {
    if |pages| > 0 {
      var n := |pages| - 1;
      ConcatLength(pages[..n]);
      assert AskedLists(pages)[..n] == AskedLists(pages[..n]);
    }
  }

  /** A single URL with one fetched page yields exactly one entry, keyed by that URL. */
  lemma SingleUrlHasOneEntry(url: string, query: string, system: string,
                             browse: seq<string> -> BrowseReply, chunk: string -> seq<string>,
                             ask: (string, seq<string>) -> string)
    requires browse([url]).OnePage?
    ensures var r := BrowseAndSummarize(url, [], query, system, browse, chunk, ask);
      && r.Ok?
      && r.value.byUrl.keys == [url]
      && r.value.byUrl.values[url] == SummarizePage(query, system, chunk(browse([url]).text), ask).summary
  {
    assert [url] + [] == [url];
    var r := BrowseAndSummarize(url, [], query, system, browse, chunk, ask);
    assert r.Ok?;
    assert [url][..1] == [url];
    assert Dedup([url]) == [url] by {
      assert [url][..0] == [];
    }
    assert url in r.value.byUrl.values;
  }
}
