# Research pipeline, 5W1H report parser and P1 provider — a Dafny model

This project models the control logic of three parts of a multi-agent LLM
framework.

**The research actions** in `metagpt/actions/research.py`:
- `CollectLinks` asks the completion service for search keywords and searches each one.
- It fits the search results into a decomposition prompt, under a token budget, by greedy trimming.
- It asks for research queries and ranks candidate links for each query.
- `WebBrowseAndSummarize` fetches pages and summarises every chunk.
- It drops the chunks the model answers with the exact text `Not relevant.`, then merges the survivors with one more call.
- `get_research_system_text` builds the research system prompt.

**The 5W1H check-result converter** (`examples/lambert/checkResultExcel.py`)
reads a Markdown review report line by line. It turns each backlog heading
plus its six bullets (Who, What, Where, When, Why, How) into a spreadsheet
row: a title and six 0/1 flags.

**The P1 completion provider** (`metagpt/provider/p1llm_api.py`) covers three things:
- the request body it posts;
- the check of the P1 reply's status;
- the translation of the reply's JSON `data` document into the Ollama-style response that the framework's `get_choice_text` and `get_usage` read.

Everything outside the process is a function parameter:
- the completion service (`ask(prompt, systemMessages)`);
- the JSON-list parsers (`OutputParser.extract_struct` plus validation, as `string -> Option<seq<…>>`);
- the search engine and the ranker's candidate source;
- the token-budget test of `reduce_message_length` (`fits`);
- the page chunker `generate_prompt_chunk`;
- the web browser;
- the HTTP transport (`post`);
- `json.loads` (`loads`).

The properties are stated over all such parameters.

Python behaviour that the code relies on is written out explicitly:
- `max(key=len)` keeps the first maximum;
- `list.pop()` on an empty list and `max([])` raise;
- negative indices and negative slice bounds count from the end;
- `zip` stops at the shorter list;
- a dictionary keeps the first-insertion order of its keys and the last assignment's value;
- `str.replace` is left to right and non-overlapping;
- `readline` returns `""` only at end of file.

Modules:
- `Wrappers`: `Option` and `Result`.
- `Text`: substring test, replace, join, integer printing.
- `Seqs`: element-wise mapping over a sequence.
- `OrderedMaps`: insertion-ordered dictionaries.
- `Search`: search results and their `repr`.
- `Grounding`: `gen_msg` and `reduce_message_length`.
- `Ranking`: `_search_and_rank_urls`.
- `CollectLinks`: `CollectLinks.run` and the system texts.
- `Summarize`: `WebBrowseAndSummarize.run`.
- `CheckResult`: the report parser, with a renderer for its round trip.
- `P1Llm`: the provider.

The grounding generator `gen_msg` stops as soon as the list it just popped
becomes empty. That list was a longest one, so this happens once every list
holds at most one result. The prompt with every list emptied is therefore
never offered. `Grounding.LastYieldHasSingletons` states this, and
`Grounding.DrainCount` gives the exact number of prompts offered.

## Model

| member | source | states |
|---|---|---|
| Grounding.FirstLongest | metagpt/actions/research.py:131 | the list picked for trimming is a longest one, and every list before it is strictly shorter (Python's `max` keeps the first maximum) |
| Grounding.TrimStep | metagpt/actions/research.py:131-134 | resuming fails with `MaxOfEmpty` when there are no lists and `PopFromEmpty` when all are empty. Otherwise it removes exactly the last result of the first longest list, leaves every other list unchanged and lowers the total by one. It stops iff that list held a single result |
| Grounding.Drain | metagpt/actions/research.py:122-134 | the generator's successive states start at the search results; each next state is a non-stopping trim of the previous one; the trace ends with the error or stop of the last state's trim |
| Grounding.DrainCount | metagpt/actions/research.py:122-134 | with at least one result the generator offers exactly `Total − NonEmptyCount + 1` prompts, each one result smaller than the last, then runs dry; with no results it offers one prompt and then raises |
| Grounding.YieldsAtMostTotal | metagpt/actions/research.py:122-134 | the fitting loop tries at most as many prompts as there are search results |
| Grounding.LastYieldHasSingletons | metagpt/actions/research.py:131-134 | the last prompt offered still carries results, and every list in it holds at most one |
| Grounding.FitIsFirstAccepted | metagpt/actions/research.py:137 | the fitted prompt is the first offered prompt the budget accepts; when it accepts none, the result is the generator's terminal error |
| Ranking.PoolSize | metagpt/actions/research.py:176 | the candidate pool size is at least 6 and at least twice the links wanted, and equals one of the two |
| Ranking.Range | metagpt/actions/research.py:207 | the identity ordering `0 .. m−1`, empty for `m ≤ 0` |
| Ranking.PyIndex | metagpt/actions/research.py:209 | indexing succeeds exactly for `−len ≤ i < len`; a negative index counts from the end; any other index raises with that index |
| Ranking.Select | metagpt/actions/research.py:209 | picking by indices succeeds iff every index is in range, keeps their order and count, and otherwise raises for an out-of-range index |
| Ranking.TakePrefix | metagpt/actions/research.py:212 | `s[:n]` is a prefix of `s` of length `min(n, len)` for `n ≥ 0`, and loses `−n` items from the end for negative `n` |
| Ranking.ChooseIndices | metagpt/actions/research.py:201-208 | the override forces `[0]`; otherwise the parsed reply is used, or the identity ordering of the pool when the reply does not parse |
| Ranking.RankUrls | metagpt/actions/research.py:176-212 | at most `n` links for `n ≥ 0`; without a hook every link is a candidate's link. With the override and no hook, ranking succeeds iff there is a candidate; it then yields exactly the first candidate's link, or nothing for `n ≤ 0` |
| Ranking.RankedByIndices | metagpt/actions/research.py:176-212 | ranking succeeds iff every chosen index is within `−len ≤ i < len` of the candidates. The chosen indices are the override's `[0]`, the parsed reply, or the pool's identity ordering. A failure names one of those indices. Without a hook and for `n ≥ 0`, the links are those of the candidates at the first `n` indices, in index order, a negative index counting from the end. With a hook, they are the first `n` links of the hook's reordering of the selection |
| Ranking.FallbackKeepsFetchOrder | metagpt/actions/research.py:201-212 | without the override, an unparsable reply gives the first `n` candidates in fetch order when the pool is full. When the search returned fewer candidates than the pool size, it raises at the first missing position |
| Ranking.SelectFailsAtFirstGap | metagpt/actions/research.py:207-209 | selection by an ordering whose first out-of-range index equals the list length raises for that index |
| Search.Links | metagpt/actions/research.py:212 | the link of every result, in order |
| CollectLinks.ResearchSystemText | metagpt/actions/research.py:325-335 | the research system text is the topic system text, one space, then the language request ending in a full stop |
| CollectLinks.SystemText | metagpt/actions/research.py:112 | a non-empty caller system text is used as given; an absent or empty one is replaced by the topic system text |
| CollectLinks.RankAll | metagpt/actions/research.py:160-163 | ranking all queries succeeds iff every query ranks; the result then holds each query's ranking in order |
| CollectLinks.MakePlan | metagpt/actions/research.py:112-159 | planning fails iff grounding the keywords' search results fails, with grounding's error. Otherwise the prompt is the fitted one. The keywords are the parsed reply to the keyword request, or `[topic]` when it does not parse. The queries are the parsed reply to the fitted prompt, or the keywords when it does not parse |
| CollectLinks.RankLinks | metagpt/actions/research.py:160-163 | building the links dictionary succeeds iff every query ranks. Its keys are then the queries deduplicated in first-seen order, and each key holds that query's own ranking |
| CollectLinks.Collect | metagpt/actions/research.py:112-163 | a grounding failure is the run's failure. A successful run carries exactly the plan's keywords, prompt and queries. Its keys are the queries deduplicated in first-seen order, and each key maps to its own ranking |
| CollectLinks.CollectFailsOnlyInRanking | metagpt/actions/research.py:160-163 | once grounding has succeeded, the run succeeds iff every query ranks |
| CollectLinks.CollectFallbacks | metagpt/actions/research.py:112-159 | a successful run searched the parsed keywords, or `[topic]` when they do not parse. Its prompt is the fitted prompt over those keywords' results. It ranks the parsed queries, or the keywords when those do not parse |
| CollectLinks.OverrideKeepsFirstCandidate | metagpt/actions/research.py:208-212 | as the code runs (override on, no hook), every collected query maps to its first candidate's link alone |
| CollectLinks.OverrideNeedsACandidate | metagpt/actions/research.py:160-212 | once grounding has succeeded, the run fails iff some query gets no candidate at all |
| OrderedMaps.Insert | metagpt/actions/research.py:162 | `d[k] = v` stores `v` under `k` and changes no other key. A new key goes to the end of the key order; an existing key keeps its place |
| OrderedMaps.Dedup | metagpt/actions/research.py:160-163 | the keys of the dictionary built from a list are its distinct elements, and no more of them than the list has |
| OrderedMaps.DedupFirstOccurrenceOrder | metagpt/actions/research.py:160-163 | those keys are ordered by their first occurrence in the list |
| OrderedMaps.FromPairs | metagpt/actions/research.py:160-163 | assigning pairs in turn gives a consistent dictionary whose key order is the deduplicated key list |
| OrderedMaps.LastAssignmentWins | metagpt/actions/research.py:160-163 | a repeated key holds the value of its last assignment |
| Summarize.Relevant | metagpt/actions/research.py:265-267 | the surviving chunk summaries are exactly the replies other than `Not relevant.` |
| Summarize.RelevantAppend | metagpt/actions/research.py:261-267 | filtering distributes over concatenation, so survivors keep their reply order |
| Summarize.NoSurvivorIffAllSentinel | metagpt/actions/research.py:282-284 | no summary survives iff every chunk reply is `Not relevant.` |
| Summarize.MapChunks | metagpt/actions/research.py:261-267 | the chunk loop collects exactly the filtered replies of the chunk prompts, in order |
| Summarize.SummarizePage | metagpt/actions/research.py:282-293 | the page summary is absent iff every chunk was irrelevant. A single survivor is the summary with no extra call. Two or more are joined by newlines and summarised by one more call; the calls made are the chunk prompts plus that merge |
| Summarize.OneRelevantChunk | metagpt/actions/research.py:286-288 | one relevant chunk among irrelevant ones is the page summary as is |
| Summarize.Contents | metagpt/actions/research.py:252-259 | a single URL's page is wrapped in a list, and several URLs take the browser's list. A list for a single URL, or a single page for several URLs, is an error |
| Summarize.SummarizeAll | metagpt/actions/research.py:256-293 | the summaries are keyed by URL in first-seen order, and a repeated URL keeps the summary of its last page. The prompts sent number as many as all pages' prompts together |
| Summarize.SummarizeAllAsksInPageOrder | metagpt/actions/research.py:256-293 | the prompts sent are every page's prompts, page after page in URL order. Page `k`'s block starts right after the blocks of the pages before it |
| Summarize.BrowseAndSummarize | metagpt/actions/research.py:252-294 | fails iff the browser's reply shape does not match the URL count. Otherwise the keys are the URLs paired with a page, deduplicated, and each holds the summary of the page at its last position |
| Summarize.SingleUrlHasOneEntry | metagpt/actions/research.py:252-254 | a single URL whose page is fetched gives exactly one entry, that page's summary |
| Text.ReplaceWithoutMatch | examples/lambert/checkResultExcel.py:20 | replacing a pattern that does not occur leaves the text unchanged |
| Text.ReplaceFirst | examples/lambert/checkResultExcel.py:20 | replacement is left to right. The text before the first occurrence is kept, that occurrence becomes the replacement, and replacement resumes right after it |
| Text.KeepUnmatchedPrefix | examples/lambert/checkResultExcel.py:20 | a prefix in which no occurrence starts is kept unchanged |
| Text.RemovedCharAbsent | examples/lambert/checkResultExcel.py:20 | removing every occurrence of a character leaves none of it |
| CheckResult.FirstKeyword | examples/lambert/checkResultExcel.py:24-64 | the question word a bullet counts for is the first, in Who…How order, that the line contains |
| CheckResult.ClassifyRules | examples/lambert/checkResultExcel.py:19-64 | a line is a heading iff it contains `###` and not `5W1H`, with its title stripped of `### ` and newlines, so a title holds no newline. Otherwise it is a bullet iff it starts with `-` and names a question word. Its flag is 0 iff it mentions `Missing` |
| CheckResult.Feed | examples/lambert/checkResultExcel.py:12-67 | one line keeps the record under seven cells with 0/1 flags. A row is written only when the record reaches seven cells; it then starts with the cells read before and the record restarts empty. A line adds at most one cell |
| CheckResult.FeedRules | examples/lambert/checkResultExcel.py:12-67 | a line that matches no rule adds nothing, and it drops a record that starts with a flag. A heading or bullet appends its cell, and the record is written exactly when that cell is the seventh. A How bullet always ends the record |
| CheckResult.Scan | examples/lambert/checkResultExcel.py:9-70 | the record loop only appends rows, every row it writes has seven cells with 0/1 flags, and each row consumes at least seven lines |
| CheckResult.Parse | examples/lambert/checkResultExcel.py:7-70 | the sheet starts with the header row, followed only by well-formed rows, at most one per seven lines |
| CheckResult.ClassifyTitle | examples/lambert/checkResultExcel.py:19-22 | a heading `### title` is read back as exactly `title` |
| CheckResult.BulletMissing | examples/lambert/checkResultExcel.py:24-64 | a rendered bullet mentions `Missing` iff the answer is missing |
| CheckResult.ClassifyBullet | examples/lambert/checkResultExcel.py:24-64 | a rendered bullet is read back as its own question word and its 0/1 flag |
| CheckResult.ScanRecord | examples/lambert/checkResultExcel.py:12-70 | reading one rendered entry writes exactly that entry's row |
| CheckResult.ScanRender | examples/lambert/checkResultExcel.py:12-70 | reading rendered entries appends exactly their rows, in order |
| CheckResult.ParseRender | examples/lambert/checkResultExcel.py:7-70 | parsing a rendered report gives back the header and one row per entry: title plus six flags |
| P1Llm.RequestRoundTrip | metagpt/provider/p1llm_api.py:34-36 | the request body carries the model, the messages unchanged, temperature 0.3 and the stream flag, and nothing else |
| P1Llm.GetChoiceText | metagpt/provider/p1llm_api.py:38-42 | the choice text is the message's content, or `None` when absent. It succeeds iff the response holds a message whose role is `assistant`; a missing message counts as an empty one |
| P1Llm.GetUsage | metagpt/provider/p1llm_api.py:44-45 | usage is the two evaluation counts, each 0 when absent; it fails only for a response that is not an object |
| P1Llm.Answer | metagpt/provider/p1llm_api.py:59-66 | the shared steps succeed iff the body decodes to an object with status 200 and a string `data`. That string must decode to an object whose `output.answer` is a string. They then yield that answer and the decoded `data`. An undecodable body is `NotJson`, and a missing status is a missing-key error. A status other than 200 with `error` and `message` is the call failure carrying all three |
| P1Llm.Normalize | metagpt/provider/p1llm_api.py:59-86 | the plain path succeeds iff the shared steps do and `data.tokens` holds both counts. The normalised response's choice text is then the P1 answer, and its usage is the input and output token counts. Every failure of the shared steps propagates unchanged |
| P1Llm.StreamAnswer | metagpt/provider/p1llm_api.py:103-110 | the stream path succeeds under the same conditions as the shared steps and returns the P1 answer. Each of its failures is the shared steps' failure |
| P1Llm.PlainAndStreamAgree | metagpt/provider/p1llm_api.py:59-110 | the plain path's success implies the stream path's, with the same text. The two fail alike before the token counts. Given a stream success, the plain path succeeds iff both token counts are present |
| P1Llm.BothPathsPostTheSameBody | metagpt/provider/p1llm_api.py:51-110 | both paths post the same non-streaming body and, when the plain path succeeds, agree on the answer |

## Left out

- `ConductResearch` is left out because it is a single completion call on a formatted template, with no control logic.
- Prompt templates are modelled as string concatenation of their fixed parts. `format` placeholders other than the ones filled are not modelled.
- Search.Show: the `repr` of a search-result dictionary always puts single quotes around each string and escapes nothing. Python's `repr` uses double quotes for a string that contains `'` and no `"`, and otherwise escapes quotes and backslashes; the model does neither.
- `_search_and_rank_urls` ignores its search engine and uses a hard-coded list of five results. The model takes the candidate list as a parameter (`candidates`) instead of fixing those five.
- `asyncio.gather` and the sequential `await`s are modelled as an in-order map; concurrency and cancellation are left out.
- `reduce_message_length`'s token counting is a parameter. Its `fits` predicate stands for "prompt plus system text within the model's budget".
- The chunker `generate_prompt_chunk`, `OutputParser.extract_struct` with `TypeAdapter` validation, and `json.loads` are parameters. Their own parsing is not modelled.
- The ranker's unconditional `indices = [0]` is the `forceFirst` flag. The code as written always has it on. The model keeps the other branch so the fallback ordering can be stated.
- Ranking.RankUrls: the `|r| ≤ n` bound is stated only for `n ≥ 0`. A negative `n` is Python's negative slice (`Ranking.TakePrefix` covers it). With a `rank_func` hook, the links are stated only as those of the hook's reordering (`Ranking.RankedByIndices`), because the hook is arbitrary caller code.
- Logging (`logger`, `log_llm_stream`) and cost accounting (`_update_costs`, `TokenCostManager`) are left out as output. One effect of logging is kept: both paths append `"/n"` to the answer before logging it, which raises when the answer is not a string. The model reports that as `AnswerNotText`.
- The HTTP client, URL suffix, headers, timeouts and byte decoding are folded into the `post` parameter, which returns the body text.
- Python's `assert` in `get_choice_text` is modelled as an error result. Running with assertions disabled is not modelled.
- The spreadsheet library and the file handling of the 5W1H converter (`Workbook`, `append`, `save`, `print`) are left out. The sheet is the returned list of rows, and the report is a list of lines as `readline` returns them.
- Provider construction (`__init__`, configuration checks) is not modelled.
- The other example scripts, roles and drivers that call these actions are not part of this model.
