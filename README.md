# Stock analysis agents: the deterministic core

The stock analysis agents repository builds a team of LLM agents (crewai) that research a stock symbol and write an investment report. Most of the repository is glue around hosted services. This project models the few pieces of deterministic logic inside that glue and proves properties of them:

- **Search result formatter** (`SearchTools.search_internet` and `SearchTools.search_news`). It takes the first four results of a Serper reply. Each result holding a title, a link and a snippet becomes a fixed text block, and results missing one of them are skipped. The blocks are joined with newlines, and any exception becomes an error string. Module `SearchTools` in `search_tools.dfy`.
- **Reddit sentiment tally**. `analyze_sentiment` picks the label at the classifier's first maximum, or returns an error string. `get_reddit_posts` keeps the titles of posts inside an inclusive thirty-day window. `reddit_sentiment_analysis` runs a three-bucket counter over every post of every subreddit. Module `SentimentAnalysis` in `sentiment_analysis_tool.dfy`.
- **Run configuration and naming** (`crew.py`). This covers the `initialize_llm` model table and the agents, tool lists and task order `create_crew` builds. It also covers the three report paths, the token-usage appendix of the log, and the sequence of file writes `create_crew` performs. Module `Crew` in `crew.dfy`.

Module `Text` in `text.dfy` holds the Python string behaviour the other modules rely on:

- `'\n'.join` as `Join`;
- `str.split('\n')` as `Lines`;
- the decimal rendering of an integer in an f-string as `NatStr`.

Each also has a reading-back function with round-trip lemmas.

External services are parameters of the model:

- the Serper reply is a decoded `Response`;
- the Reddit search is a function from (subreddit, symbol, limit) to a `Search`, carrying the clock reading `now`;
- the sentiment classifier is a function from text to `Scores`;
- `crew.kickoff` is a function from the crew and the symbol to a `Run`;
- markdown2 and weasyprint are functions from text to text;
- the date is a string.

The files `create_crew` writes are a `ResultFiles` object whose `files` map the methods update in place.

The two search tools, the tally and `create_crew` are methods with loops or sequences of updates. Each is proved to compute a specification function (`SearchReply`, `Tally(AllLabels(..))`), or to leave the file map in a stated state. The properties the code promises are then proved about those functions as lemmas.

## Model

| member | source | states |
|---|---|---|
| SearchTools.Search | tools/logging_attempts/search_tools.py:16-44 | The loop over the first four results computes `SearchReply`: a failed request or a missing list gives the error prefix plus the exception text; an entry that is not an object aborts with the error prefix; otherwise the blocks of complete entries, joined with newlines. |
| SearchTools.SearchInternet | tools/logging_attempts/search_tools.py:13-44 | `search_internet` is the shared formatter reading the `organic` list. |
| SearchTools.SearchNews | tools/logging_attempts/search_tools.py:47-78 | `search_news` is the same formatter reading the `news` list, and nothing else differs. |
| SearchTools.OnlyTopFourMatter | tools/logging_attempts/search_tools.py:32 | Results after the fourth never change the reply, even when some of the first four are skipped. |
| SearchTools.AtMostFourBlocks | tools/logging_attempts/search_tools.py:17-41 | A reply holds at most four blocks. |
| SearchTools.TopBlockSource | tools/logging_attempts/search_tools.py:32-37 | Every block of a reply is the block of one complete entry among the first four results. |
| SearchTools.BlockSource | tools/logging_attempts/search_tools.py:32-37 | Every block comes from a complete entry of the list; nothing is invented. |
| SearchTools.BlocksAtMostEntries | tools/logging_attempts/search_tools.py:32-37 | There are never more blocks than entries. |
| SearchTools.BlocksConcat | tools/logging_attempts/search_tools.py:31-41 | Blocks keep the order of their entries: the blocks of a concatenation are the blocks of each part, in order. |
| SearchTools.SkippedEntryContributesNothing | tools/logging_attempts/search_tools.py:33-39 | An entry missing the title, link or snippet contributes no block, and the entries after it are still rendered. |
| SearchTools.FirstTypeErrorConcat | tools/logging_attempts/search_tools.py:32-39 | The first non-object entry of a concatenation is the first one of the first part that has one, so the loop stops at the earliest. |
| SearchTools.BlockLines | tools/logging_attempts/search_tools.py:34-37 | A block splits into exactly five lines: `Title: t`, `Link: l`, `Snippet: s`, an empty line and the dashes. |
| SearchTools.EmptyReply | tools/logging_attempts/search_tools.py:31-41 | The reply is the empty string if and only if no non-object entry and no complete entry is among the first four. |
| SearchTools.ParseBlocksOfEntries | tools/logging_attempts/search_tools.py:32-37 | Reading the lines of the blocks back gives the title, link and snippet of every complete entry, in order. |
| SearchTools.HitsEmptyWithBlocks | tools/logging_attempts/search_tools.py:32-37 | There are no blocks if and only if there are no complete entries. |
| SearchTools.ReplyRoundTrip | tools/logging_attempts/search_tools.py:31-41 | Reading a successful reply back gives exactly the title, link and snippet of each complete entry among the first four, in order. |
| SearchTools.MissingListReply | tools/logging_attempts/search_tools.py:30-44 | A body without the list a tool reads gives exactly `An error occurred during the search: '<key>'`, whatever other lists the body holds; this holds for `organic` and `news` alike. |
| SentimentAnalysis.ArgMax | tools/logging_attempts/sentiment_analysis_tool.py:26 | The index is a position of a largest score and no earlier score is as large (numpy returns the first maximum). |
| SentimentAnalysis.AnalyzeSentimentLabel | tools/logging_attempts/sentiment_analysis_tool.py:17-30 | A text gets one of the three labels if and only if the classifier produced scores whose first maximum lies among the first three; the label is the one at that maximum; every other outcome is a string starting with the `analyzing sentiment` error prefix. |
| SentimentAnalysis.AnalyzeSentiment | tools/logging_attempts/sentiment_analysis_tool.py:17-30 | `analyze_sentiment` returns one of the three counter keys or a string starting with the `analyzing sentiment` error prefix, never anything else. |
| SentimentAnalysis.ErrorTextIsNoKey | tools/logging_attempts/sentiment_analysis_tool.py:28-30 | A string carrying the `analyzing sentiment` error prefix is never a counter key. |
| SentimentAnalysis.RedditPosts | tools/logging_attempts/sentiment_analysis_tool.py:43-54 | The result of one search is the `get_reddit_posts` error text if and only if the search raised, and that text starts with the error prefix. |
| SentimentAnalysis.GetRedditPosts | tools/logging_attempts/sentiment_analysis_tool.py:32-54 | The filter loop returns the titles of the posts inside the window in search order, or the `get_reddit_posts` error prefix plus the exception text; `days` plays no part. |
| SentimentAnalysis.RecentTitlesExactly | tools/logging_attempts/sentiment_analysis_tool.py:43-51 | A title is kept if and only if some post inside the window carries it; at most one title per post is kept. |
| SentimentAnalysis.RecentTitlesConcat | tools/logging_attempts/sentiment_analysis_tool.py:46-51 | The filter keeps search order: filtering a concatenation filters each part in turn. |
| SentimentAnalysis.WindowIsInclusive | tools/logging_attempts/sentiment_analysis_tool.py:43-49 | Posts exactly thirty days old and exactly current are kept; one second outside either end is dropped. |
| SentimentAnalysis.Classified | tools/logging_attempts/sentiment_analysis_tool.py:80-81 | One label per text walked over. |
| SentimentAnalysis.RedditSentimentAnalysis | tools/logging_attempts/sentiment_analysis_tool.py:57-89 | The nested loops updating the counter in place compute `Tally` of every label over every subreddit in order: the counts, or the error at the first label that is not a key. |
| SentimentAnalysis.RedditSentimentAnalysisDefaults | tools/logging_attempts/sentiment_analysis_tool.py:57 | Called with only a stock symbol, the tool tallies the subreddits wallstreetbets, stocks and investing in that order, with a limit of 100 posts each. |
| SentimentAnalysis.TallyStep | tools/logging_attempts/sentiment_analysis_tool.py:81-83 | One turn of the inner loop adds one to the bucket of the new label and keeps the counter equal to the counts of the labels seen. |
| SentimentAnalysis.CountsStep | tools/logging_attempts/sentiment_analysis_tool.py:83 | Each processed post adds one to its own bucket and leaves the other two unchanged. |
| SentimentAnalysis.CountsKeys | tools/logging_attempts/sentiment_analysis_tool.py:71 | The counter always has exactly the keys neutral, negative and positive. |
| SentimentAnalysis.UnknownLabelStops | tools/logging_attempts/sentiment_analysis_tool.py:81-89 | The first post whose label is not a key ends the whole call with the `KeyError` text of that label. |
| SentimentAnalysis.LabelsSoFarPrefix | tools/logging_attempts/sentiment_analysis_tool.py:73-82 | The labels up to any post of any subreddit begin the labels of the whole call. |
| SentimentAnalysis.FirstUnknownConcat | tools/logging_attempts/sentiment_analysis_tool.py:73-83 | The first unknown label of two runs of posts is the one in the first run, if it has one. |
| SentimentAnalysis.FirstUnknownOfPrefix | tools/logging_attempts/sentiment_analysis_tool.py:80-83 | A label that is not a key, after only known labels, is the first unknown label of everything that follows. |
| SentimentAnalysis.AllLabelsPrefix | tools/logging_attempts/sentiment_analysis_tool.py:73-83 | The labels of the first subreddits are a prefix of the labels of all of them. |
| SentimentAnalysis.NoLabelsNoCounts | tools/logging_attempts/sentiment_analysis_tool.py:71 | The counter starts with exactly the three keys, all zero. |
| SentimentAnalysis.CountsAddUp | tools/logging_attempts/sentiment_analysis_tool.py:73-83 | On success the three counts add up to the number of labels. |
| SentimentAnalysis.AllLabelsCount | tools/logging_attempts/sentiment_analysis_tool.py:73-81 | There is one label per text walked over, across all subreddits. |
| SentimentAnalysis.TallyAddsUp | tools/logging_attempts/sentiment_analysis_tool.py:71-86 | A successful tally has exactly the three keys, and its counts add up to the number of posts processed across all subreddits. |
| SentimentAnalysis.TallyErrorIffUnknownLabel | tools/logging_attempts/sentiment_analysis_tool.py:83-89 | The tally is an error if and only if some label is not a key; the error names the first such label, and no partial counts survive. |
| SentimentAnalysis.FirstUnknownFinds | tools/logging_attempts/sentiment_analysis_tool.py:83 | No unknown label is found if and only if all labels are keys; a found one is the earliest unknown label. |
| SentimentAnalysis.NoPostsAllZero | tools/logging_attempts/sentiment_analysis_tool.py:71-86 | With no subreddits, or none yielding a post, every count is zero. |
| SentimentAnalysis.FailedSearchClassifiesCharacters | tools/logging_attempts/sentiment_analysis_tool.py:75-81 | When the search fails, the error string returned at line 54 is walked character by character, and each character is classified as if it were a title. |
| Crew.InitializeLlm | crew.py:33-43 | A model is configured if and only if the option is one of the four; all use temperature 0.1; the OpenAI option uses the OpenAI key and the others the Groq key; anything else is `ValueError("Invalid model option selected")`. |
| Crew.ModelTable | crew.py:34-41 | The four rows: OpenAI gpt-4o-mini, Groq llama3-8b-8192, Groq llama-3.1-70b-versatile, Groq llama-3.1-8b-instant. |
| Crew.OptionModelRoundTrip | crew.py:34-41 | The table is one-to-one: each recognised option names its own model, and the model determines the option. |
| Crew.ReporterHoldsEveryTool | crew.py:55-93 | The reporter's tool set contains every other agent's, and is exactly the union of theirs. |
| Crew.BuildCrew | crew.py:55-168 | The crew has four agents and four tasks; task `i` is owned by agent `i`; every agent uses the one configured model; the process is sequential and caching is on. |
| Crew.TaskOrder | crew.py:96-167 | The tasks run in the order research, technical, fundamental, report, owned by the researcher, the technical analyst, the fundamental analyst and the reporter. |
| Crew.ReportPath | crew.py:188-205 | A report path starts with `./crew_results/` and ends with the dot and the extension; its length is the sum of its parts. |
| Crew.ParseWithExtensionOfPath | crew.py:188 | A report path read back with its own extension gives its symbol and date. |
| Crew.NotOtherExtension | crew.py:188-205 | A report path never reads back under another of the three extensions. |
| Crew.ReportPathRoundTrip | crew.py:185-205 | The `.md`, `.html` and `.pdf` paths each read back to the symbol, date and extension they were made from, so they differ only in extension and never coincide. |
| Crew.ExamplePaths | crew.py:188 | The Markdown path of a sample symbol and date. |
| Crew.UsageAppendix | crew.py:178-181 | The appendix starts with a newline, the `Usage Details:` header and a newline, and ends with a newline. |
| Crew.UsageAppendixLines | crew.py:178-181 | The appendix is an empty line, the header, then the prompt, completion and total token lines in that order, ending with a newline. |
| Crew.UsageRoundTrip | crew.py:176-181 | Reading the appendix back gives the same three token counts. |
| Crew.ResultFiles.Write | crew.py:189-190 | Opening for writing replaces the file's contents with the text; no other file changes. |
| Crew.ResultFiles.Append | crew.py:177-181 | Opening for appending creates a missing file and adds the text at its end; no other file changes. |
| Crew.CreateCrew | crew.py:45-208 | An unknown option returns the `ValueError` before anything is built, run or written. Otherwise the log holds the console output followed by the usage appendix, the `.md` file the report, the `.html` file its HTML rendering and the `.pdf` file the PDF made from that, and the result is the `.md` and `.pdf` paths in that order. |
| Text.NatStr | crew.py:179 | An integer in an f-string is a non-empty run of decimal digits without a leading zero. |
| Text.ParseNatStr | crew.py:179-181 | Decimal rendering reads back to the same number. |
| Text.LinesJoinRoundTrip | tools/logging_attempts/search_tools.py:41 | Splitting a newline join of one-line parts gives the parts back. |
| Text.JoinLinesRoundTrip | tools/logging_attempts/search_tools.py:41 | Joining the lines of a text with newlines gives the text back. |
| Text.LinesOfJoin | tools/logging_attempts/search_tools.py:41 | The lines of a newline join are the lines of each part, one part after the other. |

## Left out

- The Serper HTTP request, the `SERPER_API_KEY` lookup and `response.json()`: the decoded body, or the text of the exception that prevented it, is an input.
- The praw client and `subreddit.search`, including what `limit`, `sort` and `time_filter` mean: the search is a function parameter. Its posts and the current time are its result.
- The HuggingFace tokenizer and model and the float softmax: the classifier is a function parameter returning scores or a failure. Scores are reals, so float rounding and NaN are not modelled.
- `datetime.utcnow`, `datetime.utcfromtimestamp` and `datetime.now`: times are whole seconds since the epoch, and the date is a given string. Fractional seconds are not modelled.
- Logging, `load_dotenv`, environment mutation and `agentops` telemetry: these are I/O. The Reddit and Serper credentials are taken to be set.
- SentimentAnalysis.RedditSentimentAnalysis: the log lines slice the Reddit environment variables with `[:5]` inside the `try`. When one is unset this raises `TypeError`, and the tool returns its error prefix followed by `'NoneType' object is not subscriptable`. The model assumes the variables are set, so it tallies the posts instead.
- SearchTools.Search: the log line slices `SERPER_API_KEY` the same way. An unset key already fails earlier, when the request headers are built, and that failure is the `RequestFailed` input.
- The execution of the crew, LLM calls and the stdout redirect: `kickoff` is a function parameter returning the captured console text, the report and the token usage. An exception raised by the crew itself is not modelled.
- markdown2 and weasyprint: they are function parameters from text to text.
- Agent backstories, `verbose`/`memory` flags and the task descriptions and expected outputs: these are prose handed to the LLM. Agents keep their role, goal, tools and model.
- The `all_sentiments` list in `reddit_sentiment_analysis`: it is appended to but never read.
- `tools/yf_news_tool.py`: it is unused by the rest of the code, and it is not part of this model.
- SearchTools.Search: a result value that is not a string is rendered by Python through `str()`. Fields here are strings only. A body whose list key holds something other than a list is not modelled either.
- SearchTools.Search: the text of a `KeyError` is modelled as the key between single quotes. Python's `repr` escaping of quotes and special characters inside the key is not modelled.
- SentimentAnalysis.RedditSentimentAnalysis: the text of the `KeyError` for an unknown label is modelled the same way, without `repr` escaping.
- SearchTools.ReplyRoundTrip: it holds only when the title, link and snippet of the first four results contain no newline. With a newline in a field the reply cannot be split back unambiguously.
- Crew.ReportPathRoundTrip: it assumes a ten-character date, which is what `%Y-%m-%d` produces for four-digit years.
- Crew.CreateCrew: opening a file can fail, for example with `FileNotFoundError` when `./crew_results/` is missing once the log has been written. markdown2 and weasyprint can raise too. None of these failures is modelled: the disk always accepts a write, and the renderers always return.
- SentimentAnalysis.GetRedditPosts: `datetime.utcfromtimestamp` raises for a timestamp outside the years 1 to 9999, and `get_reddit_posts` then returns its error text. The model treats every timestamp as representable: such a post is only compared with the window, and dropped.
- Crew.ExamplePaths: only the Markdown path is worked out as a sample. The `.html` and `.pdf` paths are covered by Crew.ReportPathRoundTrip.
