# yt-financial-report-summariser, modelled in Dafny

The system watches a fixed list of YouTube channels. For each new video
whose title names a known company, it fetches a transcript and asks a
language model for a structured summary. It then posts the summary to
Slack and records the video as visited. A second script sends spreadsheet
rows to Slack once each, using a persisted log of what was already sent.
The Streamlit front end also renders a summary as a plain-text report.

The model covers the sequential logic between the external services.
Each service (RSS feed, caption API, yt-dlp, Whisper, the chat endpoint,
`json.loads`, spaCy noun chunks, the fuzzy scorer, Slack) is a function
value that either answers or fails.

| file | module | what it models |
|---|---|---|
| `base.dfy` | `Base` | `Option`, `Result`, the Python exception kinds, `list(set)` without repetitions |
| `text.dfy` | `Text` | `str.lower`, `split`, `join`, `strip`, `title`, `replace` on ASCII text |
| `json.dfy` | `Json` | decoded JSON values, Python truthiness, `dict.get`, iteration, `str()` |
| `set_store.dfy` | `SetStore` | the JSON files holding the visited set and the sent log (a `class` whose state is written in place) |
| `company_detection.dfy` | `CompanyDetection` | `load_company_data`, `extract_company_names` |
| `slack_summary.dfy` | `SlackSummary` | `format_summary_for_slack` |
| `transcription.dfy` | `Transcription` | `extract_video_id`, `get_transcript` and its file clean-up |
| `prompt_format.dfy` | `PromptFormat` | the subset of `str.format` the prompt template relies on |
| `summarization.dfy` | `Summarization` | `summarise_with_gpt` (the retry loop), `generate_summary` |
| `text_report.dfy` | `TextReport` | `create_text_report` |
| `sent_log.dfy` | `SentLog` | `build_message`, `send_summary_report` and its deduplication |
| `poll_loop.dfy` | `PollLoop` | `fetch_latest_videos`, the per-video pipeline and the visited-set policy of `main` |

Step-by-step code is written as methods. Each method is proved equal to a
specification function over the inputs or the old state. The properties
the code promises are lemmas about those functions. Examples of such
methods are the poll loop, the Slack and report line builders, the retry
loop, the transcript fallback and the sent-log loop. Pure code is written
as functions: video-id parsing, company data loading and prompt
formatting.

The poll cycle is specified by a fold, `PollLoop.Run`, over the cycle's
videos. Its step takes the per-video outcomes from a `World` value: the
companies found for a video and the result of its `try` block.
`PollLoop.WorldOf` builds that value from the services. Lemmas about the
visited set therefore hold for any outcome of the pipeline.

## Model

| member | source | states |
|---|---|---|
| CompanyDetection.DropMissing | auto.py:60 | a name survives exactly when its cell is present |
| CompanyDetection.DropMissingOne | auto.py:60 | a present cell gives its name and a missing cell gives nothing |
| CompanyDetection.DropMissingAppend | auto.py:60 | the names of two runs of cells are those of the first then those of the second, so `dropna().tolist()` keeps file order and one entry per present cell |
| CompanyDetection.ZipToMap | auto.py:62 | the keys of `dict(zip(...))` are exactly the lower-cased names |
| CompanyDetection.ZipPicksLast | auto.py:62 | on a repeated key the map holds the value paired with its last occurrence |
| CompanyDetection.LoadCompanyData | auto.py:56-69 | a missing file or missing `Company Name` column gives empty data; otherwise the lowered list of present names; every map key is a listed name and maps to a name that lowers to it |
| CompanyDetection.CollidingNamesLastWins | auto.py:60-62 | a name with no later name colliding after lowering is what its lowered key maps to, so the last of colliding names wins |
| CompanyDetection.RemoveStopWords | auto.py:103 | the kept words are exactly the words that are not financial stop words |
| Text.WordsOfJoin | auto.py:106 | splitting the space-joined kept words gives them back |
| Text.Strip | utils/summarization.py:78 | no whitespace at either end; empty iff the text is blank; otherwise a slice of the text with only whitespace around it |
| CompanyDetection.Query | auto.py:95-106 | a chunk is dropped iff it has more than 5 words, fewer than 3 characters, or only stop words; otherwise the query is non-empty, stop-word free and made of the chunk's lowered words |
| CompanyDetection.Contribution | auto.py:109-115 | a chunk contributes a name iff it yields a query and the scorer's best match scores at least 85; the name is the map's entry for the scorer's chosen lower-cased name |
| CompanyDetection.ContributionIsChoice | auto.py:109-115 | when every key of the name map (auto.py:62) maps to a spelling that lower-cases to it, as loaded, the reported name lower-cases to the scorer's choice |
| CompanyDetection.Contributions | auto.py:94-115 | one possible contribution per noun chunk, position for position |
| CompanyDetection.DetectedAreReferenceNames | auto.py:88-115 | every detected company is a value of the name map |
| CompanyDetection.DetectedComesFromChunk | auto.py:94-115 | each detected company is the contribution of some noun chunk |
| CompanyDetection.ContributionIsDetected | auto.py:94-115 | each chunk's contribution is detected |
| CompanyDetection.DetectedStep | auto.py:94-115 | one more chunk adds exactly its contribution, if any, to the detected set |
| CompanyDetection.ScoreChunk | auto.py:95-115 | one pass of the chunk loop produces the chunk's query and its contribution |
| CompanyDetection.Queries | auto.py:94-109 | one scorer call per chunk that survives the filters and none for the others: the count is the number of surviving chunks, each query is some chunk's, and every surviving chunk's query is among them |
| CompanyDetection.QueriesInOrder | auto.py:94-109 | the chunks are scored in order: a surviving chunk's query sits right after the queries of the surviving chunks before it |
| CompanyDetection.CompanyList | auto.py:80-117 | empty reference list gives `[]`; otherwise exactly the detected companies, without duplicates, all values of the name map |
| CompanyDetection.ExtractCompanyNames | auto.py:80-117 | the loop's result is `CompanyList`; with an empty reference list nothing is scored; otherwise exactly the chunks' queries are scored |
| SlackSummary.CompaniesLines | auto.py:125-126 | the companies line appears iff there are companies |
| SlackSummary.Shown | auto.py:130 | the test passes iff the value is a string that is not blank and not `n/a` in any case; a truthy non-string raises AttributeError |
| SlackSummary.BlockSection | auto.py:129-131 | the executive-summary or outlook block is emitted iff its value is a showable string, as heading, text and blank; errors exactly for a truthy non-string |
| SlackSummary.FinancialsSection | auto.py:134-146 | nothing for a falsy or `"N/A"` value; AttributeError exactly for any other non-dict; for a dict exactly the heading, the lines of its entries in order, and a blank line |
| SlackSummary.SectionLinesEntry | auto.py:137-145 | an entry with a listed value gives its `• *Title*` line at the offset after the lines of the entries before it, followed by its detail block |
| SlackSummary.SectionLinesSkip | auto.py:138 | an entry whose value is falsy or `"N/A"` adds no line |
| SlackSummary.DetailLinesAppend | auto.py:141-143 | the detail lines of two runs of fields are the detail lines of each, one after the other |
| SlackSummary.DetailLinesEntry | auto.py:141-143 | there is one detail line per listed field; a listed field gives `    - Title: value` at the offset counting the listed fields before it |
| SlackSummary.DetailLineSource | auto.py:141-143 | every detail line is the line of a listed field, the one at that count of listed fields before it, so there are no other lines |
| SlackSummary.BulletsAreShowableItems | auto.py:152-154 | a bullet for `x` is emitted iff `x` is an item and is showable |
| SlackSummary.ListSection | auto.py:149-155 | nothing for a falsy list or `["N/A"]`; otherwise TypeError iff the value cannot be iterated, AttributeError iff some item is a truthy non-string, and a section iff some item has text and none raises: the heading, the showable items' bullets, then a blank line |
| SlackSummary.ChainOutcome | auto.py:129-169 | the sections fail iff one of them raises, with that section's error; otherwise earlier lines are kept as a prefix |
| SlackSummary.ChainFirstError | auto.py:129-169 | the error reported is the first section's that raises, and all sections before it succeed |
| SlackSummary.SummarySections | auto.py:129-169 | a non-dict summary raises AttributeError; on a dict, the five sections chained in order, failing iff one of them fails and with one of their errors |
| SlackSummary.SlackLines | auto.py:120-169 | succeeds iff the sections do; always starts with the channel/URL and title lines, then the companies line iff any, then the sections |
| SlackSummary.AppendDetails | auto.py:141-143 | the inner loop appends exactly the detail lines |
| SlackSummary.AppendEntry | auto.py:138-145 | one financial entry appends its entry lines |
| SlackSummary.AppendSections | auto.py:137-145 | the loop over `key_financials` appends the lines of every entry in order |
| SlackSummary.AppendFinancials | auto.py:134-146 | the financials block appended or its error, as `FinancialsSection` |
| SlackSummary.AppendBlock | auto.py:129-131 | the executive-summary or outlook block appended or its error, as `BlockSection` |
| SlackSummary.ScanForText | auto.py:150 | the `any(...)` scan raises only when a non-string is reached, and says whether a non-blank string item exists |
| SlackSummary.AppendBullets | auto.py:152-154 | the item loop raises iff an item is a truthy non-string, else appends the bullets |
| SlackSummary.AppendList | auto.py:149-155 | the initiatives or risks block appended or its error, as `ListSection` |
| SlackSummary.AppendSummary | auto.py:128-169 | the five sections appended in order, stopping at the first error |
| SlackSummary.FormatSummaryForSlack | auto.py:120-171 | the text is the newline join of `SlackLines`, or the error raised |
| Transcription.FindMatch | utils/transcription.py:10 | the leftmost position from `from` where the marker is followed by an id character, or none |
| Transcription.IdEnd | utils/transcription.py:10 | the run after the marker stops at the first `&`, `#` or the end |
| Transcription.ExtractVideoId | utils/transcription.py:8-15 | the id after the leftmost `v=`; the `be/` rule only when `v=` never matches; None iff neither matches; any id is non-empty and free of `&` and `#` |
| Transcription.UniqueLeftmost | utils/transcription.py:10 | the leftmost match is unique |
| Transcription.Acquire | utils/transcription.py:18-59 | ValueError, before any call, exactly for a URL without a video id; otherwise the attempt of `AcquireFor` on that id |
| Transcription.AcquireFor | utils/transcription.py:28-59 | captions first, joined with spaces, ending the attempt; any caption failure falls back to download then transcribe; without captions the result succeeds iff the download and the transcription both succeed, and is then the transcription's text; a failed download makes exactly the caption and download calls and leaves no audio; a successful one is followed by the transcription call; fallback failures are RuntimeError; the audio file is removed iff transcription succeeded after a download |
| Transcription.GetTranscript | utils/transcription.py:18-59 | the method's result, calls and files on disk match `Acquire` |
| Transcription.TranscriptFor | utils/transcription.py:28-59 | the caption attempt and its fallback, as run on a valid id, match `AcquireFor`, disk included |
| PromptFormat.FormatPlain | utils/summarization.py:61 | text without braces is copied through by `format` |
| PromptFormat.FormatEscaped | utils/summarization.py:61 | doubled braces format back to the original text |
| PromptFormat.FormatField | utils/summarization.py:61 | a `{text}` field is replaced by the argument |
| PromptFormat.EscapedAlone | utils/summarization.py:61 | an escaped text formats back to itself, whatever the argument |
| PromptFormat.FormatStrayBrace | utils/summarization.py:61 | a field opened by `{` and a newline makes `format` raise |
| PromptFormat.RawTemplateRaises | utils/summarization.py:12-49 | a template with `{text}` followed later by a single `{` of the JSON example cannot be formatted, whatever the transcript |
| PromptFormat.EscapedTemplateFormats | utils/summarization.py:12-49 | with literal braces doubled, formatting puts the transcript in the slot and keeps the rest verbatim |
| Summarization.FirstSuccess | utils/summarization.py:73-78 | the first successful attempt in the range, with all earlier ones failed; none iff every attempt fails |
| Summarization.Attempts | utils/summarization.py:73-82 | at most `max_retries` attempts; the stripped content of the first success, every earlier attempt failed and none made after it; None iff every allowed attempt failed, after all were made |
| Summarization.Summarise | utils/summarization.py:51-82 | no key: None and no request; unformattable prompt: raises before any request; otherwise the attempt loop of `Attempts` on the formatted prompt |
| Summarization.SummariseWithGpt | utils/summarization.py:51-82 | the method returns the reply and attempt count of `Summarise` |
| Summarization.AttemptLoop | utils/summarization.py:73-82 | the `for attempt in range(max_retries)` loop returns the reply and attempt count of `Attempts` |
| Summarization.Summary | utils/summarization.py:85-101 | every failure is RuntimeError, including a bad template and a missing key; a summary is returned exactly when the chat loop returns non-empty content that parses, and it is that parse |
| Summarization.GenerateSummary | utils/summarization.py:85-101 | the method's result is `Summary` |
| Summarization.AnalystPromptAlwaysFails | utils/summarization.py:89-101 | with the analyst prompt as written, `generate_summary` raises RuntimeError for every transcript and makes no request |
| Summarization.EscapedPromptIsSent | utils/summarization.py:61-82 | with the corrected prompt, formatting never raises and the attempt loop runs on the prompt holding the transcript |
| TextReport.Repeat | utils/report_generator.py:7 | `c * n` has length `n` and only `c` |
| TextReport.RulesAreRepeats | utils/report_generator.py:7-10 | the title rule is thirty `=` and a newline, the section rule twenty `-` |
| TextReport.TextLine | utils/report_generator.py:11 | a missing key reads `"N/A"`, a present string is itself plus a newline; succeeds iff missing or a string; a non-string raises TypeError |
| TextReport.DictLines | utils/report_generator.py:16-18 | one `- metric: value` line per entry, in order |
| TextReport.ListLines | utils/report_generator.py:19-25 | one line per item plus one per dict item; with no dict items, exactly the `- item` lines |
| TextReport.ListLinesAppend | utils/report_generator.py:19-25 | the lines of two runs of items are the lines of each run, in order |
| TextReport.ListLinesEntry | utils/report_generator.py:20-25 | item `i` contributes its own entry lines (metric/value and commentary with `N/A` defaults for a dict, one `- item` line otherwise) at position `i` plus the number of dict items before it |
| TextReport.ItemLines | utils/report_generator.py:32-33 | exactly one `- item` line per item, in order |
| TextReport.FinancialLines | utils/report_generator.py:15-27 | a dict gives exactly its `- metric: value` lines, a list exactly the entry lines of its items, anything else the single "No key financials available." |
| TextReport.ReportLines | utils/report_generator.py:3-45 | a non-dict summary raises AttributeError; on a dict it fails only with TypeError, and succeeds iff the executive summary and outlook are missing or strings and both lists can be iterated; the lines are then the title, the five headings with their rules, the executive line, the financial lines, the initiative and risk items and the outlook line, in the source's order |
| TextReport.ReportBeginsWithTitle | utils/report_generator.py:5-45 | the report opens with the title line and the 30-`=` rule, then the other lines joined by newlines |
| TextReport.HeadingsInOrder | utils/report_generator.py:9-43 | the five headings in fixed order, each followed by the 20-`-` rule; missing executive summary or outlook shows `N/A` |
| TextReport.AssembledHeadings | utils/report_generator.py:5-43 | where the headings and the executive/outlook lines sit among the assembled lines |
| TextReport.CreateTextReport | utils/report_generator.py:3-45 | the method's text is `Report`, the newline join of `ReportLines` (whose contents are stated there) |
| TextReport.AppendReport | utils/report_generator.py:5-44 | the appends on a dict, stopping at the first TypeError, produce `ReportLines` |
| TextReport.AppendOpening | utils/report_generator.py:5-31 | the appends up to the Strategic Initiatives rule: TypeError iff the executive summary is a present non-string, otherwise title, executive line and financial lines in order |
| TextReport.AppendFinancials | utils/report_generator.py:15-27 | the financials branch appends `FinancialLines` |
| TextReport.AppendDict | utils/report_generator.py:16-18 | the dict loop appends `DictLines` |
| TextReport.AppendList | utils/report_generator.py:19-25 | the list loop appends `ListLines` |
| TextReport.AppendEntry | utils/report_generator.py:21-25 | one list entry appends `EntryLines` |
| TextReport.AppendItems | utils/report_generator.py:32-33 | the item loop appends `ItemLines` |
| SetStore.JsonSetFile.LoadVisited | auto.py:45-49 | a missing file is the empty set, a stored list its set of strings, an unreadable file raises |
| SetStore.JsonSetFile.LoadSentLog | results.py:27-35 | a missing or unreadable file is the empty set, a stored list its set of strings |
| SetStore.JsonSetFile.Save | results.py:38-41 | the file holds the set without repetitions, reloads as the same set, one more write |
| SentLog.MessageLines | results.py:44-68 | two to six lines, always starting with the title-link and channel lines |
| SentLog.MarksAppend | results.py:54-66 | the marks of two runs of lines are the marks of each, in order |
| SentLog.LayoutMarks | results.py:54-66 | the marks of the message layout: title and channel, then each optional line iff its cell is truthy |
| SentLog.OptionalLinesInOrder | results.py:54-66 | the lines are title, channel, then companies, ISIN, sector, summary each iff truthy, in that order |
| SentLog.AppendMessageLines | results.py:54-66 | the appends produce `MessageLines` |
| SentLog.AppendIf | results.py:58-59 | an append happens iff the cell is truthy |
| SentLog.BuildMessage | results.py:44-68 | the message is the newline join of `MessageLines` |
| SentLog.UnloggedRowIsSent | results.py:85-93 | every row whose key is not in the loaded log is sent |
| SentLog.SentComesFromUnloggedRow | results.py:85-93 | every message sent is that of a row whose key is not in the loaded log |
| SentLog.RepeatedKeySentEachTime | results.py:83-93 | two rows with the same new key are both sent, since the loaded log is checked, not the growing copy |
| SentLog.RerunSendsNothing | results.py:82-96 | after the saved log is loaded again, the same rows send nothing |
| SentLog.SubsetLogSendsNothing | results.py:86-88 | when the rows send nothing against a log, they send nothing against any larger log |
| SentLog.SendRow | results.py:85-93 | a logged row is skipped; any other row's message is posted when a webhook is set; the key joins the new log |
| SentLog.SendRows | results.py:82-95 | the posts are the unlogged rows' messages when a webhook is set; the new log is the loaded log plus every row's key |
| SentLog.SendSummaryReport | results.py:71-97 | a missing or empty sheet returns without touching the log; otherwise the posts are as in `SendRows` and the log is saved once as loaded log plus every key, whether or not delivery happened |
| PollLoop.Latest | auto.py:34 | at most `max_videos` entries, the feed's first ones |
| PollLoop.Pipeline | auto.py:188-196 | completes iff the transcript, the summary and the Slack text all succeed and, with a webhook, the post returns; posts iff a webhook is set and those three succeed, and then posts exactly the Slack text; the audio effect is the transcript's |
| PollLoop.ShippedTemplateNeverCompletes | auto.py:188-196 | with the analyst prompt as shipped, the `try` block never completes and posts nothing |
| PollLoop.CorrectedTemplateSendsPrompt | auto.py:188-190 | with the prompt's braces doubled and a key set, every video whose transcript was obtained is sent to the chat endpoint as the prompt with its transcript in the slot |
| PollLoop.Step | auto.py:178-196 | a visited URL is skipped unchanged; a video with no company is skipped and not marked; otherwise it is marked iff its `try` block completes; posts only grow, by at most one |
| PollLoop.RunVisited | auto.py:176-196 | after a cycle, visited is the old set plus exactly the URLs whose processing completed |
| PollLoop.SucceededWitness | auto.py:188-193 | each newly visited URL comes from a video whose processing completed |
| PollLoop.SucceededMember | auto.py:188-193 | each completed video's URL is marked |
| PollLoop.RunKeepsPosts | auto.py:176-196 | a cycle keeps earlier posts and posts at most once per video |
| PollLoop.RunConcat | auto.py:176-178 | running over two lists of videos is running over the first and then the second |
| PollLoop.ShippedCycleChangesNothing | auto.py:176-196 | with the analyst prompt as shipped, a cycle marks no video visited and posts nothing |
| PollLoop.ProcessVideo | auto.py:188-194 | the method's completion, posts and disk effect are those of `Pipeline` |
| PollLoop.PollVideo | auto.py:178-196 | the method's visited set, posts and files are `Step` |
| PollLoop.PollChannel | auto.py:176-196 | one channel's videos processed as `Run` |
| PollLoop.PollChannels | auto.py:176-196 | all channels' videos processed in channel order as `Run` |
| PollLoop.PollCycle | auto.py:176-197 | a cycle is `Run` over all channels' videos, and the visited set is saved exactly once, reloading as the new set |
| PollLoop.Poll | auto.py:173-198 | an unreadable visited file raises before anything happens; otherwise visited only grows and is saved once per pass |

## Left out

- app.py (the Streamlit UI) is not part of this model; it has no logic of its own.
- The `PDF` class and `create_pdf_report`: fpdf rendering and latin-1 encoding are library behaviour.
- Network and media I/O are oracles that answer or fail: the Slack post, the OpenAI request, feedparser, the caption API, yt-dlp and Whisper. `PollLoop.Pipeline` takes the Slack post as a function that returns or raises.
- Foreign algorithms are oracles: spaCy noun chunks, thefuzz's `extractOne`, `json.loads`. Of the scorer only its contract is used: it answers with a listed name and a score in [0, 100].
- CompanyDetection.ExtractCompanyNames: the order of `list(set)` is an oracle that lists a set without repetition. The model does not fix that order.
- The `while True` loop and `time.sleep(600)`: `PollLoop.Poll` runs a given number of passes, and the services may differ per pass.
- The 5-second sleep between attempts and the 2-second sleep between rows: no effect on the outcome.
- `@st.cache_data` memoisation of `get_transcript`.
- Exception messages, logging, `print` and `st.warning`: only the kind of error is modelled.
- Text.Lower, Text.Words, Text.Strip, Text.Title: ASCII only. Whitespace is what `str.isspace` accepts below 128; there is no Unicode case mapping.
- Json.Str: `str()` of non-string JSON values is an oracle `show`. JSON numbers are integers. Duplicate keys collapsed by `json.loads` are not modelled; lookups take the first field.
- PromptFormat.Format: format specs, conversions, attribute and index access, and positional fields are all treated as raising. Only `{{`, `}}` and a `{text}` field are formatted. The prompt relies on nothing more.
- SentLog: spreadsheet cells are text or NaN. Numeric and date cells, and errors from `read_excel`, are not modelled.
- PollLoop.Services: the analyst prompt's text is not written out as a constant. Its shape is a hypothesis of the lemmas about it: no brace before the `{text}` slot, and a `{` followed by a line break after it, with no brace in between.
- Transcription.AcquireFor: `os.remove` always succeeds. A removal that raises (utils/transcription.py:55) is not modelled; it would turn a successful transcription into RuntimeError.
- SetStore.JsonSetFile: a stored file holds a list of strings or cannot be read. `set(json.load(f))` of a JSON object (its keys) or a string (its characters) is not modelled.
- CompanyDetection.LoadCompanyData: CSV cells are text or missing. Numeric cells, and read errors other than a missing file or column, are not modelled.
- `fetch_latest_videos` entries are (link, title) pairs; an entry without a link or title is not modelled.

Facts of the code that the model keeps:
- a video skipped because no company is found is not added to the visited set, so it is looked at again next cycle (auto.py:182-185);
- the downloaded audio is removed only after a successful transcription (utils/transcription.py:51-55);
- the similarity threshold is 85 (auto.py:13);
- a row is skipped only when its key is in the log loaded at the start (results.py:87), so two rows with the same new key in one run are each sent.

## Findings

| source | as written | input that shows it | evidently intended | confidence | as-written member | corrected member |
|---|---|---|---|---|---|---|
| utils/summarization.py:12-49 | the analyst prompt is used as a `str.format` template, but its JSON example keeps single `{` and `}` after the `{text}` slot, so `PROMPT_TEMPLATE.format(text=text)` at line 61 raises and `generate_summary` turns it into RuntimeError | any transcript, with an API key set | the example's braces doubled, so that formatting inserts the transcript and the request is sent; otherwise no video is ever summarised, posted or marked visited by `main` | not executed | Summarization.AnalystPromptAlwaysFails | PromptFormat.EscapedTemplateFormats |

`PromptFormat.RawTemplateRaises` holds the as-written formatting failure.
`Summarization.EscapedPromptIsSent` shows the corrected prompt reaching
the chat endpoint. The poll loop takes the template as a service
(`PollLoop.Services.template`); `PollLoop.ShippedCycleChangesNothing` shows
that with the shipped prompt `main` marks nothing visited and posts
nothing, and `PollLoop.CorrectedTemplateSendsPrompt` shows the corrected
prompt reaching the chat endpoint from the poll loop.
