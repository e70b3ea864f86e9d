# SLA AI Dashboard — a verified model of its core

The SLA AI Dashboard tracks data-centre documentation tickets that have due dates
(service-level agreements). It has two parts.

- **The ASP.NET web app** (`Program.cs`). It lists the tickets with optional filters. For each
  ticket it computes the number of whole days left until the due date. It also counts the four
  KPI figures (open, due within 7 days, due within 21 days, overdue) and lists the open tickets
  for the reminder flow.
- **The Python AI service.** It runs four agents:
  - `fetch_agent` pulls the open tickets from the web app and normalises their field names.
  - `risk_agent` gives each ticket a risk score and a bucket (Low, Medium, High, Critical),
    then orders the list.
  - `advice_agent` checks each ticket record against the `Ticket` model and derives local
    rule hints. It queries a vector store of runbooks, asks a chat model for a JSON reply,
    and normalises that reply into a `Suggestion`. It also rebuilds the runbook index.
  - `comms_agent` writes the executive summary: the chat model's text, or a template when
    there is no API key.

  The `/summarize` endpoint (`main.py`) chains them: fetch, score, show the top four, advise
  on the first eight, then add the fixed actions and the three aggregate moves.

The model is written in Dafny. Python's dynamic values are modelled explicitly:

- `json.dfy`: decoded JSON as a `Json` datatype, with Python truthiness, `dict.get`, `or`,
  iteration and `str()`.
- `text.dfy`: `str.strip`, `str.lower`, `str.join`, integer rendering and code-point string
  order.
- Exceptions become the `Err` branch of a `Result`.

Each loop in the source is a method with loop invariants. Each such method is proved equal to
a specification function, defined recursively over its input, and the properties are proved
about those functions.

Whatever the model cannot see is passed in as a function-typed parameter:

| parameter | stands for |
|---|---|
| `fetch` | the HTTP call |
| `store` | the vector store |
| `llm`, `chat` | the chat models |
| `chunker` | the markdown chunker |
| `now` | the clock |
| `apiKey`, `aiModel` | the environment variables |

| file | models |
|---|---|
| `base.dfy` | `Option`, the exceptions raised, `Result` |
| `json.dfy` | JSON values as Python sees them |
| `text.dfy` | string operations; string order |
| `seqs.dfy` | `Where`/`Count`, order-preserving filters, loops that stop at the first exception |
| `risk.dfy` | `ai/agents/risk_agent.py` |
| `fetch.dfy` | `ai/agents/fetch_agent.py` |
| `knowledge.dfy` | `retrieve` and `reindex_kb` of `ai/agents/advice_agent.py` |
| `advice.dfy` | the rest of `ai/agents/advice_agent.py` |
| `comms.dfy` | `ai/agents/comms_agent.py` |
| `service.dfy` | `ai/agents/main.py` |
| `dashboard.dfy` | `webapp/SlaDashboard/Program.cs` |

In some places the code does not do what the system is meant to do. The model follows the code:

- **Due today counts as far away.** `daysToDue` comes from `t.get("daysToDue") or ... or 999`.
  A ticket due today (0 days) is falsy, so it is scored as 999 days away. The intent is that
  anything due in 0..7 days counts as urgent.
- **Critical comes last.** The sort uses `reverse=True` on the key `(bucket != "Critical", score)`.
  That puts every non-Critical ticket *before* every Critical one, with scores decreasing
  within each group. The intent is to list Critical tickets first.
- **The fallback shows five tickets.** The fallback summary lists the top five tickets. The
  intended summary shows four, which is what `/summarize`'s own header uses.
- **Two names in `reindex_kb` do not exist.** `reindex_kb` calls `_chunk_markdown` and `Path`,
  but neither is defined or imported in the module. The model behaves as if both resolved.
  The chunker is a parameter; the sorted file listing (each file's name, stem and text) is an
  input.

## Model

| member | source | states |
|---|---|---|
| Risk.PriorityWeight | ai/agents/risk_agent.py:3-6 | the weight is 1..3; 1 exactly for "Low", 3 exactly for "High" (case-sensitive); every other hashable key weighs 2; a list or dict key raises |
| Risk.DaysValue | ai/agents/risk_agent.py:7 | the camelCase value if truthy, else the PascalCase value if truthy, else 999; the result is always truthy |
| Risk.DaysComponent | ai/agents/risk_agent.py:9 | component 0 iff more than 21 days; 1 iff 8..21; 2 iff 0..7; 3 iff overdue |
| Risk.ScoreOne | ai/agents/risk_agent.py:5-25 | succeeds iff the record is a dict with a hashable priority and a numeric days value; score = 2·weight + 3·component, within 2..15; Critical iff overdue; otherwise High iff score ≥ 7, Medium iff 4..6, Low iff < 4; the eight fields are copied, and the days value used is stored |
| Risk.HighDueInThreeDays | ai/agents/risk_agent.py:6-25 | High priority due in 3 days scores 12, High |
| Risk.LowOverdueIsCritical | ai/agents/risk_agent.py:9-11 | Low priority one day overdue scores 11 and is Critical |
| Risk.MissingFieldsUseDefaults | ai/agents/risk_agent.py:6-11 | a record with no usable priority or days scores 4, Medium, with daysToDue 999 |
| Risk.DueTodayCountsAsFarFuture | ai/agents/risk_agent.py:7-11 | daysToDue 0 is replaced by 999: score 2·weight, never Critical |
| Risk.ScoredDaysNeverZero | ai/agents/risk_agent.py:7-22 | no scored record has daysToDue 0 |
| Risk.DueTodayRanksBelowOverdue | ai/agents/risk_agent.py:7-11 | High due today scores 6 (Medium); Low one day overdue scores 11 |
| Risk.SortByRisk | ai/agents/risk_agent.py:26 | the result is sorted by descending key and is a permutation of the input |
| Risk.SortByRiskStable | ai/agents/risk_agent.py:26 | records with equal keys keep their input order |
| Risk.SortByRiskIsTheStableSort | ai/agents/risk_agent.py:26 | any sorted, stable rearrangement of the input equals SortByRisk |
| Risk.SortByRiskOfSorted | ai/agents/risk_agent.py:26 | sorting a sorted list leaves it unchanged |
| Risk.SortByRiskIdempotent | ai/agents/risk_agent.py:26 | sorting twice equals sorting once |
| Risk.SortedMeansGroupsThenScores | ai/agents/risk_agent.py:26 | in a sorted list every non-Critical record precedes every Critical one, and scores do not increase within a group |
| Risk.ScoreAll | ai/agents/risk_agent.py:1-26 | succeeds iff every record scores; then one record per ticket, sorted |
| Risk.ScoreTickets | ai/agents/risk_agent.py:1-26 | the loop and sort equal ScoreAll; the result is a stable permutation of the per-record scores |
| Fetch.QueryParams | ai/agents/fetch_agent.py:13-15 | `status=Open`, plus `dc` exactly when the id is truthy; the parameters OpenTickets sends |
| Fetch.NormaliseRecord | ai/agents/fetch_agent.py:25-35 | nine fields in order, each the camelCase value or the PascalCase fallback |
| Fetch.NormalisedLookup | ai/agents/fetch_agent.py:25-35 | exactly the nine camelCase keys are present; each holds the camelCase value if truthy, else the PascalCase value (None if both are missing) |
| Fetch.NormaliseCanonical | ai/agents/fetch_agent.py:25-35 | a record already in camelCase, with truthy or None values, is unchanged, so normalising is idempotent on such records |
| Fetch.Normalised | ai/agents/fetch_agent.py:20-36 | success only for a list or an empty body; a number, bool or None raises TypeError |
| Fetch.NormaliseTickets | ai/agents/fetch_agent.py:22-36 | equals Normalised; one normalised record per item, in order |
| Fetch.OpenTickets | ai/agents/fetch_agent.py:8-36 | the request carries the built parameters; a failed request raises; otherwise the result is the normalised body |
| Fetch.GetOpenTickets | ai/agents/fetch_agent.py:8-36 | equals OpenTickets |
| Knowledge.SnippetsUpTo | ai/agents/advice_agent.py:83-87 | succeeds iff every document has a non-None metadata entry; then snippet i is (docs[i], source or "kb"); IndexError exactly when metadata runs out first |
| Knowledge.SnippetsErrSticky | ai/agents/advice_agent.py:86-87 | an exception raised at one document is the loop's result |
| Knowledge.Retrieved | ai/agents/advice_agent.py:75-88 | a failing or empty store gives []; a None documents or metadatas list raises TypeError |
| Knowledge.Retrieve | ai/agents/advice_agent.py:75-88 | equals Retrieved on the store's answer for (topic, top_k) |
| Knowledge.ChunkIdRoundTrip | ai/agents/advice_agent.py:62 | the id `stem-i-j` decodes back to (stem, i, j), whatever dashes the stem holds |
| Knowledge.FileChunks | ai/agents/advice_agent.py:61-64 | one record per chunk, with id `stem-i-j`, the chunk text and the file name |
| Knowledge.ChunkIdsUnique | ai/agents/advice_agent.py:58-64 | every id decodes to its own file position, and no two records share an id |
| Knowledge.ChunkCountIsLength | ai/agents/advice_agent.py:58-72 | the number of records is the sum of the chunk counts |
| Knowledge.Names | ai/agents/advice_agent.py:72 | the file names, in listing order |
| Knowledge.KbStore.Reset | ai/agents/advice_agent.py:44-50 | the collection is empty afterwards |
| Knowledge.KbStore.Add | ai/agents/advice_agent.py:66-71 | the batch is appended to the records |
| Knowledge.CollectChunks | ai/agents/advice_agent.py:57-64 | the nested loops collect exactly the records of all files, in order |
| Knowledge.Reindex | ai/agents/advice_agent.py:40-72 | the collection is reset; no files gives NoFiles with the "No *.md files found in ai/kb" detail and an empty store; otherwise the store holds exactly the collected records, with distinct ids, and the result counts them and names the files |
| Advice.ValidateTicket | ai/agents/advice_agent.py:91-101 | validation succeeds iff the three id fields are strings and the optional fields have their types; otherwise ValidationError; on success every field is carried: ticket id, DC id and category as given, owner, status, priority, due date and day count as their optional readings, the score and the bucket name |
| Advice.ScoredRecordValidates | ai/agents/advice_agent.py:184 | a scored record with string ids and string-or-missing optional fields always validates |
| Advice.Hints | ai/agents/advice_agent.py:110-122 | at most two hints: Overdue iff days < 0, due-in-a-week iff 0..7, due-in-three-weeks iff 8..21, paging iff the priority lowers to "high" (paging comes last); none iff days > 21 and not high |
| Advice.RulesHint | ai/agents/advice_agent.py:110-122 | the texts of those hints, in order |
| Advice.RulesHintDefaults | ai/agents/advice_agent.py:112-113 | no priority and no days give no hint |
| Advice.RulesHintUpperCaseHigh | ai/agents/advice_agent.py:113-121 | "HIGH", three days overdue, gives the overdue and paging hints |
| Advice.KbText | ai/agents/advice_agent.py:126 | "No KB found." exactly when there are no snippets; otherwise starts with `[`; contains the `[source]` block of each of the first three snippets |
| Advice.KbTextUsesTopThree | ai/agents/advice_agent.py:126 | snippet lists that agree on their first three give the same text |
| Advice.StrippedField | ai/agents/advice_agent.py:161-162 | the `or` chain picks the first truthy of the two fields, else `""`; the pick stripped when it is a string, AttributeError when it is not; a result never ends in whitespace |
| Advice.ActionText | ai/agents/advice_agent.py:163 | joining clean parts gives text that does not end in whitespace |
| Advice.NormaliseAction | ai/agents/advice_agent.py:160-169 | a dict raises AttributeError exactly when the value selected by the step/action or the timebox/eta `or` chain (the first truthy one) is not a string, so falsy non-strings fall through; a non-dict gives `str(a).strip()`; the text never ends in whitespace |
| Advice.NormalisedActions | ai/agents/advice_agent.py:157-169 | a non-iterable `nextActions` raises TypeError; succeeds iff it is iterable and every item normalises; the result is an order-preserving subsequence of the normalised texts, as long as their count of non-empty texts, containing each non-empty one, so it is exactly the non-empty texts in order; each kept action is non-empty and clean |
| Advice.NormalisedAllKept | ai/agents/advice_agent.py:157-169 | items that all normalise to non-empty texts give exactly those texts, in order |
| Advice.NormalisedActionsExample | ai/agents/advice_agent.py:157-169 | `[{"step": "Call vendor", "timebox": "2h"}, "Escalate"]` gives `["Call vendor — 2h", "Escalate"]` |
| Advice.StepThenPlain | ai/agents/advice_agent.py:157-169 | a step/timebox dict then a plain string, all clean and non-blank, give `step — timebox` and then the string |
| Advice.PlainAction | ai/agents/advice_agent.py:166-169 | a plain string with no whitespace at either end is kept as it is |
| Advice.NormaliseActions | ai/agents/advice_agent.py:157-169 | the loop equals NormalisedActions |
| Advice.StepWithTimebox | ai/agents/advice_agent.py:161-163 | step and timebox give `step — timebox` when the stripped timebox is not blank, else just the step |
| Advice.TimeboxOnly | ai/agents/advice_agent.py:161-163 | a dict with only `eta` gives ` — eta`, with a leading space |
| Advice.Rationale | ai/agents/advice_agent.py:173 | succeeds iff the value is a string; the result is the first ≤1000 characters, and the whole string when it is short enough |
| Advice.SuggestedOwner | ai/agents/advice_agent.py:175 | the reply's owner when truthy (it must be a string), else the ticket's owner |
| Advice.SuggestionFrom | ai/agents/advice_agent.py:171-177 | a non-dict reply raises AttributeError; succeeds iff every field normalises; the ticket id is kept; at most six non-empty actions (the first six normalised); rationale ≤1000 characters, a prefix of the given one; the owner falls back to the ticket's; the urgency is the given one, or `""` |
| Advice.EmptyReply | ai/agents/advice_agent.py:171-177 | `{}` gives an empty suggestion that keeps the ticket's owner |
| Advice.Composed | ai/agents/advice_agent.py:124-177 | a successful composition is for the ticket's own id |
| Advice.ComposeSuggestion | ai/agents/advice_agent.py:124-177 | equals Composed |
| Advice.SourcesOf | ai/agents/advice_agent.py:187 | the snippet sources, in order |
| Advice.AdviceFor | ai/agents/advice_agent.py:184-188 | a successful pass yields a suggestion for the record's own ticket id |
| Advice.AdviseOne | ai/agents/advice_agent.py:184-188 | one loop pass equals AdviceFor |
| Advice.Advised | ai/agents/advice_agent.py:179-189 | succeeds iff every ticket does; then one suggestion per ticket, in order, each with its own id; every retrieved source is collected, and nothing else |
| Advice.InsertString | ai/agents/advice_agent.py:189 | inserting keeps the list strictly sorted and adds exactly the new element |
| Advice.SortedSet | ai/agents/advice_agent.py:189 | `sorted(list(set(xs)))` is strictly sorted with the same elements |
| Advice.Advise | ai/agents/advice_agent.py:179-189 | the loop equals Advised, with the sources sorted and deduplicated |
| Text.Strip | ai/agents/advice_agent.py:161-167 | the result is a piece of the input with only whitespace around it; it neither starts nor ends with whitespace; it is empty iff the input is all whitespace |
| Text.StripIdempotent | ai/agents/advice_agent.py:167 | stripping twice equals stripping once |
| Text.StripClean | ai/agents/advice_agent.py:167 | a string that neither starts nor ends with whitespace is unchanged |
| Text.Lower | ai/agents/advice_agent.py:113 | same length; each ASCII capital is lowered |
| Comms.TicketLines | ai/agents/comms_agent.py:6-7 | one bullet line per ticket, in order |
| Comms.LinesListed | ai/agents/comms_agent.py:10 | the joined lines contain every line |
| Comms.FallbackSummary | ai/agents/comms_agent.py:4-12 | starts with the fallback header; ends with the three actions; between them `Top k risky tickets:` with k = min(5, n), then the lines of the first k tickets in order, joined by newlines; contains the line of each of the first five tickets |
| Comms.FallbackUsesTopFive | ai/agents/comms_agent.py:5 | the fallback depends only on the first five tickets |
| Comms.SummaryPrompt | ai/agents/comms_agent.py:25-35 | starts with the instructions and contains the line of each of the first eight tickets |
| Comms.ExecSummary | ai/agents/comms_agent.py:14-38 | no or empty key gives the fallback; a reply gives its content; a raised call gives the fallback followed by the note with the message |
| Comms.ExecSummaryUsesTopEight | ai/agents/comms_agent.py:25-28 | the summary depends only on the first eight tickets |
| Service.BubbleUp | ai/agents/main.py:76-89 | exactly three moves, one per bucket title in order, each with the fixed reason and steps; the suggestions are not consulted |
| Service.Moves | ai/agents/main.py:76-89 | the three moves of the bucket titles, in order |
| Service.SummaryText | ai/agents/main.py:49-51 | the header for the DC or global scope, then exactly the given tickets' lines in order, joined by newlines; contains each given ticket's line |
| Service.Summarize | ai/agents/main.py:39-74 | the endpoint equals Summarized (fetch, score, top-4 text, advice on the first eight, fixed parts) |
| Service.SummaryListsScoredTop | ai/agents/main.py:49 | the second sort changes nothing: its first four are the first four scored tickets, and the summary lists them |
| Service.SummarizedShape | ai/agents/main.py:45-74 | the summary is exactly the summary text of the first four scored tickets, which lists them; sources are sorted and distinct; the fixed actions, the empty filter and the three moves |
| Service.SummarizedPerTicket | ai/agents/main.py:54 | min(8, n) suggestions, the i-th for the i-th scored ticket |
| Service.FetchFailureFails | ai/agents/main.py:45 | a failed ticket request fails the endpoint |
| Dashboard.AddDays | webapp/SlaDashboard/Program.cs:29-30 | adds whole days of ticks; throws ArgumentOutOfRange past DateTime.MaxValue |
| Dashboard.DaysToDueOrder | webapp/SlaDashboard/Program.cs:60 | past due ⇒ day count ≤ 0; a negative count ⇒ past due; due within n days ⇒ count in 0..n |
| Dashboard.Matches | webapp/SlaDashboard/Program.cs:43-45 | a ticket passes iff each non-blank argument equals its field |
| Dashboard.SelectedExactly | webapp/SlaDashboard/Program.cs:42-45 | the listing is an order-preserving subsequence holding every matching ticket and only those |
| Dashboard.NoFilterSelectsAll | webapp/SlaDashboard/Program.cs:42-45 | no argument lists every ticket |
| Dashboard.Rows | webapp/SlaDashboard/Program.cs:57-61 | one row per ticket, with its day count |
| Dashboard.ListTickets | webapp/SlaDashboard/Program.cs:40-64 | the successive `Where`s and projection equal the rows of the selection |
| Dashboard.KpiSummary | webapp/SlaDashboard/Program.cs:26-38 | throws iff now + 21 days is past the maximum; otherwise the four counts of open, due within 7 days, due within 21 days and overdue |
| Dashboard.KpiBounds | webapp/SlaDashboard/Program.cs:32-35 | dueIn7 ≤ dueIn21, and dueIn21 + overdue ≤ open |
| Dashboard.Reminders | webapp/SlaDashboard/Program.cs:67-84 | one row per open ticket, in order; as many as the open count |
| Dashboard.RemindersAreOpenListing | webapp/SlaDashboard/Program.cs:67-84 | the reminders are the listing filtered on "Open" without status and creation time; their number equals the KPI `open` |

## Left out

- I/O and services are parameters, not modelled. This covers:
  - HTTP (`requests`);
  - OpenAI and LangChain clients;
  - the Chroma client;
  - file reading and globbing;
  - `load_dotenv`;
  - the clock.
- The SQLite `ai_runs` log in `/summarize` is left out. A successful insert does not change the
  response. A failing insert (a locked or unwritable database) raises and fails the endpoint,
  and the model does not capture that failure. The latency measurement and the `AI_MODEL` read
  that the log records are left out too.
- `/health`, `/kb/reindex`, `/healthz`, seeding, Razor pages and the ASP.NET pipeline are left
  out: they are wrappers or infrastructure.
- Floating-point temperatures are not modelled. Neither are the system prompt and the
  `response_format`, which only reach the chat model.
- The embedding function and the query's similarity ranking are not modelled. The store's
  answer is an input.
- Knowledge.KbStore.Reset: the delete is taken to succeed. `reindex_kb` swallows any
  exception from `delete_collection`. If the delete does fail, the old records stay, and
  Reindex's promises of exactly the collected records and of distinct ids no longer hold.
- Chroma's own validation in `col.add` is not modelled, for example rejecting duplicate ids.
  The model proves the ids are distinct instead.
- `_chunk_markdown` is not part of this model: it is not defined in the repository. The
  chunker is a parameter.
- JsonValues.PyStr: `str()` of a list or dict has a simplified `repr`. Strings inside are
  not quoted or escaped. Floats are not represented.
- JsonValues.Lookup: JSON objects are taken to have distinct member names. `json.loads`
  keeps the last of a repeated name.
- Text.Lower: lowers ASCII letters only. Python's full Unicode case mapping matters only for
  the comparison with "high".
- Advice.ValidateTicket: pydantic's coercions are approximated:
  - `str` fields accept only strings;
  - an `Optional[int]` accepts ints and bools;
  - string-to-number coercion is not modelled, and such strings are rejected.
- Advice.Composed: a reply whose content is None or not JSON is one `NotJson` outcome. Every
  failure of the client call is one `CallFailed` outcome.
- Dashboard.ListTickets, Dashboard.KpiSummary: the EF Core queries are modelled as in-memory
  filtering. Both assume SQLite compares strings, and `DateTime` values (`DueDate >= now`, `DueDate < now`), as .NET
  does, in chronological order. The translation to SQL is not modelled.
- Dashboard.DaysToDue: a `DateTime` is a tick count. `DateTimeKind` is not modelled;
  `DateTime.UtcNow` is the parameter `now`.
- Dashboard.KpiSummary: the four counts are computed over one ticket list. The model does
  not capture the four separate queries seeing different data under concurrent updates.
- Concurrency in general is not modelled: the async endpoints and concurrent requests.
