# Dataset evaluation pipeline and Zendesk tool route, in Dafny

This project models the core of the agents cookbook's evaluation tooling and one of its MCP templates:

- **The event-stream decoder** (`stream_decoder.dfy`). It turns the chat service's server-sent-event body into the assistant's text. The dataset runner writes it as a map/join over the lines. The dataset script writes it as a loop. Both forms are modelled, and both are proved equal to one reference definition.
- **The chat client** `ChatAPIClient.processDatasetItem` (`chat_invoker.dfy`). Push mode is used by the dataset runner. It opens a span, creates the trace record under the active trace id and keeps that id even when the chat fails. Pull mode is used by the dataset script. It takes the id from the `trace-id` response header and records a trace only after an OK answer.
- **The two dataset runners** (`run_config.dfy`, `dataset_runner.dfy`). This covers configuration parsing and validation, the dataset-item input extraction, the per-item loop with its skip rule and its flush/link/flush linking, and `runDatasetEvaluation` with its fatal checks.
- **The score-existing-runs flow** (`run_item_pages.dfy`, `trace_scoring.dfy`, `dataset_eval.dfy`). This covers the paginated run-item iterator, the score-configuration request, the span filter, the tool-call judgment, the score payload, and `main`, which scores every yielded run item that has a trace.
- **The Zendesk MCP route** (`zendesk.dfy`). This covers request shaping in `makeZendeskRequest`, the credential check, the four tools' payloads and query strings, and the text each tool returns.

**How the outside world enters.** Every network exchange is a parameter: a server answers each request with a response or with the message the request rejects with. That message may come from `fetch` itself, from `json()` on a malformed body, or from `text()` while an error message is built; the one exception is listed under "Left out". The tracing SDK's behaviour is also a parameter: generated trace ids, and whether a flush or a link throws. A run is modelled as a pure function. It maps those answers to the ordered log of requests it makes and to how it ends.

**JSON.** `JSON.parse` and Base64 are abstract function parameters. JSON values are kept only as far as the code looks into them.

**Behaviour of the code worth noting:**
- The score-existing-runs `main` has no per-item error handling. A failed trace fetch or score post ends the whole run.
- Push mode keeps the trace id when the chat answers with a non-OK status, so such items are still linked to their trace.
- The chat request carries its scope in the headers `x-inkeep-tenant-id`, `x-inkeep-project-id` and `x-inkeep-graph-id`.
- The list tool reports the requested `per_page` in its text, not the clamped one it sends.

## Model

Source paths are relative to the repository root.

| member | source | states |
|---|---|---|
| Text.Trim | evals/langfuse-dataset-example/langfuse-dataset.ts:261 | The result has no whitespace at either end (`Text.TrimOfPadded` states that only the padding is cut). |
| Text.TrimOfPadded | langfuse-example/langfuse-script.ts:328 | Trimming a trimmed text surrounded by any whitespace padding gives back exactly that text. |
| Text.TrimIdempotent | langfuse-example/langfuse-script.ts:328 | Trimming twice is trimming once. |
| Text.JoinSplit | evals/langfuse-dataset-example/langfuse-dataset.ts:250 | Joining the pieces of a split with the separator rebuilds the original body. |
| Text.SplitJoin | langfuse-example/langfuse-script.ts:312 | Splitting a join of separator-free pieces gives back the pieces. |
| Text.IntToStringRoundTrip | template-mcps/zendesk/mcp/route.ts:372 | The decimal rendering of an integer parses back to that integer. |
| Text.NumberReadBack | template-mcps/zendesk/mcp/route.ts:423 | A number written in front of non-digit text can be read back from the text's leading digits. |
| StreamDecoder.KeepDataLines | evals/langfuse-dataset-example/langfuse-dataset.ts:251 | Only lines that start with `data: ` are kept, and every such line of the body is kept. |
| StreamDecoder.KeepDataLinesInOrder | evals/langfuse-dataset-example/langfuse-dataset.ts:251 | The filter keeps order. The kept lines of a concatenation are those of each part, in turn. A single line is kept exactly when it starts with `data: `. |
| StreamDecoder.DecodeJoined | evals/langfuse-dataset-example/langfuse-dataset.ts:248-262 | The filter, the map callback (lines 252-258) and the join together equal the reference decoder on the body's lines. That decoder concatenates, in order, the delta of every text-delta event whose JSON parses. The result is trimmed. |
| StreamDecoder.DecodeLoop | langfuse-example/langfuse-script.ts:311-329 | The loop form computes the same text as the reference decoder, and hence as the map/join form. |
| StreamDecoder.AccumulateLine | langfuse-example/langfuse-script.ts:315-326 | Each loop turn appends exactly that line's fragment to the accumulated text: nothing for a non-data, malformed or non-text-delta line. |
| StreamDecoder.SkippedLineContributesNothing | evals/langfuse-dataset-example/langfuse-dataset.ts:253-258 | Removing a line that carries no fragment does not change the decoded fragments. |
| StreamDecoder.MalformedLineIsSkipped | langfuse-example/langfuse-script.ts:317-324 | A data line whose payload does not parse contributes no fragment; the parse error is swallowed. |
| StreamDecoder.DecodeJoinedOfLines | evals/langfuse-dataset-example/langfuse-dataset.ts:250 | Decoding a body built by joining lines with newlines equals decoding those lines. |
| StreamDecoder.SkippedLineLeavesTextUnchanged | evals/langfuse-dataset-example/langfuse-dataset.ts:249-261 | Inserting a line without a fragment anywhere in a body leaves the decoded text unchanged. |
| StreamDecoder.WellFormedStream | evals/langfuse-dataset-example/langfuse-dataset.ts:255 | A stream of text-delta events decodes to the trimmed concatenation of their deltas, in order. |
| RunItemPages.Iterate | evals/langfuse-dataset-example/dataset-eval.ts:55-78 | Consecutive pages are requested. Every page before the last lets the iteration continue, and the last one stops it. The yielded items are exactly those of the requested pages, in request order. The iteration fails exactly when its last request failed, with that request's error. |
| RunItemPages.RunItems | evals/langfuse-dataset-example/dataset-eval.ts:56 | The iteration starts at page 1 and advances one page at a time. |
| RunItemPages.IterateContinues | evals/langfuse-dataset-example/dataset-eval.ts:74-76 | A page that does not stop the iteration contributes its items and is followed by the iteration from the next page. |
| RunItemPages.MissingDataIsEmptyPage | evals/langfuse-dataset-example/dataset-eval.ts:70-71 | A page with no `data` ends the iteration without yielding anything from it and without error. |
| RunItemPages.NeverBeyondTotalPages | evals/langfuse-dataset-example/dataset-eval.ts:74-75 | When every page reports the same `totalPages`, no page beyond it is requested, so there are at most `max(totalPages, 1)` requests. |
| RunItemPages.TwoPagesThenEmpty | evals/langfuse-dataset-example/dataset-eval.ts:64-77 | Scenario: two one-item pages and then an empty one make three requests and yield both items. |
| TraceScoring.ScoreConfigRequest | evals/langfuse-dataset-example/dataset-eval.ts:33-39 | The configuration is numeric, named by the score name, and bounded by 0 and 1. |
| TraceScoring.EnsureScoreConfig | evals/langfuse-dataset-example/dataset-eval.ts:41-43 | Creation is accepted exactly on a 2xx status or a 409 conflict. Any other status is an error carrying the status and the response text. |
| TraceScoring.FilterSpan | evals/langfuse-dataset-example/dataset-eval.ts:86-87 | The kept observations are exactly those whose name strictly equals the configured span name (an unset name keeps only unnamed observations). |
| TraceScoring.AttributeUsed | evals/langfuse-dataset-example/dataset-eval.ts:90-94 | True exactly when some observation's tool-call name strictly equals the target, and false on no observations. |
| TraceScoring.UsedIffSomeObservationMatches | evals/langfuse-dataset-example/dataset-eval.ts:86-94 | A trace is judged as having used the tool exactly when one observation carries both the span name and the target tool name. |
| TraceScoring.ScoreFor | evals/langfuse-dataset-example/dataset-eval.ts:96-107 | The score is bound to the trace under the score name. Its value is 1 exactly when the tool was used and 0 otherwise, and the comment's first letter is `D` or `N` accordingly. |
| TraceScoring.ScoreCommentOpensWithJudgment | evals/langfuse-dataset-example/dataset-eval.ts:104-106 | The comment starts with `Detected "` when the tool was used, else with `No "`. |
| TraceScoring.ScoreWithinConfiguredBounds | evals/langfuse-dataset-example/dataset-eval.ts:35-37 | Every posted value lies within the bounds of the configuration created for it, under the same name. |
| TraceScoring.ScoreDeterminesJudgment | evals/langfuse-dataset-example/dataset-eval.ts:102-106 | Two scores for one trace with the same value come from the same judgment. |
| TraceScoring.ToolCallScenario | evals/langfuse-dataset-example/dataset-eval.ts:87-92 | Scenario: one `tool-call` span that called `get_weather` scores 1. |
| DatasetEval.LoadConfig | evals/langfuse-dataset-example/dataset-eval.ts:6-19 | The settings load exactly when all five required variables are set and non-empty, else "Missing env". The settings carry the environment's values. |
| DatasetEval.ScoreItems | evals/langfuse-dataset-example/dataset-eval.ts:127-147 | The item loop only appends to the request log. On success it counts every item, skipped ones included. It fails only on a trace fetch or a score post. |
| DatasetEval.JudgeFindsMatchingObservation | evals/langfuse-dataset-example/dataset-eval.ts:86-94 | A fetched trace is judged to use the tool exactly when one of its observations has the span name and calls the target tool. |
| DatasetEval.ScoreItemsScoresFetched | evals/langfuse-dataset-example/dataset-eval.ts:137-144 | Each score the item loop posts comes right after the successful fetch of the same trace. Its payload is the score for that trace's judgment. |
| DatasetEval.ScorePages | evals/langfuse-dataset-example/dataset-eval.ts:122-149 | Consuming the iterator only appends to the request log, and on success the count never decreases. |
| DatasetEval.Evaluate | evals/langfuse-dataset-example/dataset-eval.ts:112-155 | The score configuration is requested first. A refusal (a status other than 2xx or 409) ends the run with that one request and the status and text. So does a rejected request, with its message. |
| DatasetEval.LookupFailureEndsRun | evals/langfuse-dataset-example/dataset-eval.ts:46-51 | A failed or rejected dataset lookup ends the run after the configuration and lookup requests, with the lookup's error. |
| DatasetEval.EvaluateScoresOnlyFetchedTraces | evals/langfuse-dataset-example/dataset-eval.ts:137-144 | Every score post of the whole run comes right after the fetch of the same trace, and that fetch succeeded. The payload is the score for the judgment of the fetched trace: value 1 with a "Detected" comment when one observation matches, else 0 with a "No" comment. |
| DatasetEval.ScoreItemsRequests | evals/langfuse-dataset-example/dataset-eval.ts:129-144 | A completed item loop requests no page, and fetches and scores exactly the traces of the items that have one, in item order. |
| DatasetEval.ScoreItemsSucceeds | evals/langfuse-dataset-example/dataset-eval.ts:121-123 | When every trace fetch and score post succeeds, the loop succeeds and counts all its items. |
| DatasetEval.SkippedItemMakesNoRequest | evals/langfuse-dataset-example/dataset-eval.ts:129-135 | An item without a trace only adds one to the count and makes no request. |
| DatasetEval.ScorePagesFollowsIterator | evals/langfuse-dataset-example/dataset-eval.ts:122-149 | The flow requests exactly the iterator's pages, and fetches and scores exactly the traces of the yielded items. It fails exactly when the iterator fails, with its error, and otherwise counts every yielded item. |
| DatasetEval.EvaluateCountsYieldedItems | evals/langfuse-dataset-example/dataset-eval.ts:112-155 | After the configuration and the lookup, `main` requests pages 1, 2, … as the iterator does, scores the traces of the yielded items, and reports as processed exactly the items yielded. |
| RunConfig.MissingNamesMembers | evals/langfuse-dataset-example/langfuse-dataset.ts:70 | A name is reported missing exactly when it is listed and its value is unset or empty. |
| RunConfig.MissingNamesInOrder | evals/langfuse-dataset-example/langfuse-dataset.ts:69-77 | Missing names keep the order of the required list, which fixes the text of both error messages. The missing names of a concatenation are those of each part, in turn. |
| RunConfig.MissingFields | evals/langfuse-dataset-example/langfuse-dataset.ts:32-39 | Each required field is reported exactly when it is unset or empty, and nothing but required fields is reported. |
| RunConfig.ValidateRequiredConfig | evals/langfuse-dataset-example/langfuse-dataset.ts:69-72 | The check fails exactly when some required field is unset or empty, and its message lists every such field. |
| RunConfig.MissingEnvVars | evals/langfuse-dataset-example/langfuse-dataset.ts:75 | A variable is reported exactly when it is required and unset or empty. |
| RunConfig.ValidateRequiredEnvVars | evals/langfuse-dataset-example/langfuse-dataset.ts:74-77 | The check fails exactly when some required variable is unset or empty, and its message lists every such variable. |
| RunConfig.NoneMissingIffAllPresent | langfuse-example/langfuse-script.ts:76-81 | The filter reports nothing exactly when every listed variable is present. |
| RunConfig.ReadConfig | evals/langfuse-dataset-example/langfuse-dataset.ts:53-62 | Each field is read from its environment variable. The graph id is read from the runner's own variable. The dataset is fixed for the dataset runner and is the first argument for the script. |
| RunConfig.ParseAndValidateConfig | langfuse-example/langfuse-script.ts:46-67 | The argument check comes first, then the fields, then the environment, and the first failing check gives the error. A configuration is produced exactly when all checks pass, and it holds the values read. |
| RunConfig.ValidConfigHasEndpoint | evals/langfuse-dataset-example/langfuse-dataset.ts:84-86 | A validated configuration always carries a non-empty API key and base URL. |
| RunConfig.ScriptDatasetIsFirstArgument | langfuse-example/langfuse-script.ts:49-60 | The dataset script evaluates the dataset named by its first argument. |
| RunConfig.OnlyGraphMissing | evals/langfuse-dataset-example/langfuse-dataset.ts:69-72 | Scenario: with only the graph id unset, the error names `graphId` alone. |
| ChatInvoker.EventStreamDecoder | evals/langfuse-dataset-example/langfuse-dataset.ts:222 | The client's decoder is the event-stream decoder on every body. |
| ChatInvoker.BuildRequest | evals/langfuse-dataset-example/langfuse-dataset.ts:185-219 | The request is a JSON POST to `{baseUrl}/api/chat` carrying the single user message. It carries the bearer key and the three scope headers, each under its own name. |
| ChatInvoker.ChatErrorNamesStatus | evals/langfuse-dataset-example/langfuse-dataset.ts:232 | The status of a failed chat can be read back from its error message. |
| ChatInvoker.RecordedOutput | evals/langfuse-dataset-example/langfuse-dataset.ts:225 | The recorded output is never empty: it is the decoded text, or the placeholder when that is empty. |
| ChatInvoker.PushTrail | evals/langfuse-dataset-example/langfuse-dataset.ts:200-229 | The record is created under the active trace id before the chat request is sent, and the block never ends the span itself. |
| ChatInvoker.PushOutcome | evals/langfuse-dataset-example/langfuse-dataset.ts:229-240 | The result is an error exactly when fetching or flushing threw or the answer was not OK. It carries the record's id exactly when nothing threw. |
| ChatInvoker.InSpan | evals/langfuse-dataset-example/langfuse-dataset.ts:182-244 | The span is started first and ended last, exactly once, around an unchanged block. |
| ChatInvoker.ProcessPush | evals/langfuse-dataset-example/langfuse-dataset.ts:176-245 | On every path the span opens first and closes last, once, and the result is the push outcome of the exchange. |
| ChatInvoker.PushRecordsAnswer | evals/langfuse-dataset-example/langfuse-dataset.ts:221-229 | Any answer, OK or not, updates the record with the decoded output and the status before flushing. |
| ChatInvoker.PushKeepsTraceOnChatError | evals/langfuse-dataset-example/langfuse-dataset.ts:231-233 | A non-OK answer is an error that still carries the trace id. |
| ChatInvoker.PushThrowLosesTrace | evals/langfuse-dataset-example/langfuse-dataset.ts:235-240 | When fetching throws, the result is the thrown message and has no trace id. |
| ChatInvoker.ProcessPull | langfuse-example/langfuse-script.ts:229-306 | The chat request is sent first. A trace exists exactly when there is no error, which is exactly when the answer was OK and the flush did not throw. The record is then created under the `trace-id` header's id with the recorded output. |
| ChatInvoker.PullRecordsDecodedOutput | langfuse-example/langfuse-script.ts:271-281 | After an OK answer the record holds the decoded text, or the placeholder when the stream carried none. |
| ChatInvoker.ModesAgreeOnFailure | langfuse-example/langfuse-script.ts:254-266 | Push and pull fail on exactly the same exchanges, with the same message when fetching threw. Only push mode keeps a trace id after a non-OK answer. |
| DatasetRunner.ExtractInput | evals/langfuse-dataset-example/langfuse-dataset.ts:163-167 | The input is the item's message exactly when the input is truthy and its message is a string. |
| DatasetRunner.LinkSteps | evals/langfuse-dataset-example/langfuse-dataset.ts:148-157 | Linking is flush, link, flush, cut short at the step that throws. The item is linked exactly when nothing throws, and to the given trace. No chat request happens here. |
| DatasetRunner.PushClient | evals/langfuse-dataset-example/langfuse-dataset.ts:140-145 | The dataset runner's client is push-mode processing on every message, item and world. |
| DatasetRunner.PullClient | langfuse-example/langfuse-script.ts:172-177 | The dataset script's client is pull-mode processing on every message, item and world. |
| DatasetRunner.PushItem | evals/langfuse-dataset-example/langfuse-dataset.ts:122-161 | An attempted item makes its chat request first and exactly once. It is linked under the returned trace id exactly when that id is truthy and linking does not throw. |
| DatasetRunner.PullItem | langfuse-example/langfuse-script.ts:160-205 | An attempted item makes its chat request first and exactly once. It is linked to the returned trace exactly when the chat succeeded and linking does not throw. |
| DatasetRunner.ItemStep | evals/langfuse-dataset-example/langfuse-dataset.ts:133-137 | An item is skipped, with no request at all, exactly when it has no usable message. Otherwise its first request is its one chat request. |
| DatasetRunner.PushLinksFailedChat | evals/langfuse-dataset-example/langfuse-dataset.ts:148-157 | In the dataset runner, an item whose chat answered non-OK is still linked to its trace after the chat. |
| DatasetRunner.PullNeverLinksFailedChat | langfuse-example/langfuse-script.ts:254-266 | In the dataset script, an item whose chat answered non-OK makes only the chat request and ends unlinked with the chat's error. |
| DatasetRunner.ProcessItems | evals/langfuse-dataset-example/langfuse-dataset.ts:109-117 | Every item is taken, in order, whatever happened before it, and each ends in exactly its own step's outcome. |
| DatasetRunner.ItemChats | evals/langfuse-dataset-example/langfuse-dataset.ts:133-145 | An item makes one chat request when it is not skipped and none when it is. |
| DatasetRunner.OneChatPerAttemptedItem | evals/langfuse-dataset-example/langfuse-dataset.ts:109-117 | The loop sends exactly as many chat requests as there are items not skipped, and an item is skipped exactly when it has no usable input. |
| DatasetRunner.SkippedItemMakesNoRequest | langfuse-example/langfuse-script.ts:166-170 | Inserting a skipped item anywhere leaves the loop's requests unchanged. |
| DatasetRunner.CollectLoop | langfuse-example/langfuse-script.ts:160-205 | The loop over the items' runs, with `continue` on a skipped item, records exactly the requests and outcomes of the item loop, provided a skipped item made no request. |
| DatasetRunner.ProcessDatasetItems | langfuse-example/langfuse-script.ts:150-206 | Running every item in its own world and looping over the results yields the item loop: one outcome per item, and the same requests. |
| DatasetRunner.RunDatasetEvaluation | evals/langfuse-dataset-example/langfuse-dataset.ts:79-120 | The key check, then the URL check, each fail with its own message and no request. With both present, the dataset fetch is the first request. An error the fetch throws is passed on as is. A null dataset gives the not-found message, and a dataset without items gives the no-items message. Every fatal error happens before any chat. A successful run is exactly the dataset fetch followed by the item loop over the fetched items, each with its own world, and its outcomes are the loop's. |
| DatasetRunner.KeyChecksPass | evals/langfuse-dataset-example/langfuse-dataset.ts:84-104 | With a key and a URL, the run fetches the dataset first and fails, if at all, only on the dataset. |
| DatasetRunner.ValidatedRunPassesKeyChecks | evals/langfuse-dataset-example/langfuse-dataset.ts:84-86 | After the configuration validates, the run's key and URL checks never fail. |
| Zendesk.ApiUrlInjective | template-mcps/zendesk/mcp/route.ts:17 | For a dotless subdomain, the URL determines both the subdomain and the endpoint. |
| Zendesk.BuildRequest | template-mcps/zendesk/mcp/route.ts:17-32 | The request goes to the subdomain's API URL with Basic auth of `email/token:token` and a JSON content type, and exactly those two headers. A body is sent exactly when there is data and the verb is POST or PUT. |
| Zendesk.GetHasNoBody | template-mcps/zendesk/mcp/route.ts:30-32 | A GET never carries a body, whatever data is passed. |
| Zendesk.ApiErrorNamesStatus | template-mcps/zendesk/mcp/route.ts:36-41 | The status of a failed call can be read back from the thrown message. |
| Zendesk.Answer | template-mcps/zendesk/mcp/route.ts:34-43 | A rejected fetch passes its message on. A non-OK status throws the status message, or the message of a rejected `response.text()`. An OK one yields the decoded JSON, or the decoder's error. |
| Zendesk.ReadCredentials | template-mcps/zendesk/mcp/route.ts:105-120 | Credentials are read exactly when all three headers are present and non-empty, else the credentials message. |
| Zendesk.Perform | template-mcps/zendesk/mcp/route.ts:105-129 | Without credentials no request is made and the call fails with the credentials message. Otherwise exactly one request is made, and its answer is the result. |
| Zendesk.DefinedReadBack | template-mcps/zendesk/mcp/route.ts:92-96 | A member written only when defined reads back as the value given, and leaves every other key as it was. |
| Zendesk.OptionalCreateReadBack | template-mcps/zendesk/mcp/route.ts:92-96 | The optional members of the new ticket read back as the optional arguments, absent exactly when left undefined. |
| Zendesk.CreatePayloadRoundTrip | template-mcps/zendesk/mcp/route.ts:88-98 | The create body is a `ticket` object that reads back as exactly the arguments given. |
| Zendesk.CreateTicket | template-mcps/zendesk/mcp/route.ts:87-157 | A request is made exactly when credentials are present. It is a POST of the create payload to `/tickets.json`. Every failure becomes the failure text, including an OK reply without `ticket`, whose `id` read throws. |
| Zendesk.CreateSendsPayload | template-mcps/zendesk/mcp/route.ts:122-129 | The create request carries its payload as the body. |
| Zendesk.CreatedTextReadBack | template-mcps/zendesk/mcp/route.ts:131-145 | The created-ticket text splits back into its eight lines. It shows priority `normal` and type `question` for a ticket that has none. |
| Zendesk.CreatedLinesAreLines | template-mcps/zendesk/mcp/route.ts:131-145 | No line of the created-ticket text contains a newline when its fields contain none. |
| Zendesk.GetTicket | template-mcps/zendesk/mcp/route.ts:167-231 | A request is made exactly when credentials are present. It is a GET of the ticket's endpoint without a body. Every failure becomes the ticket-specific failure text, including an OK reply without `ticket`, whose `id` read throws. |
| Zendesk.TicketEndpointNamesTicket | template-mcps/zendesk/mcp/route.ts:192 | The ticket id can be read back from the endpoint. |
| Zendesk.TagsShown | template-mcps/zendesk/mcp/route.ts:214 | Tags read `None` exactly when there is no tag text to show. Otherwise they are the comma-joined tags. |
| Zendesk.UpdateMembersHold | template-mcps/zendesk/mcp/route.ts:272-283 | Each key of the update holds exactly the value of its argument, or nothing when the argument was not supplied. |
| Zendesk.UpdatePayloadRoundTrip | template-mcps/zendesk/mcp/route.ts:268-283 | The update has a member for each supplied argument and nothing else. It reads back as the arguments, and a comment is always public. |
| Zendesk.UpdateTicket | template-mcps/zendesk/mcp/route.ts:267-335 | A request is made exactly when credentials are present. It is a PUT of the update payload. A reply that does not decode still fails the tool. |
| Zendesk.SentPerPage | template-mcps/zendesk/mcp/route.ts:373 | The page size sent is the requested one, capped at 100. |
| Zendesk.ListParams | template-mcps/zendesk/mcp/route.ts:362-379 | The query starts with page, size and sort, using their defaults. A status filter is added exactly when the status is non-empty, and an assignee filter exactly when the id is non-zero. |
| Zendesk.ListParamsReadBack | template-mcps/zendesk/mcp/route.ts:371-379 | The numbers sent read back as the page, the capped page size and the assignee. |
| Zendesk.QueryRoundTrip | template-mcps/zendesk/mcp/route.ts:404 | A query of values that need no escaping parses back to its parameters, in order. |
| Zendesk.ListQueryRoundTrip | template-mcps/zendesk/mcp/route.ts:371-379 | The list query parses back to its parameters. |
| Zendesk.ListTextCounts | template-mcps/zendesk/mcp/route.ts:423 | The number of tickets can be read back from the listing text. |
| Zendesk.SummaryLines | template-mcps/zendesk/mcp/route.ts:413-416 | There is one summary line per ticket, in order. |
| Zendesk.ListTickets | template-mcps/zendesk/mcp/route.ts:362-440 | A request is made exactly when credentials are present. It is a GET of `/tickets.json` with the list query. Every failure becomes the failure text, including an OK reply without `tickets`, whose `map` read throws. |

## Left out

- Network and SDK I/O: `fetch`, the Langfuse client, the dataset API and the Zendesk API are parameters that supply responses. Authorization headers of the score-existing-runs requests are not modelled; the call log records each request's kind and arguments.
- `JSON.parse`, `JSON.stringify` and Base64 are abstract functions passed in, because their encodings are not part of this logic.
- OpenTelemetry `propagation.inject` and span context: the active trace id and the SDK-generated trace id are inputs of the world of an item. The trace-context headers that `inject` adds to the chat request (langfuse-dataset.ts line 192) are not modelled, so `ChatInvoker.BuildRequest` states only the headers set before it.
- Only one fault of the Langfuse client is modelled in push mode: flush throwing. A throwing `trace` or `update` call is not modelled.
- Logging, `dotenv`, `process.exit` and the timestamp source are left out. The run label's timestamp is a parameter.
- The `metadata` config field is never set by the configuration parser, so link metadata carries only the dataset and the three ids.
- In pull mode, `response.text()` can throw while the body of a non-OK answer is read. That path is not modelled: a non-OK answer yields the status message.
- Strings are sequences of Unicode scalar values, not UTF-16 code units.
- Numbers are integers. Fractional ticket ids, pages and page sizes are not modelled.
- Header lookup assumes lower-case names; the case-insensitivity of `Headers.get` is not modelled.
- Zod argument validation of the Zendesk tools is not modelled: arguments arrive already typed, and enumerated values are not restricted.
- The wording of the runtime's `TypeError` on reading a property of `undefined` is a fixed message of this model.
- The token `1:47` on route.ts line 198 is a stray fragment of the source; the model treats it as absent.
- The Zendesk route's server setup (lines 6 and 477) stores the current request's headers in a global. The model passes those headers to every tool as a parameter.
- RunItemPages.Iterate: it requires a backend that eventually stops the iteration (`Bounded`). Against a backend that never returns an empty or final page, the original loops forever, which is not modelled.
- DatasetEval.ScorePagesFollowsIterator: stated only for backends whose trace fetches and score posts all succeed. When one fails, the run ends there, as `DatasetEval.ScoreItems` states.
- DatasetEval.EvaluateCountsYieldedItems: stated only for backends whose per-item requests succeed, whose score-configuration request does not reject and is accepted, and whose dataset lookup succeeds.
- RunItemPages.NeverBeyondTotalPages: stated only for a backend that reports the same `totalPages` on every page.
- DatasetRunner.PushLinksFailedChat: stated only when flushing and linking do not throw and the trace id is non-empty.
- Zendesk.QueryRoundTrip: stated only for values that `URLSearchParams` does not escape. Percent-encoding is not modelled.
- Zendesk.ListQueryRoundTrip: stated only for sort and status values that need no escaping, which covers every value the tool's schema accepts.
- DatasetRunner.ProcessItems: the chat client is a parameter of the item loop. `DatasetRunner.ClientOf` ties it to push mode for the dataset runner and pull mode for the dataset script.
