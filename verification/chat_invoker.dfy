/**
 * The chat client of the two dataset runners (`ChatAPIClient.processDatasetItem`).
 * Both send the item's message to the chat endpoint and decode the event
 * stream it answers with. The dataset runner works in push mode: it opens
 * a span, creates the tracing record itself under the active trace id, and
 * keeps that id even when the chat fails. The dataset script works in pull
 * mode: it takes the trace id from the `trace-id` response header and
 * creates the record only after a successful answer. Neither form ever
 * throws: every fault becomes an error result.
 */
module ChatInvoker {
  import opened Wrappers
  import opened Values
  import opened Text
  import opened StreamDecoder

  /** What the client is constructed with. */
  datatype ChatContext = ChatContext(baseUrl: string, authKey: string, tenantId: string, projectId: string, graphId: string)

  datatype ChatMessage = ChatMessage(role: string, content: string)

  /** The chat request: method, URL, headers, and the messages of the JSON body. */
  datatype ChatRequest = ChatRequest(verb: string, url: string, headers: map<string, string>, messages: seq<ChatMessage>)

  /** The chat response: status line, body text, and headers by lower-case name. */
  datatype ChatResponse = ChatResponse(status: int, statusText: string, body: string, headers: map<string, string>)

  /**
   * What the outside world does during one invocation: the response to the
   * request, or the message of what `fetch` (or reading the body) threw;
   * and whether flushing the tracing client throws.
   */
  datatype Exchange = Exchange(response: Result<ChatResponse, string>, flushFault: Option<string>)

  /** The handle of a tracing record, created under the given id (absent: the client picks one). */
  datatype TraceHandle = TraceHandle(id: Option<string>)

  /** `ChatAPIResponse`: an error message, the trace id, and (pull mode) the trace handle. */
  datatype ChatResult = ChatResult(error: Option<string>, traceId: Option<string>, trace: Option<TraceHandle>)

  /** An observable step of an invocation, in the order it happens. */
  datatype Effect =
    | SpanStarted(name: string)
    | TraceCreated(id: Option<string>, name: string, input: string, output: Option<string>)
    | ChatSent(request: ChatRequest)
    | TraceUpdated(finalOutput: string, httpStatus: int, ok: bool)
    | Flushed
    | SpanEnded

  datatype Invocation = Invocation(result: ChatResult, effects: seq<Effect>)

  /**
   * How the client turns a response body into the assistant's text. Both
   * clients use the event-stream decoder under the JSON parser; the loop
   * form of the dataset script computes the same text as the map/join form.
   */
  type Decoder = string -> string

  function EventStreamDecoder(parse: Parser): (decode: Decoder)
    ensures forall body :: decode(body) == DecodeJoined(body, parse)
  {
    body => DecodeJoined(body, parse)
  }

  const SpanName: string := "chat-api-call"
  const NoResponse: string := "No response generated"

  // ---------------------------------------------------------------------
  // The request
  // ---------------------------------------------------------------------

  /** A JSON POST to `{baseUrl}/api/chat`, authorised by bearer key and scoped by the three ids. */
  function BuildRequest(ctx: ChatContext, userMessage: string): (req: ChatRequest)
    ensures req.verb == "POST" && req.url == ctx.baseUrl + "/api/chat"
    ensures req.messages == [ChatMessage("user", userMessage)]
    ensures req.headers.Keys
         == {"Content-Type", "Authorization", "x-inkeep-tenant-id", "x-inkeep-project-id", "x-inkeep-graph-id"}
    ensures req.headers["Content-Type"] == "application/json"
    ensures req.headers["Authorization"] == "Bearer " + ctx.authKey
    ensures req.headers["x-inkeep-tenant-id"] == ctx.tenantId
    ensures req.headers["x-inkeep-project-id"] == ctx.projectId
    ensures req.headers["x-inkeep-graph-id"] == ctx.graphId
  {
    ChatRequest("POST", ctx.baseUrl + "/api/chat",
      map[
        "Content-Type" := "application/json",
        "Authorization" := "Bearer " + ctx.authKey,
        "x-inkeep-tenant-id" := ctx.tenantId,
        "x-inkeep-project-id" := ctx.projectId,
        "x-inkeep-graph-id" := ctx.graphId],
      [ChatMessage("user", userMessage)])
  }

  /** The name of the tracing record of an item. */
  function TraceName(itemId: string): string {
    "Dataset Item Execution: " + itemId
  }

  /** The error of a non-OK chat response: status and status text. */
  function ChatErrorMessage(resp: ChatResponse): string {
    "Chat API error: " + IntToString(resp.status) + " " + resp.statusText
  }

  /** The error message of a non-OK response determines its status. */
  lemma ChatErrorNamesStatus(resp: ChatResponse)
    requires resp.status >= 0
    ensures var m := ChatErrorMessage(resp);
            |"Chat API error: "| <= |m| && DigitsValue(LeadingDigits(m[|"Chat API error: "|..])) == resp.status
  {
    assert ChatErrorMessage(resp) == "Chat API error: " + IntToString(resp.status) + (" " + resp.statusText);
    NumberReadBack("Chat API error: ", resp.status, " " + resp.statusText);
  }

  /** The output recorded on the trace: the decoded text, or a placeholder when it is empty. */
  function RecordedOutput(decoded: string): (out: string)
    ensures out != []
    ensures decoded != [] ==> out == decoded
    ensures decoded == [] ==> out == NoResponse
  {
    if decoded != [] then decoded else NoResponse
  }

  // ---------------------------------------------------------------------
  // Push mode (dataset runner)
  // ---------------------------------------------------------------------

  /** The id the tracing record carries: the requested one, else the one the client generates. */
  function RecordId(requested: Option<string>, generated: string): string {
    requested.GetOr(generated)
  }

  /**
   * The steps of the `try` block of push mode: the record is created and
   * the chat request sent; when an answer arrives, the record is updated
   * with `output`, the text decoded from it, and the status, and the client
   * is flushed. The block never ends the span itself.
   */
  function PushTrail(
    ctx: ChatContext, userMessage: string, itemId: string, activeTraceId: Option<string>,
    response: Result<ChatResponse, string>, output: string)
    : (effects: seq<Effect>)
    ensures forall i :: 0 <= i < |effects| ==> !effects[i].SpanEnded?
    ensures |effects| >= 2
    ensures effects[0] == TraceCreated(activeTraceId, TraceName(itemId), userMessage, None)
    ensures effects[1] == ChatSent(BuildRequest(ctx, userMessage))
  {
    var created := TraceCreated(activeTraceId, TraceName(itemId), userMessage, None);
    var sent := ChatSent(BuildRequest(ctx, userMessage));
    match response
    case Failure(_) => [created, sent]
    case Success(resp) => [created, sent, TraceUpdated(output, resp.status, IsOk(resp.status)), Flushed]
  }

  /**
   * The value of the `try` block of push mode, or of its `catch`: an error
   * exactly when fetching or flushing threw or the answer was not OK, and
   * the trace id exactly when nothing threw.
   */
  function PushOutcome(activeTraceId: Option<string>, generatedId: string, x: Exchange): (r: ChatResult)
    ensures r.trace.None?
    ensures r.error.None? <==> x.response.Success? && IsOk(x.response.value.status) && x.flushFault.None?
    ensures r.traceId.Some? <==> x.response.Success? && x.flushFault.None?
    ensures r.traceId.Some? ==> r.traceId.value == RecordId(activeTraceId, generatedId)
    ensures x.response.Failure? ==> r.error == Some(x.response.error)
    ensures x.response.Success? && x.flushFault.Some? ==> r.error == x.flushFault
    ensures x.response.Success? && x.flushFault.None? && !IsOk(x.response.value.status)
            ==> r.error == Some(ChatErrorMessage(x.response.value))
  {
    match x.response
    case Failure(msg) => ChatResult(Some(msg), None, None)
    case Success(resp) =>
      if x.flushFault.Some? then ChatResult(x.flushFault, None, None)
      else if !IsOk(resp.status) then
        ChatResult(Some(ChatErrorMessage(resp)), Some(RecordId(activeTraceId, generatedId)), None)
      else
        ChatResult(None, Some(RecordId(activeTraceId, generatedId)), None)
  }

  /**
   * `startActiveSpan` around a block whose `finally` ends the span: the
   * span is started first and ended last, exactly once, whatever the block did.
   */
  function InSpan(trail: seq<Effect>): (effects: seq<Effect>)
    requires forall i :: 0 <= i < |trail| ==> !trail[i].SpanEnded?
    ensures |effects| == |trail| + 2 && effects[0] == SpanStarted(SpanName)
    ensures effects[|effects| - 1] == SpanEnded
    ensures SpanEnded !in effects[..|effects| - 1]
    ensures effects[1..|effects| - 1] == trail
  {
    var effects := [SpanStarted(SpanName)] + trail + [SpanEnded];
    assert effects[..|effects| - 1] == [SpanStarted(SpanName)] + trail;
    assert effects[1..|effects| - 1] == trail;
    effects
  }

  /**
   * Push-mode `processDatasetItem`: the attempt runs inside an active span
   * that is ended in `finally`, so the span is started first and ended
   * last, exactly once, on every path.
   */
  function ProcessPush(
    ctx: ChatContext, userMessage: string, itemId: string, activeTraceId: Option<string>, generatedId: string,
    x: Exchange, decode: Decoder): (inv: Invocation)
    ensures |inv.effects| >= 2 && inv.effects[0] == SpanStarted(SpanName)
    ensures inv.effects[|inv.effects| - 1] == SpanEnded
    ensures SpanEnded !in inv.effects[..|inv.effects| - 1]
    ensures inv.result == PushOutcome(activeTraceId, generatedId, x)
  {
    var output := match x.response
      case Success(resp) => RecordedOutput(decode(resp.body))
      case Failure(_) => NoResponse;
    Invocation(PushOutcome(activeTraceId, generatedId, x),
               InSpan(PushTrail(ctx, userMessage, itemId, activeTraceId, x.response, output)))
  }

  /** An answer, OK or not, is recorded on the trace with the decoded output and its status. */
  lemma PushRecordsAnswer(
    ctx: ChatContext, userMessage: string, itemId: string, activeTraceId: Option<string>, generatedId: string,
    resp: ChatResponse, flushFault: Option<string>, decode: Decoder)
    ensures var inv := ProcessPush(ctx, userMessage, itemId, activeTraceId, generatedId, Exchange(Success(resp), flushFault), decode);
            var decoded := decode(resp.body);
            && |inv.effects| == 6
            && inv.effects[3] == TraceUpdated(if decoded == [] then NoResponse else decoded, resp.status, IsOk(resp.status))
            && inv.effects[4] == Flushed
  {
    var output := RecordedOutput(decode(resp.body));
    var trail := PushTrail(ctx, userMessage, itemId, activeTraceId, Success(resp), output);
    assert trail[2] == TraceUpdated(output, resp.status, IsOk(resp.status)) && trail[3] == Flushed;
    var inv := ProcessPush(ctx, userMessage, itemId, activeTraceId, generatedId, Exchange(Success(resp), flushFault), decode);
    assert inv.effects == InSpan(trail);
    assert inv.effects[1..|inv.effects| - 1] == trail;
    assert inv.effects[3] == trail[2];
  }

  /** A non-OK answer still carries the trace id, so the runner links failed chats too. */
  lemma PushKeepsTraceOnChatError(
    ctx: ChatContext, userMessage: string, itemId: string, activeTraceId: Option<string>, generatedId: string,
    resp: ChatResponse, decode: Decoder)
    requires !IsOk(resp.status)
    ensures var r := ProcessPush(ctx, userMessage, itemId, activeTraceId, generatedId, Exchange(Success(resp), None), decode).result;
            r.error == Some(ChatErrorMessage(resp)) && r.traceId == Some(RecordId(activeTraceId, generatedId))
  {
  }

  /** When fetching throws, the result has the thrown message and no trace id. */
  lemma PushThrowLosesTrace(
    ctx: ChatContext, userMessage: string, itemId: string, activeTraceId: Option<string>, generatedId: string,
    msg: string, flushFault: Option<string>, decode: Decoder)
    ensures var r := ProcessPush(ctx, userMessage, itemId, activeTraceId, generatedId, Exchange(Failure(msg), flushFault), decode).result;
            r == ChatResult(Some(msg), None, None)
  {
  }

  // ---------------------------------------------------------------------
  // Pull mode (dataset script)
  // ---------------------------------------------------------------------

  /** The header the chat service reports its trace id in. */
  const TraceHeader: string := "trace-id"

  /**
   * Pull-mode `processDatasetItem`: a non-OK answer is an error with no
   * trace; a successful one creates the tracing record under the id of the
   * `trace-id` header with the decoded output, then flushes.
   */
  function ProcessPull(ctx: ChatContext, userMessage: string, itemId: string, x: Exchange, decode: Decoder): (inv: Invocation)
    ensures |inv.effects| >= 1 && inv.effects[0] == ChatSent(BuildRequest(ctx, userMessage))
    ensures inv.result.trace.Some? <==> inv.result.error.None?
    ensures inv.result.error.None? <==> x.response.Success? && IsOk(x.response.value.status) && x.flushFault.None?
    ensures inv.result.traceId.Some? ==> inv.result.error.None?
    ensures inv.result.error.None? ==>
              && inv.result.traceId == Lookup(x.response.value.headers, TraceHeader)
              && inv.result.trace == Some(TraceHandle(inv.result.traceId))
    ensures x.response.Failure? ==> inv.result.error == Some(x.response.error)
    ensures x.response.Success? && !IsOk(x.response.value.status)
            ==> inv.result.error == Some(ChatErrorMessage(x.response.value)) && inv.effects == [inv.effects[0]]
  {
    var sent := [ChatSent(BuildRequest(ctx, userMessage))];
    match x.response
    case Failure(msg) => Invocation(ChatResult(Some(msg), None, None), sent)
    case Success(resp) =>
      if !IsOk(resp.status) then
        Invocation(ChatResult(Some(ChatErrorMessage(resp)), None, None), sent)
      else
        var traceId := Lookup(resp.headers, TraceHeader);
        var output := RecordedOutput(decode(resp.body));
        var effects := sent + [TraceCreated(traceId, TraceName(itemId), userMessage, Some(output)), Flushed];
        if x.flushFault.Some? then Invocation(ChatResult(x.flushFault, None, None), effects)
        else Invocation(ChatResult(None, traceId, Some(TraceHandle(traceId))), effects)
  }

  /**
   * The record created on success holds the decoded text, or the
   * placeholder when the stream carried none.
   */
  lemma PullRecordsDecodedOutput(ctx: ChatContext, userMessage: string, itemId: string, resp: ChatResponse, decode: Decoder)
    requires IsOk(resp.status)
    ensures var inv := ProcessPull(ctx, userMessage, itemId, Exchange(Success(resp), None), decode);
            var decoded := decode(resp.body);
            && inv.effects[1].TraceCreated?
            && inv.effects[1].output == Some(if decoded == [] then NoResponse else decoded)
            && inv.effects[1].id == Lookup(resp.headers, TraceHeader)
  {
  }

  /**
   * The two modes fail on exactly the same exchanges, with the same message
   * whenever the chat answered OK or fetching threw; they differ in the
   * trace id of a non-OK answer, which only push mode keeps.
   */
  lemma ModesAgreeOnFailure(
    ctx: ChatContext, userMessage: string, itemId: string, activeTraceId: Option<string>, generatedId: string,
    x: Exchange, decode: Decoder)
    ensures var push := ProcessPush(ctx, userMessage, itemId, activeTraceId, generatedId, x, decode).result;
            var pull := ProcessPull(ctx, userMessage, itemId, x, decode).result;
            && (push.error.Some? <==> pull.error.Some?)
            && (x.response.Failure? || IsOk(x.response.value.status) ==> push.error == pull.error)
            && (x.response.Success? && !IsOk(x.response.value.status) && x.flushFault.None? ==>
                  push.traceId.Some? && pull.traceId.None?)
  {
  }
}
