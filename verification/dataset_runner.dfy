/**
 * The two dataset runners (`runDatasetEvaluation` with `processItem` in the
 * dataset runner, with `processDatasetItems` in the dataset script). After
 * the configuration checks, they fetch the dataset, refuse one without
 * items, and then take every item in order: an item without a usable
 * message is skipped before any request; otherwise its message goes to the
 * chat client, and when the result designates a trace the item is linked
 * to it under the run label, between two flushes. A fault while linking is
 * caught and ends only that item.
 */
module DatasetRunner {
  import opened Wrappers
  import opened Values
  import opened StreamDecoder
  import opened RunConfig
  import opened ChatInvoker

  /**
   * `item.input`: falsy (`NoInput`), or a truthy value whose `message`
   * property is read (any value, `undefined` included).
   */
  datatype ItemInput = NoInput | Input(message: Field)

  datatype DatasetItem = DatasetItem(id: string, input: ItemInput)

  /** The dataset as fetched: `items` is `None` when it is not an array. */
  datatype Dataset = Dataset(name: string, items: Option<seq<DatasetItem>>)

  /** `extractInputFromDatasetItem`: the input's message exactly when it is a string, else null. */
  function ExtractInput(item: DatasetItem): (m: Option<string>)
    ensures m.Some? <==> item.input.Input? && item.input.message.Str?
    ensures m.Some? ==> Str(m.value) == item.input.message
  {
    match item.input
    case NoInput => None
    case Input(message) => if message.Str? then Some(message.s) else None
  }

  /** An item is skipped when no truthy message can be extracted from it. */
  predicate Skips(item: DatasetItem) {
    !Present(ExtractInput(item))
  }

  // ---------------------------------------------------------------------
  // One item
  // ---------------------------------------------------------------------

  /** The steps of linking, in order: flush, link, flush. */
  datatype LinkStep = FirstFlush | LinkCall | SecondFlush

  /** The step of linking that throws, and what it throws. */
  datatype LinkFault = LinkFault(step: LinkStep, message: string)

  /** What the outside world does while one item is processed. */
  datatype ItemWorld = ItemWorld(
    activeTraceId: Option<string>, generatedId: string, chat: Exchange, linkFault: Option<LinkFault>)

  /** The metadata of a link: the dataset under its key, and the three ids. */
  datatype LinkMetadata = LinkMetadata(datasetKey: string, dataset: string, tenantId: string, projectId: string, graphId: string)

  const LinkDescription: string := "Dataset run via Inkeep Agent Framework"

  /** What every item of a run shares. */
  datatype RunContext = RunContext(runner: Runner, chat: ChatContext, runLabel: string, metadata: LinkMetadata)

  /** A request of the runner. */
  datatype Call =
    | GetDataset(key: string)
    | Chat(itemId: string, effects: seq<Effect>)
    | Flush
    | Link(itemId: string, trace: TraceHandle, runLabel: string, description: string, metadata: LinkMetadata)

  /** Where an item ended. */
  datatype ItemOutcome =
    | Skipped
    | Linked(trace: TraceHandle)
    | Unlinked(chatError: Option<string>)
    | Failed(error: string)

  datatype ItemRun = ItemRun(calls: seq<Call>, outcome: ItemOutcome)

  /** The flush, link, flush sequence, cut short by the step that throws. */
  function LinkSteps(rc: RunContext, itemId: string, trace: TraceHandle, fault: Option<LinkFault>): (r: ItemRun)
    ensures 1 <= |r.calls| <= 3 && r.calls[0] == Flush
    ensures r.outcome.Linked? <==> fault.None?
    ensures r.outcome.Linked? ==> r.outcome.trace == trace && |r.calls| == 3
    ensures fault.Some? ==> r.outcome == Failed(fault.value.message)
    ensures |r.calls| >= 2 ==> r.calls[1] == Link(itemId, trace, rc.runLabel, LinkDescription, rc.metadata)
    ensures |r.calls| == 3 ==> r.calls[2] == Flush
    ensures forall i :: 0 <= i < |r.calls| ==> !r.calls[i].Chat?
  {
    var link := Link(itemId, trace, rc.runLabel, LinkDescription, rc.metadata);
    match fault
    case None => ItemRun([Flush, link, Flush], Linked(trace))
    case Some(f) =>
      match f.step
      case FirstFlush => ItemRun([Flush], Failed(f.message))
      case LinkCall => ItemRun([Flush, link], Failed(f.message))
      case SecondFlush => ItemRun([Flush, link, Flush], Failed(f.message))
  }

  /**
   * The chat client as an item sees it: the invocation that sending a
   * message for an item produces in a given world.
   */
  type Client = (string, string, ItemWorld) -> Invocation

  /** The client of the dataset runner: push mode. */
  function PushClient(ctx: ChatContext, decode: Decoder): (client: Client)
    ensures forall m, id, w :: client(m, id, w) == ProcessPush(ctx, m, id, w.activeTraceId, w.generatedId, w.chat, decode)
  {
    (m, id, w: ItemWorld) => ProcessPush(ctx, m, id, w.activeTraceId, w.generatedId, w.chat, decode)
  }

  /** The client of the dataset script: pull mode. */
  function PullClient(ctx: ChatContext, decode: Decoder): (client: Client)
    ensures forall m, id, w :: client(m, id, w) == ProcessPull(ctx, m, id, w.chat, decode)
  {
    (m, id, w: ItemWorld) => ProcessPull(ctx, m, id, w.chat, decode)
  }

  /** The client each runner constructs, with the event-stream decoder. */
  function ClientOf(rc: RunContext, parse: Parser): Client {
    match rc.runner
    case DatasetRunner => PushClient(rc.chat, EventStreamDecoder(parse))
    case DatasetScript => PullClient(rc.chat, EventStreamDecoder(parse))
  }

  /**
   * `processItem` (dataset runner): push-mode chat, then a link under the
   * returned trace id when it is truthy. A failed chat that still returned
   * a trace id is linked too.
   */
  function PushItem(rc: RunContext, item: DatasetItem, w: ItemWorld, client: Client): (r: ItemRun)
    requires !Skips(item)
    ensures |r.calls| >= 1 && r.calls[0].Chat? && r.calls[0].itemId == item.id
    ensures forall i :: 1 <= i < |r.calls| ==> !r.calls[i].Chat?
    ensures !r.outcome.Skipped?
    ensures var res := client(ExtractInput(item).value, item.id, w).result;
            && (r.outcome.Unlinked? <==> !Present(res.traceId))
            && (r.outcome.Unlinked? ==> r.outcome.chatError == res.error && |r.calls| == 1)
            && (r.outcome.Linked? ==> r.outcome.trace == TraceHandle(res.traceId))
  {
    var inv := client(ExtractInput(item).value, item.id, w);
    var chat := Chat(item.id, inv.effects);
    if !Present(inv.result.traceId) then ItemRun([chat], Unlinked(inv.result.error))
    else
      var linking := LinkSteps(rc, item.id, TraceHandle(inv.result.traceId), w.linkFault);
      assert forall i :: 1 <= i < 1 + |linking.calls| ==> ([chat] + linking.calls)[i] == linking.calls[i - 1];
      ItemRun([chat] + linking.calls, linking.outcome)
  }

  /**
   * The body of the item loop of `processDatasetItems` (dataset script):
   * pull-mode chat, then a link to the returned trace handle when there is
   * one, which is exactly when the chat succeeded.
   */
  function PullItem(rc: RunContext, item: DatasetItem, w: ItemWorld, client: Client): (r: ItemRun)
    requires !Skips(item)
    ensures |r.calls| >= 1 && r.calls[0].Chat? && r.calls[0].itemId == item.id
    ensures forall i :: 1 <= i < |r.calls| ==> !r.calls[i].Chat?
    ensures !r.outcome.Skipped?
    ensures var res := client(ExtractInput(item).value, item.id, w).result;
            && (r.outcome.Unlinked? <==> res.trace.None?)
            && (r.outcome.Unlinked? ==> r.outcome.chatError == res.error && |r.calls| == 1)
            && (r.outcome.Linked? ==> Some(r.outcome.trace) == res.trace)
  {
    var inv := client(ExtractInput(item).value, item.id, w);
    var chat := Chat(item.id, inv.effects);
    match inv.result.trace
    case None => ItemRun([chat], Unlinked(inv.result.error))
    case Some(trace) =>
      var linking := LinkSteps(rc, item.id, trace, w.linkFault);
      assert forall i :: 1 <= i < 1 + |linking.calls| ==> ([chat] + linking.calls)[i] == linking.calls[i - 1];
      ItemRun([chat] + linking.calls, linking.outcome)
  }

  /**
   * One item of either runner: skipped, with no request at all, exactly
   * when no usable message can be extracted; otherwise its first request
   * is the chat.
   */
  function ItemStep(rc: RunContext, item: DatasetItem, w: ItemWorld, client: Client): (r: ItemRun)
    ensures r.outcome.Skipped? <==> Skips(item)
    ensures r.outcome.Skipped? ==> r.calls == []
    ensures !r.outcome.Skipped? ==> |r.calls| >= 1 && r.calls[0].Chat? && r.calls[0].itemId == item.id
    ensures forall i :: 1 <= i < |r.calls| ==> !r.calls[i].Chat?
  {
    if Skips(item) then ItemRun([], Skipped)
    else match rc.runner
      case DatasetRunner => PushItem(rc, item, w, client)
      case DatasetScript => PullItem(rc, item, w, client)
  }

  /**
   * Dataset runner: a chat answered with a non-OK status still yields a
   * trace id, so the item is linked to that trace (here with linking not
   * throwing) after the chat request.
   */
  lemma PushLinksFailedChat(rc: RunContext, item: DatasetItem, w: ItemWorld, parse: Parser, resp: ChatResponse)
    requires rc.runner.DatasetRunner? && !Skips(item)
    requires w.chat == Exchange(Success(resp), None) && !IsOk(resp.status) && w.linkFault.None?
    requires Present(Some(RecordId(w.activeTraceId, w.generatedId)))
    ensures var r := ItemStep(rc, item, w, ClientOf(rc, parse));
            && r.outcome == Linked(TraceHandle(Some(RecordId(w.activeTraceId, w.generatedId))))
            && |r.calls| == 4 && r.calls[2].Link?
  {
    var client := ClientOf(rc, parse);
    var m := ExtractInput(item).value;
    var inv := client(m, item.id, w);
    assert inv == ProcessPush(rc.chat, m, item.id, w.activeTraceId, w.generatedId, w.chat, EventStreamDecoder(parse));
    PushKeepsTraceOnChatError(rc.chat, m, item.id, w.activeTraceId, w.generatedId, resp, EventStreamDecoder(parse));
    var trace := TraceHandle(inv.result.traceId);
    var linking := LinkSteps(rc, item.id, trace, None);
    assert ItemStep(rc, item, w, client) == ItemRun([Chat(item.id, inv.effects)] + linking.calls, linking.outcome);
  }

  /**
   * Dataset script: a chat answered with a non-OK status has no trace, so
   * the item makes the chat request only and ends unlinked with the error.
   */
  lemma PullNeverLinksFailedChat(rc: RunContext, item: DatasetItem, w: ItemWorld, parse: Parser, resp: ChatResponse)
    requires rc.runner.DatasetScript? && !Skips(item)
    requires w.chat.response == Success(resp) && !IsOk(resp.status)
    ensures var r := ItemStep(rc, item, w, ClientOf(rc, parse));
            r.outcome == Unlinked(Some(ChatErrorMessage(resp))) && |r.calls| == 1
  {
    var client := ClientOf(rc, parse);
    var m := ExtractInput(item).value;
    assert client(m, item.id, w) == ProcessPull(rc.chat, m, item.id, w.chat, EventStreamDecoder(parse));
  }

  // ---------------------------------------------------------------------
  // The item loop
  // ---------------------------------------------------------------------

  datatype ItemsRun = ItemsRun(calls: seq<Call>, outcomes: seq<ItemOutcome>)

  /** The run of each item, each in its own world. */
  function ItemRuns(rc: RunContext, items: seq<DatasetItem>, worlds: seq<ItemWorld>, client: Client): (runs: seq<ItemRun>)
    requires |worlds| == |items|
    ensures |runs| == |items|
    ensures forall i :: 0 <= i < |items| ==> runs[i] == ItemStep(rc, items[i], worlds[i], client)
  {
    seq(|items|, i requires 0 <= i < |items| => ItemStep(rc, items[i], worlds[i], client))
  }

  /** The requests of the item runs in order, and their outcomes. */
  function Collect(runs: seq<ItemRun>): (r: ItemsRun)
    ensures |r.outcomes| == |runs|
  {
    if runs == [] then ItemsRun([], [])
    else
      var rest := Collect(runs[1..]);
      ItemsRun(runs[0].calls + rest.calls, [runs[0].outcome] + rest.outcomes)
  }

  /** The collected outcomes are the runs' outcomes, in order. */
  lemma {:induction false} CollectOutcomes(runs: seq<ItemRun>)
    ensures forall i :: 0 <= i < |runs| ==> Collect(runs).outcomes[i] == runs[i].outcome
  {
    if runs != [] {
      CollectOutcomes(runs[1..]);
      assert forall i :: 1 <= i < |runs| ==> runs[1..][i - 1] == runs[i];
    }
  }

  /**
   * The item loop: every item is taken in order, whatever happened to the
   * items before it, and ends in exactly one outcome.
   */
  function ProcessItems(rc: RunContext, items: seq<DatasetItem>, worlds: seq<ItemWorld>, client: Client): (r: ItemsRun)
    requires |worlds| == |items|
    ensures |r.outcomes| == |items|
    ensures forall i :: 0 <= i < |items| ==> r.outcomes[i] == ItemStep(rc, items[i], worlds[i], client).outcome
  {
    CollectOutcomes(ItemRuns(rc, items, worlds, client));
    Collect(ItemRuns(rc, items, worlds, client))
  }

  /** The number of chat requests in `calls`. */
  function ChatCount(calls: seq<Call>): nat {
    if calls == [] then 0 else (if calls[0].Chat? then 1 else 0) + ChatCount(calls[1..])
  }

  /** The number of outcomes of items that were not skipped. */
  function AttemptedCount(outcomes: seq<ItemOutcome>): nat {
    if outcomes == [] then 0 else (if outcomes[0].Skipped? then 0 else 1) + AttemptedCount(outcomes[1..])
  }

  lemma {:induction false} ChatCountAppend(a: seq<Call>, b: seq<Call>)
    ensures ChatCount(a + b) == ChatCount(a) + ChatCount(b)
  {
    if a == [] {
      assert a + b == b;
    } else {
      assert (a + b)[1..] == a[1..] + b;
      ChatCountAppend(a[1..], b);
    }
  }

  /** An item run makes one chat request unless the item was skipped. */
  predicate OneChatUnlessSkipped(r: ItemRun) {
    ChatCount(r.calls) == if r.outcome.Skipped? then 0 else 1
  }

  /** An item makes one chat request when it is not skipped and none when it is. */
  lemma ItemChats(rc: RunContext, item: DatasetItem, w: ItemWorld, client: Client)
    ensures OneChatUnlessSkipped(ItemStep(rc, item, w, client))
  {
    var r := ItemStep(rc, item, w, client);
    if !Skips(item) {
      var tail := r.calls[1..];
      assert forall i :: 0 <= i < |tail| ==> !tail[i].Chat?;
      assert r.calls == [r.calls[0]] + tail;
      NoChatIn(tail);
    }
  }

  lemma {:induction false} NoChatIn(calls: seq<Call>)
    requires forall i :: 0 <= i < |calls| ==> !calls[i].Chat?
    ensures ChatCount(calls) == 0
  {
    if calls != [] {
      NoChatIn(calls[1..]);
    }
  }

  lemma {:induction false} CollectChats(runs: seq<ItemRun>)
    requires forall i :: 0 <= i < |runs| ==> OneChatUnlessSkipped(runs[i])
    ensures ChatCount(Collect(runs).calls) == AttemptedCount(Collect(runs).outcomes)
  {
    if runs != [] {
      var rest := Collect(runs[1..]);
      CollectChats(runs[1..]);
      ChatCountAppend(runs[0].calls, rest.calls);
      assert ([runs[0].outcome] + rest.outcomes)[1..] == rest.outcomes;
    }
  }

  /**
   * The loop makes exactly one chat request per item that is not skipped,
   * and an item is skipped exactly when it has no usable input.
   */
  lemma OneChatPerAttemptedItem(rc: RunContext, items: seq<DatasetItem>, worlds: seq<ItemWorld>, client: Client)
    requires |worlds| == |items|
    ensures var r := ProcessItems(rc, items, worlds, client);
            && ChatCount(r.calls) == AttemptedCount(r.outcomes)
            && forall i :: 0 <= i < |items| ==> (r.outcomes[i].Skipped? <==> Skips(items[i]))
  {
    var runs := ItemRuns(rc, items, worlds, client);
    forall i | 0 <= i < |runs| ensures OneChatUnlessSkipped(runs[i]) {
      ItemChats(rc, items[i], worlds[i], client);
    }
    CollectChats(runs);
  }

  /** A run without requests leaves the collected requests unchanged wherever it is inserted. */
  lemma {:induction false} SilentRunInvisible(before: seq<ItemRun>, r: ItemRun, after: seq<ItemRun>)
    requires r.calls == []
    ensures Collect(before + [r] + after).calls == Collect(before + after).calls
  {
    if before == [] {
      assert before + [r] + after == [r] + after;
      assert before + after == after;
      assert ([r] + after)[1..] == after;
    } else {
      assert (before + [r] + after)[1..] == before[1..] + [r] + after;
      assert (before + after)[1..] == before[1..] + after;
      SilentRunInvisible(before[1..], r, after);
    }
  }

  lemma ItemRunsAppend(
    rc: RunContext, before: seq<DatasetItem>, item: DatasetItem, after: seq<DatasetItem>,
    wb: seq<ItemWorld>, w: ItemWorld, wa: seq<ItemWorld>, client: Client)
    requires |wb| == |before| && |wa| == |after|
    ensures ItemRuns(rc, before + [item] + after, wb + [w] + wa, client)
         == ItemRuns(rc, before, wb, client) + [ItemStep(rc, item, w, client)] + ItemRuns(rc, after, wa, client)
    ensures ItemRuns(rc, before + after, wb + wa, client)
         == ItemRuns(rc, before, wb, client) + ItemRuns(rc, after, wa, client)
  {
  }

  /**
   * A skipped item is invisible in the requests: inserting one anywhere
   * leaves the call log unchanged.
   */
  lemma SkippedItemMakesNoRequest(
    rc: RunContext, before: seq<DatasetItem>, item: DatasetItem, after: seq<DatasetItem>,
    wb: seq<ItemWorld>, w: ItemWorld, wa: seq<ItemWorld>, client: Client)
    requires Skips(item)
    requires |wb| == |before| && |wa| == |after|
    ensures ProcessItems(rc, before + [item] + after, wb + [w] + wa, client).calls
         == ProcessItems(rc, before + after, wb + wa, client).calls
  {
    ItemRunsAppend(rc, before, item, after, wb, w, wa, client);
    SilentRunInvisible(ItemRuns(rc, before, wb, client), ItemStep(rc, item, w, client), ItemRuns(rc, after, wa, client));
  }

  /** The collected runs from `i` on: run `i`, then the runs after it. */
  lemma CollectFrom(runs: seq<ItemRun>, i: nat)
    requires i < |runs|
    ensures Collect(runs[i..]).calls == runs[i].calls + Collect(runs[i + 1..]).calls
    ensures Collect(runs[i..]).outcomes == [runs[i].outcome] + Collect(runs[i + 1..]).outcomes
  {
    assert runs[i..][1..] == runs[i + 1..];
  }

  /** A skipped item made no request. */
  predicate SilentWhenSkipped(r: ItemRun) {
    r.outcome.Skipped? ==> r.calls == []
  }

  /**
   * One turn of the item loop: run `i` moves from the rest of the loop to
   * what was done, adding no request when the item was skipped.
   */
  lemma {:induction false} LoopTurn(runs: seq<ItemRun>, i: nat, calls: seq<Call>, outcomes: seq<ItemOutcome>)
    requires i < |runs| && SilentWhenSkipped(runs[i])
    requires Collect(runs).calls == calls + Collect(runs[i..]).calls
    requires Collect(runs).outcomes == outcomes + Collect(runs[i..]).outcomes
    ensures Collect(runs).calls
            == (if runs[i].outcome.Skipped? then calls else calls + runs[i].calls) + Collect(runs[i + 1..]).calls
    ensures Collect(runs).outcomes == (outcomes + [runs[i].outcome]) + Collect(runs[i + 1..]).outcomes
  {
    CollectFrom(runs, i);
    var restCalls, restOutcomes := Collect(runs[i + 1..]).calls, Collect(runs[i + 1..]).outcomes;
    assert calls + (runs[i].calls + restCalls) == calls + runs[i].calls + restCalls;
    assert outcomes + ([runs[i].outcome] + restOutcomes) == outcomes + [runs[i].outcome] + restOutcomes;
  }

  /**
   * The loop of `processDatasetItems` (dataset script) over the items' runs,
   * with `continue` for a skipped item: it records the requests and the
   * outcomes of the item loop.
   */
  method CollectLoop(runs: seq<ItemRun>) returns (calls: seq<Call>, outcomes: seq<ItemOutcome>)
    requires forall i :: 0 <= i < |runs| ==> SilentWhenSkipped(runs[i])
    ensures ItemsRun(calls, outcomes) == Collect(runs)
  {
    calls, outcomes := [], [];
    var i := 0;
    while i < |runs|
      invariant 0 <= i <= |runs|
      invariant Collect(runs).calls == calls + Collect(runs[i..]).calls
      invariant Collect(runs).outcomes == outcomes + Collect(runs[i..]).outcomes
    {
      var step := runs[i];
      LoopTurn(runs, i, calls, outcomes);
      if step.outcome.Skipped? {
        outcomes := outcomes + [Skipped];
        i := i + 1;
        continue;
      }
      calls := calls + step.calls;
      outcomes := outcomes + [step.outcome];
      i := i + 1;
    }
    assert runs[i..] == [];
  }

  /**
   * `processDatasetItems`: each item runs in its own world, and the loop
   * collects the runs; the result is the item loop.
   */
  method ProcessDatasetItems(rc: RunContext, items: seq<DatasetItem>, worlds: seq<ItemWorld>, client: Client)
    returns (calls: seq<Call>, outcomes: seq<ItemOutcome>)
    requires |worlds| == |items|
    ensures |outcomes| == |items|
    ensures ItemsRun(calls, outcomes) == ProcessItems(rc, items, worlds, client)
  {
    var runs := ItemRuns(rc, items, worlds, client);
    calls, outcomes := CollectLoop(runs);
  }

  // ---------------------------------------------------------------------
  // The run
  // ---------------------------------------------------------------------

  function ApiKeyMessage(runner: Runner): string {
    match runner
    case DatasetRunner => "API key is required. Set INKEEP_AGENTS_RUN_API_KEY"
    case DatasetScript => "API key is required. Set INKEEP_AGENTS_RUN_API_KEY environment variable"
  }

  function BaseUrlMessage(runner: Runner): string {
    match runner
    case DatasetRunner => "Base URL is required. Set INKEEP_AGENTS_RUN_API_URL"
    case DatasetScript => "Base URL is required. Set INKEEP_AGENTS_RUN_API_URL environment variable"
  }

  function NotFoundMessage(dataset: string): string {
    "Dataset " + dataset + " not found in Langfuse"
  }

  function NoItemsMessage(runner: Runner): string {
    match runner
    case DatasetRunner => "Dataset has no items; cannot run evaluation."
    case DatasetScript => "Dataset has no items; cannot link runs. Verify SDK call returns items."
  }

  /** The run label: the prefix and the start time as an ISO-8601 string. */
  function RunLabel(timestamp: string): string {
    "dataset-run:" + timestamp
  }

  /** How a run ended: every item's outcome, or the fatal error. */
  datatype Evaluation = Evaluation(calls: seq<Call>, outcome: Result<seq<ItemOutcome>, string>)

  /** The API key used: the configured one, else the environment's. */
  function AuthKey(cfg: Config, env: map<string, string>): Option<string> {
    if Present(cfg.apiKey) then cfg.apiKey else Lookup(env, "INKEEP_AGENTS_RUN_API_KEY")
  }

  /** The context shared by the items of a run. */
  function ContextOf(runner: Runner, cfg: Config, authKey: string, baseUrl: string, timestamp: string): RunContext {
    RunContext(runner, ChatContext(baseUrl, authKey, cfg.tenantId, cfg.projectId, cfg.graphId),
      RunLabel(timestamp), LinkMetadata(DatasetKey(runner), cfg.dataset, cfg.tenantId, cfg.projectId, cfg.graphId))
  }

  /**
   * `runDatasetEvaluation`: the key and URL checks, the dataset fetch, the
   * no-items check, then the item loop. Every fatal error is raised before
   * any item is taken. `fetched` is what the dataset lookup gives: the
   * message it throws, or the dataset it returns (`None` for a null one).
   */
  function RunDatasetEvaluation(
    runner: Runner, cfg: Config, env: map<string, string>, fetched: Result<Option<Dataset>, string>,
    timestamp: string, world: nat -> ItemWorld, parse: Parser): (r: Evaluation)
    ensures r.outcome.Failure? ==> |r.calls| <= 1 && ChatCount(r.calls) == 0
    ensures !Present(AuthKey(cfg, env)) ==> r == Evaluation([], Failure(ApiKeyMessage(runner)))
    ensures Present(AuthKey(cfg, env)) && !Present(cfg.baseUrl) ==> r == Evaluation([], Failure(BaseUrlMessage(runner)))
    ensures Present(AuthKey(cfg, env)) && Present(cfg.baseUrl) ==> r.calls != [] && r.calls[0] == GetDataset(cfg.dataset)
    ensures Present(AuthKey(cfg, env)) && Present(cfg.baseUrl) && fetched.Failure?
            ==> r.outcome == Failure(fetched.error)
    ensures Present(AuthKey(cfg, env)) && Present(cfg.baseUrl) && fetched == Success(None)
            ==> r.outcome == Failure(NotFoundMessage(cfg.dataset))
    ensures Present(AuthKey(cfg, env)) && Present(cfg.baseUrl) && fetched.Success? && fetched.value.Some?
            && (fetched.value.value.items.None? || fetched.value.value.items.value == [])
            ==> r.outcome == Failure(NoItemsMessage(runner))
    ensures r.outcome.Success? ==>
              && Present(AuthKey(cfg, env)) && Present(cfg.baseUrl)
              && fetched.Success? && fetched.value.Some? && fetched.value.value.items.Some?
              && var items := fetched.value.value.items.value;
                 var rc := ContextOf(runner, cfg, AuthKey(cfg, env).value, cfg.baseUrl.value, timestamp);
                 var looped := ProcessItems(rc, items, seq(|items|, i requires 0 <= i => world(i)), ClientOf(rc, parse));
                 && |items| > 0
                 && r == Evaluation([GetDataset(cfg.dataset)] + looped.calls, Success(looped.outcomes))
                 && |r.outcome.value| == |items|
  {
    var authKey := AuthKey(cfg, env);
    if !Present(authKey) then Evaluation([], Failure(ApiKeyMessage(runner)))
    else if !Present(cfg.baseUrl) then Evaluation([], Failure(BaseUrlMessage(runner)))
    else
      var lookup := [GetDataset(cfg.dataset)];
      match fetched
      case Failure(thrown) => Evaluation(lookup, Failure(thrown))
      case Success(None) => Evaluation(lookup, Failure(NotFoundMessage(cfg.dataset)))
      case Success(Some(dataset)) =>
        if dataset.items.None? || |dataset.items.value| == 0 then
          Evaluation(lookup, Failure(NoItemsMessage(runner)))
        else
          var items := dataset.items.value;
          var rc := ContextOf(runner, cfg, authKey.value, cfg.baseUrl.value, timestamp);
          var looped := ProcessItems(rc, items, seq(|items|, i requires 0 <= i => world(i)), ClientOf(rc, parse));
          Evaluation(lookup + looped.calls, Success(looped.outcomes))
  }

  /** With a key and a URL, the run fetches the dataset first and fails, if at all, on the dataset. */
  lemma {:induction false} KeyChecksPass(
    runner: Runner, cfg: Config, env: map<string, string>, fetched: Result<Option<Dataset>, string>, timestamp: string,
    world: nat -> ItemWorld, parse: Parser)
    requires Present(AuthKey(cfg, env)) && Present(cfg.baseUrl)
    ensures var r := RunDatasetEvaluation(runner, cfg, env, fetched, timestamp, world, parse);
            && r.calls != [] && r.calls[0] == GetDataset(cfg.dataset)
            && (r.outcome.Failure? ==>
                 r.outcome.error in {NotFoundMessage(cfg.dataset), NoItemsMessage(runner)}
                 || (fetched.Failure? && r.outcome.error == fetched.error))
  {
  }

  /**
   * After a successful configuration check the key and URL checks of the
   * run never fail: both values come from variables that check requires.
   */
  lemma ValidatedRunPassesKeyChecks(
    runner: Runner, env: map<string, string>, args: seq<string>, fetched: Result<Option<Dataset>, string>, timestamp: string,
    world: nat -> ItemWorld, parse: Parser)
    ensures ParseAndValidateConfig(runner, env, args).Success? ==>
              var cfg := ParseAndValidateConfig(runner, env, args).value;
              var r := RunDatasetEvaluation(runner, cfg, env, fetched, timestamp, world, parse);
              && r.calls != [] && r.calls[0] == GetDataset(cfg.dataset)
              && (r.outcome.Failure? ==>
                 r.outcome.error in {NotFoundMessage(cfg.dataset), NoItemsMessage(runner)}
                 || (fetched.Failure? && r.outcome.error == fetched.error))
  {
    if ParseAndValidateConfig(runner, env, args).Success? {
      ValidConfigHasEndpoint(runner, env, args);
      var cfg := ParseAndValidateConfig(runner, env, args).value;
      KeyChecksPass(runner, cfg, env, fetched, timestamp, world, parse);
    }
  }
}
