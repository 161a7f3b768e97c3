/**
 * The score-existing-runs flow (`main` of the dataset evaluation): read
 * the settings, ensure the score configuration, resolve the dataset id,
 * then for every run item the paginated iterator yields count it, skip it
 * when it has no trace, otherwise fetch its trace, judge it and post the
 * score. There is no per-item error handling in this flow: a failed trace
 * fetch or score post ends the whole run, like a failed page request.
 * All requests are recorded, in order, in a call log.
 */
module DatasetEval {
  import opened Wrappers
  import opened Values
  import opened RunItemPages
  import opened TraceScoring

  /** The settings the run needs besides the scoring settings. */
  datatype EvalConfig = EvalConfig(datasetName: string, runName: string, settings: Settings)

  /** The environment variables that must be set and non-empty. */
  const RequiredEnv: seq<string> :=
    ["LANGFUSE_BASE_URL", "LANGFUSE_PUBLIC_KEY", "LANGFUSE_SECRET_KEY", "DATASET_NAME", "RUN_NAME"]

  /** The top-level check: every required variable is set and non-empty, else "Missing env". */
  function LoadConfig(env: map<string, string>): (r: Result<EvalConfig, string>)
    ensures r.Success? <==> forall i :: 0 <= i < |RequiredEnv| ==> Present(Lookup(env, RequiredEnv[i]))
    ensures r.Failure? ==> r.error == "Missing env"
    ensures r.Success? ==> (Lookup(env, "DATASET_NAME") == Some(r.value.datasetName)
                            && Lookup(env, "RUN_NAME") == Some(r.value.runName))
    ensures r.Success? ==> (r.value.settings.spanName == Lookup(env, "SPAN_NAME")
                            && r.value.settings.targetAttribute == Lookup(env, "TARGET_ATTRIBUTE")
                            && r.value.settings.scoreName == Lookup(env, "SCORE_NAME"))
  {
    if !AllPresent(env, RequiredEnv) then Failure("Missing env")
    else
      assert Present(Lookup(env, RequiredEnv[3])) && Present(Lookup(env, RequiredEnv[4]));
      Success(EvalConfig(env["DATASET_NAME"], env["RUN_NAME"],
        Settings(Lookup(env, "SCORE_NAME"), Lookup(env, "SPAN_NAME"), Lookup(env, "TARGET_ATTRIBUTE"))))
  }

  /**
   * The tracing backend as the run sees it: the response to each request it
   * can make. `scoreConfigRejection` is the message the score-configuration
   * request rejects with, if it does; its status and text are then never read.
   */
  datatype Backend = Backend(
    scoreConfigRejection: Option<string>,
    scoreConfigStatus: int,
    scoreConfigText: string,
    datasetLookup: Result<string, HttpError>,
    pages: PageSource,
    traces: string -> Result<TraceRecord, HttpError>,
    scorePosts: ScorePayload -> Option<HttpError>)

  /** One request of the run. */
  datatype Call =
    | CreateScoreConfig(config: ScoreConfig)
    | LookupDataset(name: string)
    | FetchRunItems(datasetId: string, runName: string, page: nat)
    | FetchTrace(traceId: string)
    | PostScore(payload: ScorePayload)

  /** Why a run ended early. */
  datatype EvalError =
    | Setup(cause: SetupError)
    | DatasetLookupFailed(lookup: HttpError)
    | RunItemsFailed(page: HttpError)
    | TraceFetchFailed(trace: HttpError)
    | ScorePostFailed(post: HttpError)

  /** The requests a run made and how it ended: the count of items processed, or an error. */
  datatype Run = Run(calls: seq<Call>, outcome: Result<nat, EvalError>)

  // ---------------------------------------------------------------------
  // Views of the call log
  // ---------------------------------------------------------------------

  /** The page numbers of the run-item requests in `calls`, in order. */
  function PagesRequested(calls: seq<Call>): seq<nat> {
    if calls == [] then []
    else (if calls[0].FetchRunItems? then [calls[0].page] else []) + PagesRequested(calls[1..])
  }

  /** The trace ids of the trace fetches in `calls`, in order. */
  function TracesFetched(calls: seq<Call>): seq<string> {
    if calls == [] then []
    else (if calls[0].FetchTrace? then [calls[0].traceId] else []) + TracesFetched(calls[1..])
  }

  /** The trace ids of the scores posted in `calls`, in order. */
  function TracesScored(calls: seq<Call>): seq<string> {
    if calls == [] then []
    else (if calls[0].PostScore? then [calls[0].payload.traceId] else []) + TracesScored(calls[1..])
  }

  lemma {:induction false} PagesAppend(a: seq<Call>, b: seq<Call>)
    ensures PagesRequested(a + b) == PagesRequested(a) + PagesRequested(b)
  {
    if a != [] {
      assert (a + b)[1..] == a[1..] + b;
      PagesAppend(a[1..], b);
      var h := if a[0].FetchRunItems? then [a[0].page] else [];
      assert PagesRequested(a + b) == h + PagesRequested(a[1..] + b);
      assert h + (PagesRequested(a[1..]) + PagesRequested(b)) == (h + PagesRequested(a[1..])) + PagesRequested(b);
    } else {
      assert a + b == b;
    }
  }

  lemma {:induction false} FetchedAppend(a: seq<Call>, b: seq<Call>)
    ensures TracesFetched(a + b) == TracesFetched(a) + TracesFetched(b)
  {
    if a != [] {
      assert (a + b)[1..] == a[1..] + b;
      FetchedAppend(a[1..], b);
      var h := if a[0].FetchTrace? then [a[0].traceId] else [];
      assert TracesFetched(a + b) == h + TracesFetched(a[1..] + b);
      assert h + (TracesFetched(a[1..]) + TracesFetched(b)) == (h + TracesFetched(a[1..])) + TracesFetched(b);
    } else {
      assert a + b == b;
    }
  }

  lemma {:induction false} ScoredAppend(a: seq<Call>, b: seq<Call>)
    ensures TracesScored(a + b) == TracesScored(a) + TracesScored(b)
  {
    if a != [] {
      assert (a + b)[1..] == a[1..] + b;
      ScoredAppend(a[1..], b);
      var h := if a[0].PostScore? then [a[0].payload.traceId] else [];
      assert TracesScored(a + b) == h + TracesScored(a[1..] + b);
      assert h + (TracesScored(a[1..]) + TracesScored(b)) == (h + TracesScored(a[1..])) + TracesScored(b);
    } else {
      assert a + b == b;
    }
  }

  /** The three views distribute over concatenation of logs. */
  lemma ViewsAppend(a: seq<Call>, b: seq<Call>)
    ensures PagesRequested(a + b) == PagesRequested(a) + PagesRequested(b)
    ensures TracesFetched(a + b) == TracesFetched(a) + TracesFetched(b)
    ensures TracesScored(a + b) == TracesScored(a) + TracesScored(b)
  {
    PagesAppend(a, b);
    FetchedAppend(a, b);
    ScoredAppend(a, b);
  }

  /** The trace ids of the run items that have one, in order. */
  function TracedIds(items: seq<RunItem>): seq<string> {
    if items == [] then []
    else (if Present(items[0].traceId) then [items[0].traceId.value] else []) + TracedIds(items[1..])
  }

  /**
   * The score `payload` is the judgment of the trace the backend returns for
   * its trace id: that fetch succeeds and the payload scores what it found.
   */
  predicate JudgedScore(cfg: EvalConfig, b: Backend, payload: ScorePayload) {
    && b.traces(payload.traceId).Success?
    && payload == ScoreFor(cfg.settings, payload.traceId, Judge(cfg, b.traces(payload.traceId).value))
  }

  /**
   * Every score posted is the judgment of the trace fetched, successfully,
   * by the request just before it.
   */
  predicate ScoresFollowFetches(cfg: EvalConfig, b: Backend, calls: seq<Call>) {
    forall i :: 0 <= i < |calls| && calls[i].PostScore? ==>
      && i > 0 && calls[i - 1] == FetchTrace(calls[i].payload.traceId)
      && JudgedScore(cfg, b, calls[i].payload)
  }

  // ---------------------------------------------------------------------
  // The run
  // ---------------------------------------------------------------------

  /** The judgment of one fetched trace. */
  function Judge(cfg: EvalConfig, t: TraceRecord): bool {
    AttributeUsed(FilterSpan(ObservationsOf(t), cfg.settings.spanName), cfg.settings.targetAttribute)
  }

  /**
   * A trace is judged to use the tool exactly when some observation of it
   * has the span name and calls the target tool.
   */
  lemma JudgeFindsMatchingObservation(cfg: EvalConfig, t: TraceRecord)
    ensures Judge(cfg, t) <==> exists o :: o in ObservationsOf(t) && StrictEquals(o.name, cfg.settings.spanName)
                                             && StrictEquals(o.toolCallName, cfg.settings.targetAttribute)
  {
    UsedIffSomeObservationMatches(ObservationsOf(t), cfg.settings);
  }

  /**
   * The body of the loop over the items of one page. Every item adds one to
   * the total, whether skipped or scored; an item without a trace makes no
   * request; a failed trace fetch or score post ends the run.
   */
  function ScoreItems(cfg: EvalConfig, b: Backend, items: seq<RunItem>, total: nat, calls: seq<Call>): (r: Run)
    ensures |calls| <= |r.calls| && r.calls[..|calls|] == calls
    ensures r.outcome.Success? ==> r.outcome.value == total + |items|
    ensures r.outcome.Failure? ==> r.outcome.error.TraceFetchFailed? || r.outcome.error.ScorePostFailed?
    decreases |items|
  {
    if items == [] then Run(calls, Success(total))
    else
      var item := items[0];
      if !Present(item.traceId) then
        ScoreItems(cfg, b, items[1..], total + 1, calls)
      else
        var t := item.traceId.value;
        var fetched := calls + [FetchTrace(t)];
        match b.traces(t)
        case Failure(e) => Run(fetched, Failure(TraceFetchFailed(e)))
        case Success(trace) =>
          var payload := ScoreFor(cfg.settings, t, Judge(cfg, trace));
          var posted := fetched + [PostScore(payload)];
          match b.scorePosts(payload)
          case Some(e) => Run(posted, Failure(ScorePostFailed(e)))
          case None =>
            var r := ScoreItems(cfg, b, items[1..], total + 1, posted);
            assert r.calls[..|calls|] == posted[..|calls|];
            r
  }

  /**
   * The pages of the run from `page` on, consumed as the iterator yields
   * them: request the page, process its items, then continue unless the
   * page is the last or an item ended the run.
   */
  function ScorePages(cfg: EvalConfig, b: Backend, datasetId: string, page: nat, bound: nat,
                      total: nat, calls: seq<Call>): (r: Run)
    requires Bounded(b.pages, bound)
    ensures |calls| <= |r.calls| && r.calls[..|calls|] == calls
    ensures r.outcome.Success? ==> r.outcome.value >= total
    decreases bound - page
  {
    var requested := calls + [FetchRunItems(datasetId, cfg.runName, page)];
    match b.pages(page)
    case Failure(e) => Run(requested, Failure(RunItemsFailed(e)))
    case Success(p) =>
      if ItemsOf(p) == [] then Run(requested, Success(total))
      else
        var r := ScoreItems(cfg, b, ItemsOf(p), total, requested);
        assert r.calls[..|calls|] == requested[..|calls|];
        if r.outcome.Failure? || LastPage(p, page) then r
        else
          assert page < bound;
          var next := ScorePages(cfg, b, datasetId, page + 1, bound, r.outcome.value, r.calls);
          assert next.calls[..|calls|] == r.calls[..|calls|];
          next
  }

  /**
   * `main`: the score configuration is created first and a failure other
   * than a conflict ends the run before anything else is requested; then
   * the dataset is looked up by name, then its run items are scored.
   */
  function Evaluate(cfg: EvalConfig, b: Backend, bound: nat): (r: Run)
    requires Bounded(b.pages, bound)
    ensures r.calls != [] && r.calls[0] == CreateScoreConfig(ScoreConfigRequest(cfg.settings))
    ensures b.scoreConfigRejection.Some? ==>
              r == Run([CreateScoreConfig(ScoreConfigRequest(cfg.settings))],
                       Failure(Setup(ScoreConfigRejected(b.scoreConfigRejection.value))))
    ensures b.scoreConfigRejection.None? && !ScoreConfigAccepted(b.scoreConfigStatus) ==>
              r == Run([CreateScoreConfig(ScoreConfigRequest(cfg.settings))],
                       Failure(Setup(ScoreConfigFailed(b.scoreConfigStatus, b.scoreConfigText))))
  {
    var created := [CreateScoreConfig(ScoreConfigRequest(cfg.settings))];
    var setup := match b.scoreConfigRejection
                 case Some(m) => Some(ScoreConfigRejected(m))
                 case None => EnsureScoreConfig(b.scoreConfigStatus, b.scoreConfigText);
    match setup
    case Some(e) => Run(created, Failure(Setup(e)))
    case None =>
      var looked := created + [LookupDataset(cfg.datasetName)];
      match b.datasetLookup
      case Failure(e) => Run(looked, Failure(DatasetLookupFailed(e)))
      case Success(datasetId) =>
        var r := ScorePages(cfg, b, datasetId, FirstPage, bound, 0, looked);
        assert r.calls[0] == r.calls[..|looked|][0];
        r
  }

  /**
   * A failed dataset lookup, a rejected one included, ends the run after
   * two requests with the lookup's error; no page is requested.
   */
  lemma LookupFailureEndsRun(cfg: EvalConfig, b: Backend, bound: nat)
    requires Bounded(b.pages, bound)
    ensures b.scoreConfigRejection.None? && ScoreConfigAccepted(b.scoreConfigStatus) && b.datasetLookup.Failure? ==>
              Evaluate(cfg, b, bound)
              == Run([CreateScoreConfig(ScoreConfigRequest(cfg.settings)), LookupDataset(cfg.datasetName)],
                     Failure(DatasetLookupFailed(b.datasetLookup.error)))
  {
  }

  // ---------------------------------------------------------------------
  // No fabricated trace ids
  // ---------------------------------------------------------------------

  lemma {:induction false} AppendNonScore(cfg: EvalConfig, b: Backend, calls: seq<Call>, c: Call)
    requires ScoresFollowFetches(cfg, b, calls) && !c.PostScore?
    ensures ScoresFollowFetches(cfg, b, calls + [c])
  {
    var r := calls + [c];
    forall i | 0 <= i < |r| && r[i].PostScore?
      ensures i > 0 && r[i - 1] == FetchTrace(r[i].payload.traceId) && JudgedScore(cfg, b, r[i].payload)
    {
      assert r[i] == calls[i] && r[i - 1] == calls[i - 1];
    }
  }

  lemma {:induction false} AppendFetchThenScore(cfg: EvalConfig, b: Backend, calls: seq<Call>, payload: ScorePayload)
    requires ScoresFollowFetches(cfg, b, calls) && JudgedScore(cfg, b, payload)
    ensures ScoresFollowFetches(cfg, b, calls + [FetchTrace(payload.traceId)] + [PostScore(payload)])
  {
    AppendNonScore(cfg, b, calls, FetchTrace(payload.traceId));
    var f := calls + [FetchTrace(payload.traceId)];
    var r := f + [PostScore(payload)];
    forall i | 0 <= i < |r| && r[i].PostScore?
      ensures i > 0 && r[i - 1] == FetchTrace(r[i].payload.traceId) && JudgedScore(cfg, b, r[i].payload)
    {
      if i < |f| { assert r[i] == f[i] && r[i - 1] == f[i - 1]; }
    }
  }

  lemma {:induction false} ScoreItemsScoresFetched(cfg: EvalConfig, b: Backend, items: seq<RunItem>, total: nat, calls: seq<Call>)
    requires ScoresFollowFetches(cfg, b, calls)
    ensures ScoresFollowFetches(cfg, b, ScoreItems(cfg, b, items, total, calls).calls)
    decreases |items|
  {
    if items != [] {
      var item := items[0];
      if !Present(item.traceId) {
        ScoreItemsScoresFetched(cfg, b, items[1..], total + 1, calls);
      } else {
        var t := item.traceId.value;
        AppendNonScore(cfg, b, calls, FetchTrace(t));
        if b.traces(t).Success? {
          var payload := ScoreFor(cfg.settings, t, Judge(cfg, b.traces(t).value));
          AppendFetchThenScore(cfg, b, calls, payload);
          if b.scorePosts(payload).None? {
            ScoreItemsScoresFetched(cfg, b, items[1..], total + 1, calls + [FetchTrace(t)] + [PostScore(payload)]);
          }
        }
      }
    }
  }

  lemma {:induction false} ScorePagesScoresFetched(
    cfg: EvalConfig, b: Backend, datasetId: string, page: nat, bound: nat, total: nat, calls: seq<Call>)
    requires Bounded(b.pages, bound)
    requires ScoresFollowFetches(cfg, b, calls)
    ensures ScoresFollowFetches(cfg, b, ScorePages(cfg, b, datasetId, page, bound, total, calls).calls)
    decreases bound - page
  {
    var requested := calls + [FetchRunItems(datasetId, cfg.runName, page)];
    var whole := ScorePages(cfg, b, datasetId, page, bound, total, calls);
    AppendNonScore(cfg, b, calls, FetchRunItems(datasetId, cfg.runName, page));
    if b.pages(page).Success? && ItemsOf(b.pages(page).value) != [] {
      var p := b.pages(page).value;
      ScoreItemsScoresFetched(cfg, b, ItemsOf(p), total, requested);
      var r := ScoreItems(cfg, b, ItemsOf(p), total, requested);
      if r.outcome.Success? && !LastPage(p, page) {
        ScorePagesScoresFetched(cfg, b, datasetId, page + 1, bound, r.outcome.value, r.calls);
        assert whole == ScorePages(cfg, b, datasetId, page + 1, bound, r.outcome.value, r.calls);
      } else {
        assert whole == r;
      }
    } else {
      assert whole.calls == requested;
    }
  }

  /**
   * The run never fabricates a trace id or a score: every score it posts is
   * for the trace it fetched, successfully, by the request just before, and
   * carries the judgment of that trace.
   */
  lemma {:induction false} EvaluateScoresOnlyFetchedTraces(cfg: EvalConfig, b: Backend, bound: nat)
    requires Bounded(b.pages, bound)
    ensures ScoresFollowFetches(cfg, b, Evaluate(cfg, b, bound).calls)
  {
    var created := [CreateScoreConfig(ScoreConfigRequest(cfg.settings))];
    AppendNonScore(cfg, b, [], created[0]);
    assert [] + created == created;
    if b.scoreConfigRejection.None? && ScoreConfigAccepted(b.scoreConfigStatus) {
      AppendNonScore(cfg, b, created, LookupDataset(cfg.datasetName));
      if b.datasetLookup.Success? {
        ScorePagesScoresFetched(cfg, b, b.datasetLookup.value, FirstPage, bound, 0,
                                created + [LookupDataset(cfg.datasetName)]);
      }
    }
  }

  // ---------------------------------------------------------------------
  // Agreement with the iterator
  // ---------------------------------------------------------------------

  /** A backend whose trace fetches and score posts all succeed. */
  ghost predicate ItemRequestsSucceed(b: Backend) {
    && (forall t :: b.traces(t).Success?)
    && (forall p :: b.scorePosts(p).None?)
  }

  lemma {:induction false} ScoreItemsSucceeds(cfg: EvalConfig, b: Backend, items: seq<RunItem>, total: nat, calls: seq<Call>)
    requires ItemRequestsSucceed(b)
    ensures ScoreItems(cfg, b, items, total, calls).outcome.Success?
    ensures ScoreItems(cfg, b, items, total, calls).outcome.value == total + |items|
    decreases |items|
  {
    if items != [] {
      var item := items[0];
      if !Present(item.traceId) {
        ScoreItemsSucceeds(cfg, b, items[1..], total + 1, calls);
      } else {
        var t := item.traceId.value;
        var payload := ScoreFor(cfg.settings, t, Judge(cfg, b.traces(t).value));
        ScoreItemsSucceeds(cfg, b, items[1..], total + 1, calls + [FetchTrace(t)] + [PostScore(payload)]);
      }
    }
  }

  lemma {:induction false} FetchSelects(calls: seq<Call>, t: string)
    ensures PagesRequested(calls + [FetchTrace(t)]) == PagesRequested(calls)
  {
    ViewsAppend(calls, [FetchTrace(t)]);
  }

  lemma {:induction false} PostSelects(calls: seq<Call>, t: string, payload: ScorePayload)
    requires payload.traceId == t
    ensures PagesRequested(calls + [FetchTrace(t)] + [PostScore(payload)]) == PagesRequested(calls)
    ensures TracesFetched(calls + [FetchTrace(t)] + [PostScore(payload)]) == TracesFetched(calls) + [t]
    ensures TracesScored(calls + [FetchTrace(t)] + [PostScore(payload)]) == TracesScored(calls) + [t]
  {
    var fetched := calls + [FetchTrace(t)];
    ViewsAppend(calls, [FetchTrace(t)]);
    ViewsAppend(fetched, [PostScore(payload)]);
  }

  /**
   * The requests of the item loop: never a page request, and, when it
   * completes, one trace fetch and one score post for each item that has a
   * trace, in item order.
   */
  predicate RequestsOfItems(r: Run, items: seq<RunItem>, calls: seq<Call>) {
    && PagesRequested(r.calls) == PagesRequested(calls)
    && (r.outcome.Success? ==> TracesFetched(r.calls) == TracesFetched(calls) + TracedIds(items))
    && (r.outcome.Success? ==> TracesScored(r.calls) == TracesScored(calls) + TracedIds(items))
  }

  lemma {:induction false} ScoreItemsRequests(cfg: EvalConfig, b: Backend, items: seq<RunItem>, total: nat, calls: seq<Call>)
    ensures RequestsOfItems(ScoreItems(cfg, b, items, total, calls), items, calls)
    decreases |items|, 2
  {
    if items != [] {
      if !Present(items[0].traceId) {
        assert TracedIds(items) == TracedIds(items[1..]);
        assert ScoreItems(cfg, b, items, total, calls) == ScoreItems(cfg, b, items[1..], total + 1, calls);
        ScoreItemsRequests(cfg, b, items[1..], total + 1, calls);
      } else {
        ScoreTracedItemRequests(cfg, b, items, total, calls);
      }
    }
  }

  /** The step of `ScoreItemsRequests` for an item that has a trace. */
  lemma {:induction false} ScoreTracedItemRequests(cfg: EvalConfig, b: Backend, items: seq<RunItem>, total: nat, calls: seq<Call>)
    requires items != [] && Present(items[0].traceId)
    ensures RequestsOfItems(ScoreItems(cfg, b, items, total, calls), items, calls)
    decreases |items|, 1
  {
    var t := items[0].traceId.value;
    var whole := ScoreItems(cfg, b, items, total, calls);
    FetchSelects(calls, t);
    if b.traces(t).Success? {
      var payload := ScoreFor(cfg.settings, t, Judge(cfg, b.traces(t).value));
      if b.scorePosts(payload).None? {
        ScoredItemRequests(cfg, b, items, total, calls);
      } else {
        PostSelects(calls, t, payload);
        assert whole == Run(calls + [FetchTrace(t)] + [PostScore(payload)],
                            Failure(ScorePostFailed(b.scorePosts(payload).value)));
      }
    } else {
      assert whole == Run(calls + [FetchTrace(t)], Failure(TraceFetchFailed(b.traces(t).error)));
    }
  }

  /** The step of `ScoreItemsRequests` for an item whose trace is fetched and scored. */
  lemma {:induction false} ScoredItemRequests(cfg: EvalConfig, b: Backend, items: seq<RunItem>, total: nat, calls: seq<Call>)
    requires items != [] && Present(items[0].traceId) && b.traces(items[0].traceId.value).Success?
    requires b.scorePosts(ScoreFor(cfg.settings, items[0].traceId.value,
                                   Judge(cfg, b.traces(items[0].traceId.value).value))).None?
    ensures RequestsOfItems(ScoreItems(cfg, b, items, total, calls), items, calls)
    decreases |items|, 0
  {
    var t, rest := items[0].traceId.value, items[1..];
    var payload := ScoreFor(cfg.settings, t, Judge(cfg, b.traces(t).value));
    var posted := calls + [FetchTrace(t)] + [PostScore(payload)];
    assert TracedIds(items) == [t] + TracedIds(rest);
    PostSelects(calls, t, payload);
    assert ScoreItems(cfg, b, items, total, calls) == ScoreItems(cfg, b, rest, total + 1, posted);
    ScoreItemsRequests(cfg, b, rest, total + 1, posted);
    var F, S := TracesFetched(calls), TracesScored(calls);
    assert (F + [t]) + TracedIds(rest) == F + ([t] + TracedIds(rest));
    assert (S + [t]) + TracedIds(rest) == S + ([t] + TracedIds(rest));
  }

  lemma {:induction false} TracedIdsAppend(a: seq<RunItem>, b: seq<RunItem>)
    ensures TracedIds(a + b) == TracedIds(a) + TracedIds(b)
  {
    if a == [] {
      assert a + b == b;
    } else {
      assert (a + b)[1..] == a[1..] + b;
      TracedIdsAppend(a[1..], b);
    }
  }

  /** How a run over pages ends, against how the iterator over the same pages ends. */
  predicate EndsLike(r: Run, it: Iteration, total: nat) {
    && (it.failure.None? ==> r.outcome.Success? && r.outcome.value == total + |it.items|)
    && (it.failure.Some? ==> r.outcome == Failure(RunItemsFailed(it.failure.value)))
  }

  /** The pages a run over pages requests, against the pages the iterator requests. */
  predicate RequestsLike(r: Run, calls: seq<Call>, it: Iteration) {
    PagesRequested(r.calls) == PagesRequested(calls) + it.requested
  }

  /** The traces a run over pages fetches and scores, against the items the iterator yields. */
  predicate ScoresLike(r: Run, calls: seq<Call>, it: Iteration) {
    && TracesFetched(r.calls) == TracesFetched(calls) + TracedIds(it.items)
    && TracesScored(r.calls) == TracesScored(calls) + TracedIds(it.items)
  }

  /** The page loop at a failed or empty page agrees with the iterator. */
  lemma {:induction false} StopsWithoutItems(
    cfg: EvalConfig, b: Backend, datasetId: string, page: nat, bound: nat, total: nat, calls: seq<Call>)
    requires Bounded(b.pages, bound)
    requires b.pages(page).Failure? || ItemsOf(b.pages(page).value) == []
    ensures AgreesFrom(cfg, b, datasetId, page, bound, total, calls)
  {
    var request := FetchRunItems(datasetId, cfg.runName, page);
    ViewsAppend(calls, [request]);
  }

  /** The page loop at the last page, when it has items, agrees with the iterator. */
  lemma {:induction false} StopsAfterItems(
    cfg: EvalConfig, b: Backend, datasetId: string, page: nat, bound: nat, total: nat, calls: seq<Call>)
    requires Bounded(b.pages, bound)
    requires ItemRequestsSucceed(b)
    requires b.pages(page).Success? && ItemsOf(b.pages(page).value) != [] && LastPage(b.pages(page).value, page)
    ensures AgreesFrom(cfg, b, datasetId, page, bound, total, calls)
  {
    var items := ItemsOf(b.pages(page).value);
    var ri := ScoreItems(cfg, b, items, total, calls + [FetchRunItems(datasetId, cfg.runName, page)]);
    PageStepSelects(cfg, b, datasetId, page, items, total, calls);
    assert ScorePages(cfg, b, datasetId, page, bound, total, calls) == ri;
    assert Iterate(b.pages, page, bound) == Iteration([page], items, None);
  }

  /** The requests of the item loop of a page, after the request for the page. */
  lemma {:induction false} PageStepSelects(
    cfg: EvalConfig, b: Backend, datasetId: string, page: nat, items: seq<RunItem>, total: nat, calls: seq<Call>)
    requires ItemRequestsSucceed(b)
    ensures var ri := ScoreItems(cfg, b, items, total, calls + [FetchRunItems(datasetId, cfg.runName, page)]);
            && ri.outcome.Success? && ri.outcome.value == total + |items|
            && PagesRequested(ri.calls) == PagesRequested(calls) + [page]
            && TracesFetched(ri.calls) == TracesFetched(calls) + TracedIds(items)
            && TracesScored(ri.calls) == TracesScored(calls) + TracedIds(items)
  {
    var request := FetchRunItems(datasetId, cfg.runName, page);
    var requested := calls + [request];
    ScoreItemsSucceeds(cfg, b, items, total, requested);
    ScoreItemsRequests(cfg, b, items, total, requested);
    ViewsAppend(calls, [request]);
  }

  /** The page loop at a page that does not end the iteration goes on with the next page. */
  lemma {:induction false} ScorePagesContinues(
    cfg: EvalConfig, b: Backend, datasetId: string, page: nat, bound: nat, total: nat, calls: seq<Call>)
    requires Bounded(b.pages, bound)
    requires ItemRequestsSucceed(b)
    requires !StopsAt(b.pages(page), page)
    ensures var items := ItemsOf(b.pages(page).value);
            var ri := ScoreItems(cfg, b, items, total, calls + [FetchRunItems(datasetId, cfg.runName, page)]);
            && page < bound
            && ri.outcome.Success? && ri.outcome.value == total + |items|
            && ScorePages(cfg, b, datasetId, page, bound, total, calls)
               == ScorePages(cfg, b, datasetId, page + 1, bound, ri.outcome.value, ri.calls)
  {
    var items := ItemsOf(b.pages(page).value);
    ScoreItemsSucceeds(cfg, b, items, total, calls + [FetchRunItems(datasetId, cfg.runName, page)]);
  }

  lemma {:induction false} EndsExtend(r: Run, it: Iteration, rest: Iteration, page: nat, items: seq<RunItem>, total: nat, sub: nat)
    requires it == Iteration([page] + rest.requested, items + rest.items, rest.failure)
    requires sub == total + |items|
    requires EndsLike(r, rest, sub)
    ensures EndsLike(r, it, total)
  {
    assert |it.items| == |items| + |rest.items|;
  }

  lemma {:induction false} RequestsExtend(r: Run, calls: seq<Call>, step: seq<Call>, it: Iteration, rest: Iteration, page: nat)
    requires it.requested == [page] + rest.requested
    requires PagesRequested(step) == PagesRequested(calls) + [page]
    requires RequestsLike(r, step, rest)
    ensures RequestsLike(r, calls, it)
  {
    var A := PagesRequested(calls);
    assert (A + [page]) + rest.requested == A + ([page] + rest.requested);
  }

  lemma {:induction false} ScoresExtend(
    r: Run, calls: seq<Call>, step: seq<Call>, it: Iteration, rest: Iteration, items: seq<RunItem>)
    requires it.items == items + rest.items
    requires TracesFetched(step) == TracesFetched(calls) + TracedIds(items)
    requires TracesScored(step) == TracesScored(calls) + TracedIds(items)
    requires ScoresLike(r, step, rest)
    ensures ScoresLike(r, calls, it)
  {
    TracedIdsAppend(items, rest.items);
    var F, S := TracesFetched(calls), TracesScored(calls);
    assert (F + TracedIds(items)) + TracedIds(rest.items) == F + (TracedIds(items) + TracedIds(rest.items));
    assert (S + TracedIds(items)) + TracedIds(rest.items) == S + (TracedIds(items) + TracedIds(rest.items));
  }

  /**
   * The run over pages from `page` on agrees with the iterator from `page`
   * on: in how it ends, in the pages it requests and in the traces it scores.
   */
  predicate AgreesFrom(cfg: EvalConfig, b: Backend, datasetId: string, page: nat, bound: nat, total: nat, calls: seq<Call>)
    requires Bounded(b.pages, bound)
  {
    var r := ScorePages(cfg, b, datasetId, page, bound, total, calls);
    var it := Iterate(b.pages, page, bound);
    EndsLike(r, it, total) && RequestsLike(r, calls, it) && ScoresLike(r, calls, it)
  }

  /** Agreement at a page that does not end the iteration, by agreement from the next page on. */
  lemma {:induction false} AgreementStep(
    cfg: EvalConfig, b: Backend, datasetId: string, page: nat, bound: nat, total: nat, calls: seq<Call>)
    requires Bounded(b.pages, bound)
    requires ItemRequestsSucceed(b)
    requires !StopsAt(b.pages(page), page) && page < bound
    ensures AgreesFrom(cfg, b, datasetId, page, bound, total, calls)
    decreases bound - page, 0
  {
    var requested := calls + [FetchRunItems(datasetId, cfg.runName, page)];
    var ri := ScoreItems(cfg, b, ItemsOf(b.pages(page).value), total, requested);
    ScoreItemsSucceeds(cfg, b, ItemsOf(b.pages(page).value), total, requested);
    ScorePagesAgrees(cfg, b, datasetId, page + 1, bound, ri.outcome.value, ri.calls);
    AgreementFromNext(cfg, b, datasetId, page, bound, total, calls);
  }

  /** The step of `AgreementStep` once agreement from the next page on is known. */
  lemma {:induction false} AgreementFromNext(
    cfg: EvalConfig, b: Backend, datasetId: string, page: nat, bound: nat, total: nat, calls: seq<Call>)
    requires Bounded(b.pages, bound)
    requires ItemRequestsSucceed(b)
    requires !StopsAt(b.pages(page), page) && page < bound
    requires var ri := ScoreItems(cfg, b, ItemsOf(b.pages(page).value), total,
                                  calls + [FetchRunItems(datasetId, cfg.runName, page)]);
             ri.outcome.Success? && AgreesFrom(cfg, b, datasetId, page + 1, bound, ri.outcome.value, ri.calls)
    ensures AgreesFrom(cfg, b, datasetId, page, bound, total, calls)
  {
    var items := ItemsOf(b.pages(page).value);
    var ri := ScoreItems(cfg, b, items, total, calls + [FetchRunItems(datasetId, cfg.runName, page)]);
    ScorePagesContinues(cfg, b, datasetId, page, bound, total, calls);
    var sub: nat := ri.outcome.value;
    var next := ScorePages(cfg, b, datasetId, page + 1, bound, sub, ri.calls);
    var it, rest := Iterate(b.pages, page, bound), Iterate(b.pages, page + 1, bound);
    PageStepSelects(cfg, b, datasetId, page, items, total, calls);
    IterateContinues(b.pages, page, bound);
    EndsExtend(next, it, rest, page, items, total, sub);
    RequestsExtend(next, calls, ri.calls, it, rest, page);
    ScoresExtend(next, calls, ri.calls, it, rest, items);
  }

  lemma {:induction false} ScorePagesAgrees(
    cfg: EvalConfig, b: Backend, datasetId: string, page: nat, bound: nat, total: nat, calls: seq<Call>)
    requires Bounded(b.pages, bound)
    requires ItemRequestsSucceed(b)
    ensures AgreesFrom(cfg, b, datasetId, page, bound, total, calls)
    decreases bound - page, 1
  {
    if b.pages(page).Failure? || ItemsOf(b.pages(page).value) == [] {
      StopsWithoutItems(cfg, b, datasetId, page, bound, total, calls);
    } else if LastPage(b.pages(page).value, page) {
      StopsAfterItems(cfg, b, datasetId, page, bound, total, calls);
    } else {
      AgreementStep(cfg, b, datasetId, page, bound, total, calls);
    }
  }

  /**
   * When every per-item request succeeds, the pages the run requests are
   * exactly those the iterator requests, the count it reports is the number
   * of items the iterator yields (skipped ones included), it fetches and
   * scores exactly the traces of the yielded items that have one, and it
   * fails exactly when the iterator fails, with the same error.
   */
  lemma {:induction false} ScorePagesFollowsIterator(
    cfg: EvalConfig, b: Backend, datasetId: string, page: nat, bound: nat, total: nat, calls: seq<Call>)
    requires Bounded(b.pages, bound)
    requires ItemRequestsSucceed(b)
    ensures var r := ScorePages(cfg, b, datasetId, page, bound, total, calls);
            var it := Iterate(b.pages, page, bound);
            && PagesRequested(r.calls) == PagesRequested(calls) + it.requested
            && TracesFetched(r.calls) == TracesFetched(calls) + TracedIds(it.items)
            && TracesScored(r.calls) == TracesScored(calls) + TracedIds(it.items)
            && (it.failure.None? ==> r.outcome.Success? && r.outcome.value == total + |it.items|)
            && (it.failure.Some? ==> r.outcome == Failure(RunItemsFailed(it.failure.value)))
  {
    ScorePagesAgrees(cfg, b, datasetId, page, bound, total, calls);
  }

  /**
   * `main` over a backend whose per-item requests succeed: after the
   * configuration and the lookup, the run requests pages 1, 2, ... as the
   * iterator does and reports as processed every item it yields.
   */
  lemma {:induction false} EvaluateCountsYieldedItems(cfg: EvalConfig, b: Backend, bound: nat)
    requires Bounded(b.pages, bound)
    requires ItemRequestsSucceed(b)
    requires b.scoreConfigRejection.None? && ScoreConfigAccepted(b.scoreConfigStatus) && b.datasetLookup.Success?
    ensures var r := Evaluate(cfg, b, bound);
            var it := RunItems(b.pages, bound);
            && PagesRequested(r.calls) == it.requested
            && TracesScored(r.calls) == TracedIds(it.items)
            && (it.failure.None? <==> r.outcome.Success?)
            && (r.outcome.Success? ==> r.outcome.value == |it.items|)
  {
    var created := [CreateScoreConfig(ScoreConfigRequest(cfg.settings))];
    var looked := created + [LookupDataset(cfg.datasetName)];
    ViewsAppend(created, [LookupDataset(cfg.datasetName)]);
    assert created[1..] == [];
    assert PagesRequested(created) == [] && TracesScored(created) == [];
    assert PagesRequested([LookupDataset(cfg.datasetName)]) == [];
    assert TracesScored([LookupDataset(cfg.datasetName)]) == [];
    assert Evaluate(cfg, b, bound) == ScorePages(cfg, b, b.datasetLookup.value, FirstPage, bound, 0, looked);
    ScorePagesFollowsIterator(cfg, b, b.datasetLookup.value, FirstPage, bound, 0, looked);
  }

  /** A run item without a trace only adds one to the count: it makes no request. */
  lemma {:induction false} SkippedItemMakesNoRequest(cfg: EvalConfig, b: Backend, item: RunItem, rest: seq<RunItem>, total: nat, calls: seq<Call>)
    requires !Present(item.traceId)
    ensures ScoreItems(cfg, b, [item] + rest, total, calls) == ScoreItems(cfg, b, rest, total + 1, calls)
  {
    assert ([item] + rest)[1..] == rest;
  }
}
