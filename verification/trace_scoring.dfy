/**
 * The trace correlator and score publisher of the score-existing-runs
 * flow: the score-configuration request and its status rule, the filter
 * of a trace's observations by span name, the "tool call used" predicate,
 * and the score payload derived from it.
 */
module TraceScoring {
  import opened Wrappers
  import opened Values

  /**
   * The settings read from the environment. Any of them may be unset, in
   * which case the source compares against, and renders, `undefined`.
   */
  datatype Settings = Settings(scoreName: Option<string>, spanName: Option<string>, targetAttribute: Option<string>)

  /**
   * An observation of a trace: its `name`, and the value reached by
   * `o?.metadata?.attributes?.["ai.toolCall.name"]` (undefined as soon as
   * any link of that chain is missing).
   */
  datatype Observation = Observation(name: Field, toolCallName: Field)

  /** The fetched trace record: `observations` may be missing. */
  datatype TraceRecord = TraceRecord(observations: Option<seq<Observation>>)

  // ---------------------------------------------------------------------
  // Score configuration
  // ---------------------------------------------------------------------

  /** The body of the score-configuration request. */
  datatype ScoreConfig = ScoreConfig(
    name: Option<string>, dataType: string, minValue: int, maxValue: int, description: string)

  /** The HTTP status that means the configuration already exists. */
  const Conflict: int := 409

  /** A numeric configuration bounded by 0 and 1, described by the span and the attribute. */
  function ScoreConfigRequest(s: Settings): (c: ScoreConfig)
    ensures c.name == s.scoreName
    ensures c.dataType == "NUMERIC" && c.minValue == 0 && c.maxValue == 1
  {
    ScoreConfig(
      s.scoreName, "NUMERIC", 0, 1,
      "1 if trace contains span \"" + RenderOpt(s.spanName) + "\" with ai.toolCall.name=\""
      + RenderOpt(s.targetAttribute) + "\", else 0")
  }

  /** Creation succeeds when the response is OK or a conflict; any other status fails. */
  predicate ScoreConfigAccepted(status: int) {
    IsOk(status) || status == Conflict
  }

  /**
   * The setup error raised by a failed creation: the status and response
   * text, or the message the request rejects with.
   */
  datatype SetupError = ScoreConfigFailed(status: int, text: string) | ScoreConfigRejected(message: string)

  /** `ensureScoreConfig`'s handling of the response. */
  function EnsureScoreConfig(status: int, text: string): (r: Option<SetupError>)
    ensures r.None? <==> (200 <= status <= 299 || status == 409)
    ensures r.Some? ==> r.value == ScoreConfigFailed(status, text)
  {
    if !IsOk(status) && status != Conflict then Some(ScoreConfigFailed(status, text)) else None
  }

  // ---------------------------------------------------------------------
  // Correlation
  // ---------------------------------------------------------------------

  /** `trace.observations || []` */
  function ObservationsOf(t: TraceRecord): seq<Observation> {
    t.observations.GetOr([])
  }

  /** `filterSpanObservations`: the observations named like the configured span, in order. */
  function FilterSpan(obs: seq<Observation>, spanName: Option<string>): (r: seq<Observation>)
    ensures |r| <= |obs|
    ensures forall o :: o in r <==> o in obs && StrictEquals(o.name, spanName)
  {
    if obs == [] then []
    else if StrictEquals(obs[0].name, spanName) then [obs[0]] + FilterSpan(obs[1..], spanName)
    else FilterSpan(obs[1..], spanName)
  }

  /** `attributeUsed`: some observation's tool-call name equals the target; false on none. */
  function AttributeUsed(obs: seq<Observation>, target: Option<string>): (used: bool)
    ensures used <==> exists i :: 0 <= i < |obs| && StrictEquals(obs[i].toolCallName, target)
  {
    if obs == [] then false
    else
      var rest := AttributeUsed(obs[1..], target);
      assert rest <==> exists i :: 1 <= i < |obs| && StrictEquals(obs[i].toolCallName, target) by {
        if rest {
          var i :| 0 <= i < |obs[1..]| && StrictEquals(obs[1..][i].toolCallName, target);
          assert obs[i + 1] == obs[1..][i];
        }
        forall i | 1 <= i < |obs| && StrictEquals(obs[i].toolCallName, target)
          ensures rest
        {
          assert obs[1..][i - 1] == obs[i];
        }
      }
      StrictEquals(obs[0].toolCallName, target) || rest
  }

  /**
   * The judgment of one trace: some observation carries both the span name
   * and the target tool-call name.
   */
  lemma UsedIffSomeObservationMatches(obs: seq<Observation>, s: Settings)
    ensures AttributeUsed(FilterSpan(obs, s.spanName), s.targetAttribute)
        <==> exists o :: o in obs && StrictEquals(o.name, s.spanName)
                         && StrictEquals(o.toolCallName, s.targetAttribute)
  {
    var f := FilterSpan(obs, s.spanName);
    if AttributeUsed(f, s.targetAttribute) {
      var i :| 0 <= i < |f| && StrictEquals(f[i].toolCallName, s.targetAttribute);
      assert f[i] in f;
    } else {
      forall o | o in obs && StrictEquals(o.name, s.spanName)
        ensures !StrictEquals(o.toolCallName, s.targetAttribute)
      {
        assert o in f;
        var i :| 0 <= i < |f| && f[i] == o;
      }
    }
  }

  // ---------------------------------------------------------------------
  // Score
  // ---------------------------------------------------------------------

  /** The body of the score request. */
  datatype ScorePayload = ScorePayload(name: Option<string>, value: int, traceId: string, comment: string)

  const DetectedPrefix: string := "Detected \""
  const MissingPrefix: string := "No \""

  /** `postScore`'s payload: value 1 and a "Detected" comment when used, else 0 and a "No" comment. */
  function ScoreFor(s: Settings, traceId: string, used: bool): (p: ScorePayload)
    ensures p.name == s.scoreName && p.traceId == traceId
    ensures p.value == 0 || p.value == 1
    ensures p.value == 1 <==> used
    ensures p.comment != [] && p.comment[0] == (if used then 'D' else 'N')
  {
    var detail := RenderOpt(s.spanName) + "\" span with ai.toolCall.name=\"" + RenderOpt(s.targetAttribute) + "\"";
    ScorePayload(
      s.scoreName, if used then 1 else 0, traceId,
      if used then DetectedPrefix + detail else MissingPrefix + detail)
  }

  /** The comment opens with `Detected "` when the tool was used, else with `No "`. */
  lemma ScoreCommentOpensWithJudgment(s: Settings, traceId: string, used: bool)
    ensures (if used then DetectedPrefix else MissingPrefix) <= ScoreFor(s, traceId, used).comment
  {
  }

  /** The published value lies within the bounds of the configuration created for it. */
  lemma ScoreWithinConfiguredBounds(s: Settings, traceId: string, used: bool)
    ensures ScoreConfigRequest(s).minValue <= ScoreFor(s, traceId, used).value <= ScoreConfigRequest(s).maxValue
    ensures ScoreConfigRequest(s).name == ScoreFor(s, traceId, used).name
  {
  }

  /** The value and the comment of a score agree: each determines the judgment. */
  lemma {:induction false} ScoreDeterminesJudgment(s: Settings, traceId: string, a: bool, b: bool)
    requires ScoreFor(s, traceId, a).value == ScoreFor(s, traceId, b).value
          || ScoreFor(s, traceId, a).comment == ScoreFor(s, traceId, b).comment
    ensures a == b
  {
    if ScoreFor(s, traceId, a).comment == ScoreFor(s, traceId, b).comment {
      assert ScoreFor(s, traceId, a).comment[0] == ScoreFor(s, traceId, b).comment[0];
    }
  }

  /** Scenario: one `tool-call` span that called `get_weather`. */
  lemma ToolCallScenario(scoreName: Option<string>, traceId: string)
    ensures var obs := [Observation(Str("tool-call"), Str("get_weather"))];
            var hit := Settings(scoreName, Some("tool-call"), Some("get_weather"));
            var miss := Settings(scoreName, Some("tool-call"), Some("get_time"));
            && AttributeUsed(FilterSpan(obs, hit.spanName), hit.targetAttribute)
            && ScoreFor(hit, traceId, true).value == 1
            && !AttributeUsed(FilterSpan(obs, miss.spanName), miss.targetAttribute)
            && ScoreFor(miss, traceId, false).value == 0
  {
    var obs := [Observation(Str("tool-call"), Str("get_weather"))];
    assert FilterSpan(obs, Some("tool-call")) == obs;
  }
}
