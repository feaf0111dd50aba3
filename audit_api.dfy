/**
 * The three JSON endpoints of the AuditPilot web service: analyze_and_score,
 * predictive_modeling and behavioral_analysis.  Each handler validates the
 * request body, calls the analyzer or the score calculator and answers 200
 * with a JSON body, 400 with a fixed message, or 500 when anything inside
 * its try block raises.
 */
module AuditApi {
  import opened Common
  import opened PyBuiltins
  import opened Json
  import opened ScoreCard
  import opened Remediation
  import AiAnalyzer

  /** The answer of a handler; a 500 answer carries the handler's fixed error text. */
  datatype Reply = Success(body: Json) | BadRequest(error: string) | ServerError(error: string)

  /** What the analyzer instance works with: its control catalogue, str()/json.dumps, the model and json.loads. */
  datatype Thinker = Thinker(
    controls: map<string, Json>,
    render: AiAnalyzer.Render,
    generate: string -> Result<string, string>,
    loads: string -> Result<Json, string>)

  /** ai_thinker.analyze_control_evidence(evidence=..., control_id=...); Err when it raises. */
  function Analyze(t: Thinker, evidence: Json, controlId: Json): Result<Json, string>
  {
    AiAnalyzer.AnalyzeControlEvidence(t.controls, t.render, evidence, controlId, t.generate, t.loads)
  }

  // -----------------------------------------------------------------------
  // Request validation

  /**
   * `'k1' not in data or 'k2' not in data or ...` on a truthy body, left to
   * right: true at the first key that is absent; Err when `in` raises.
   */
  function KeysMissing(data: Json, keys: seq<string>): (r: Result<bool, string>)
    ensures r == Ok(false) ==> forall k :: 0 <= k < |keys| ==> PyIn(keys[k], data) == Ok(true)
    ensures data.JObj? ==> r == Ok(exists k :: 0 <= k < |keys| && keys[k] !in data.fields)
  {
    if keys == [] then Ok(false)
    else
      match PyIn(keys[0], data)
      case Err(e) => Err(e)
      case Ok(found) =>
        if !found then Ok(true)
        else
          var rest := KeysMissing(data, keys[1..]);
          assert forall k :: 1 <= k < |keys| ==> keys[k] == keys[1..][k - 1];
          rest
  }

  /** `not data or <a required key is missing>`. */
  function Rejected(data: Json, keys: seq<string>): (r: Result<bool, string>)
    ensures !Truthy(data) ==> r == Ok(true)
    ensures Truthy(data) && data.JObj? ==> r == Ok(exists k :: 0 <= k < |keys| && keys[k] !in data.fields)
  {
    if !Truthy(data) then Ok(true) else KeysMissing(data, keys)
  }

  // -----------------------------------------------------------------------
  // analyze_and_score

  const ScoreKeys: seq<string> := ["evidence", "control_id", "enhancement"]
  const ScoreInvalid := "Invalid input: 'evidence', 'control_id', and 'enhancement' are required."
  const ScoreFailed := "An error occurred during analysis"

  /**
   * enhancement_multipliers.get(level, 1.0): a string is looked up, a list
   * or dict cannot be hashed, any other value is never a key.
   */
  function MultiplierOf(level: Json): (r: Option<real>)
    ensures r.None? <==> level.JArr? || level.JObj?
    ensures level.JStr? ==> r == Some(Multiplier(level.s))
  {
    if level.JArr? || level.JObj? then None
    else if level.JStr? then Some(Multiplier(level.s))
    else Some(1.0)
  }

  /**
   * calculate_control_score(base_score, enhancement): min(base * multiplier,
   * 100), where min keeps the float product unless 100 is smaller; None
   * when Python raises.
   */
  function FinalScore(base: Json, level: Json): (r: Option<Json>)
    ensures r.Some? <==> AsNumber(base).Some? && MultiplierOf(level).Some?
    ensures r.Some? ==> AsNumber(r.value) == Some(MinReal(AsNumber(base).value * MultiplierOf(level).value, 100.0))
  {
    match AsNumber(base)
    case None => None
    case Some(b) =>
      match MultiplierOf(level)
      case None => None
      case Some(m) => Some(if b * m <= 100.0 then JFloat(b * m) else JInt(100))
  }

  /** The endpoint's final score is the calculator's control score. */
  lemma FinalScoreIsControlScore(base: Json, level: string)
    requires AsNumber(base).Some?
    ensures FinalScore(base, JStr(level)).Some?
    ensures AsNumber(FinalScore(base, JStr(level)).value) == Some(ControlScore(AsNumber(base).value, level))
    ensures AsNumber(FinalScore(base, JStr(level)).value).value <= 100.0
  {
  }

  /** The handler of POST /api/analyze_and_score. */
  function AnalyzeAndScore(t: Thinker, data: Json): (reply: Reply)
    ensures reply.BadRequest? ==> reply.error == ScoreInvalid
    ensures reply.ServerError? ==> reply.error == ScoreFailed
  {
    match Rejected(data, ScoreKeys)
    case Err(_) => ServerError(ScoreFailed)
    case Ok(rejected) =>
      if rejected then BadRequest(ScoreInvalid)
      else if !data.JObj? then ServerError(ScoreFailed)
      else
        assert ScoreKeys[0] in data.fields && ScoreKeys[1] in data.fields && ScoreKeys[2] in data.fields;
        var evidence := data.fields["evidence"];
        var controlId := data.fields["control_id"];
        var enhancement := data.fields["enhancement"];
        match Analyze(t, evidence, controlId)
        case Err(_) => ServerError(ScoreFailed)
        case Ok(result) =>
          if !result.JObj? then ServerError(ScoreFailed)
          else
            var baseScore := Get(result.fields, "base_score", JInt(0));
            var justification := Get(result.fields, "justification", JStr("No justification provided."));
            match FinalScore(baseScore, enhancement)
            case None => ServerError(ScoreFailed)
            case Some(finalScore) =>
              Success(JObj(map["justification" := justification, "base_score" := baseScore, "final_score" := finalScore]))
  }

  /** A dictionary body lacking one of the three keys, or an empty body, is a 400. */
  lemma ScoreRequestValidated(t: Thinker, data: Json)
    requires !Truthy(data) || (data.JObj? && ("evidence" !in data.fields || "control_id" !in data.fields || "enhancement" !in data.fields))
    ensures AnalyzeAndScore(t, data) == BadRequest(ScoreInvalid)
  {
    if Truthy(data) {
      if "evidence" !in data.fields {
        assert ScoreKeys[0] !in data.fields;
      } else if "control_id" !in data.fields {
        assert ScoreKeys[1] !in data.fields;
      } else {
        assert ScoreKeys[2] !in data.fields;
      }
    }
  }

  /** A dictionary holding the three keys passes validation. */
  lemma ScoreKeysPresent(fields: map<string, Json>)
    requires "evidence" in fields && "control_id" in fields && "enhancement" in fields
    ensures Rejected(JObj(fields), ScoreKeys) == Ok(false)
  {
    assert Truthy(JObj(fields));
    forall k | 0 <= k < |ScoreKeys| ensures ScoreKeys[k] in fields {
      if k == 0 {
      } else if k == 1 {
      } else {
      }
    }
  }

  /** Evidence that is not a non-empty string makes the analyzer raise: a 500. */
  lemma InvalidEvidenceIsServerError(t: Thinker, fields: map<string, Json>)
    requires "evidence" in fields && "control_id" in fields && "enhancement" in fields
    requires !AiAnalyzer.ValidEvidence(fields["evidence"])
    ensures AnalyzeAndScore(t, JObj(fields)) == ServerError(ScoreFailed)
  {
    ScoreKeysPresent(fields);
  }

  /**
   * A complete request with valid evidence and a scorable answer is a 200
   * whose final_score is the control score of the answer's base score, and
   * whose base_score is the analyzer's (0 when its dictionary lacks one).
   */
  lemma ScoredAnswer(t: Thinker, fields: map<string, Json>, result: map<string, Json>, level: string)
    requires "evidence" in fields && "control_id" in fields && "enhancement" in fields
    requires fields["enhancement"] == JStr(level)
    requires Analyze(t, fields["evidence"], fields["control_id"]) == Ok(JObj(result))
    requires AsNumber(Get(result, "base_score", JInt(0))).Some?
    ensures AnalyzeAndScore(t, JObj(fields)).Success?
    ensures AnalyzeAndScore(t, JObj(fields)).body.JObj?
    ensures AnalyzeAndScore(t, JObj(fields)).body.fields.Keys == {"justification", "base_score", "final_score"}
    ensures AnalyzeAndScore(t, JObj(fields)).body.fields["base_score"] == Get(result, "base_score", JInt(0))
    ensures AsNumber(AnalyzeAndScore(t, JObj(fields)).body.fields["final_score"])
      == Some(ControlScore(AsNumber(Get(result, "base_score", JInt(0))).value, level))
  {
    ScoreKeysPresent(fields);
    FinalScoreIsControlScore(Get(result, "base_score", JInt(0)), level);
  }

  /** When the analysis fails inside its try block, the error dictionary is scored: base 0, final 0. */
  lemma FallbackScoresZero(t: Thinker, fields: map<string, Json>, message: string, level: string)
    requires "evidence" in fields && "control_id" in fields && "enhancement" in fields
    requires fields["enhancement"] == JStr(level)
    requires Analyze(t, fields["evidence"], fields["control_id"]) == Ok(AiAnalyzer.ErrorResult(message))
    ensures AnalyzeAndScore(t, JObj(fields)).Success?
    ensures AnalyzeAndScore(t, JObj(fields)).body.fields["base_score"] == JInt(0)
    ensures AnalyzeAndScore(t, JObj(fields)).body.fields["final_score"] == JFloat(0.0)
  {
    ScoreKeysPresent(fields);
  }

  // -----------------------------------------------------------------------
  // behavioral_analysis

  const LogKeys: seq<string> := ["log_evidence"]
  const LogInvalid := "Invalid input: 'log_evidence' is required."
  const LogFailed := "An error occurred during behavioral analysis"

  /** The control every behavioural analysis is assessed against. */
  const BehaviouralControl := "BA-1"

  /** The handler of POST /api/behavioral_analysis: the analysis result as it is. */
  function BehavioralAnalysis(t: Thinker, data: Json): (reply: Reply)
    ensures reply.BadRequest? ==> reply.error == LogInvalid
    ensures reply.ServerError? ==> reply.error == LogFailed
    ensures reply.Success? ==>
      && data.JObj? && "log_evidence" in data.fields
      && Analyze(t, data.fields["log_evidence"], JStr(BehaviouralControl)) == Ok(reply.body)
  {
    match Rejected(data, LogKeys)
    case Err(_) => ServerError(LogFailed)
    case Ok(rejected) =>
      if rejected then BadRequest(LogInvalid)
      else if !data.JObj? then ServerError(LogFailed)
      else
        assert LogKeys[0] in data.fields;
        match Analyze(t, data.fields["log_evidence"], JStr(BehaviouralControl))
        case Err(_) => ServerError(LogFailed)
        case Ok(result) => Success(result)
  }

  /** An empty body, or a dictionary body lacking log_evidence, is a 400. */
  lemma BehavioralRequestValidated(t: Thinker, data: Json)
    requires !Truthy(data) || (data.JObj? && "log_evidence" !in data.fields)
    ensures BehavioralAnalysis(t, data) == BadRequest(LogInvalid)
  {
    if Truthy(data) {
      assert LogKeys[0] !in data.fields;
    }
  }

  /** A dictionary body is answered 400 exactly when it lacks log_evidence, and 500 exactly when the evidence is invalid. */
  lemma BehavioralOutcomes(t: Thinker, fields: map<string, Json>)
    ensures BehavioralAnalysis(t, JObj(fields)).BadRequest? <==> "log_evidence" !in fields
    ensures BehavioralAnalysis(t, JObj(fields)).ServerError? <==>
      "log_evidence" in fields && !AiAnalyzer.ValidEvidence(fields["log_evidence"])
  {
    assert LogKeys[0] == "log_evidence";
  }

  // -----------------------------------------------------------------------
  // predictive_modeling

  const ModelKeys: seq<string> := ["baseline_scores", "remediation_plan"]
  const ModelInvalid := "Invalid input: 'baseline_scores' and 'remediation_plan' are required."
  const ModelFailed := "An error occurred during predictive modeling"

  /** rows lists the items of the dictionary m, each key once. */
  predicate ListsRows(m: map<string, Json>, rows: seq<Row>)
  {
    && DistinctRows(rows)
    && (forall k :: 0 <= k < |rows| ==> rows[k].familyId in m && m[rows[k].familyId] == rows[k].controls)
    && (forall id :: id in m ==> exists k :: 0 <= k < |rows| && rows[k].familyId == id)
  }

  /** items lists the items of the dictionary m, each key once. */
  predicate ListsItems(m: map<string, Json>, items: seq<(string, Json)>)
  {
    && (forall i, j :: 0 <= i < j < |items| ==> items[i].0 != items[j].0)
    && (forall k :: 0 <= k < |items| ==> items[k].0 in m && m[items[k].0] == items[k].1)
    && (forall id :: id in m ==> exists k :: 0 <= k < |items| && items[k].0 == id)
  }

  /** One report of the reply: the rounded overall score and the maturity level's name. */
  function Summary(rows: seq<Row>, report: Report): Json
  {
    var known := AssessmentData(ControlFamilies, rows);
    JObj(map[
      "overall_score" := (if known.Some? && known.value == [] then JInt(0) else JFloat(report.overallScore)),
      "maturity_level" := JStr(MaturityName(report.maturityLevel))])
  }

  /**
   * The handler of POST /api/predictive_modeling on values.  The two
   * dictionaries of the body are given with their items in order, as the
   * JSON text lists them.
   */
  function PredictiveModelingOf(data: Json, baseline: seq<Row>, plan: seq<(string, Json)>): (reply: Reply)
    ensures reply.BadRequest? ==> reply.error == ModelInvalid
    ensures reply.ServerError? ==> reply.error == ModelFailed
  {
    match Rejected(data, ModelKeys)
    case Err(_) => ServerError(ModelFailed)
    case Ok(rejected) =>
      if rejected then BadRequest(ModelInvalid)
      else if !data.JObj? then ServerError(ModelFailed)
      else
        assert ModelKeys[0] in data.fields && ModelKeys[1] in data.fields;
        if !data.fields["baseline_scores"].JObj? then ServerError(ModelFailed)
        else
        match TableReport(baseline)
        case None => ServerError(ModelFailed)
        case Some(before) =>
          if !data.fields["remediation_plan"].JObj? then ServerError(ModelFailed)
          else
            match ApplyPlan(baseline, plan)
            case None => ServerError(ModelFailed)
            case Some(remediated) =>
              match TableReport(remediated)
              case None => ServerError(ModelFailed)
              case Some(after) =>
                Success(JObj(map["before_report" := Summary(baseline, before), "after_report" := Summary(remediated, after)]))
  }

  /** An empty body, or a dictionary body lacking either key, is a 400. */
  lemma ModelRequestValidated(data: Json, baseline: seq<Row>, plan: seq<(string, Json)>)
    requires !Truthy(data) || (data.JObj? && ("baseline_scores" !in data.fields || "remediation_plan" !in data.fields))
    ensures PredictiveModelingOf(data, baseline, plan) == BadRequest(ModelInvalid)
  {
    if Truthy(data) {
      if "baseline_scores" !in data.fields {
        assert ModelKeys[0] !in data.fields;
      } else {
        assert ModelKeys[1] !in data.fields;
      }
    }
  }

  /** A dictionary holding both keys passes validation: whatever the reply, it is not a 400. */
  lemma ModelKeysPresent(fields: map<string, Json>, baseline: seq<Row>, plan: seq<(string, Json)>)
    requires "baseline_scores" in fields && "remediation_plan" in fields
    ensures Rejected(JObj(fields), ModelKeys) == Ok(false)
    ensures !PredictiveModelingOf(JObj(fields), baseline, plan).BadRequest?
  {
    assert Truthy(JObj(fields));
    forall k | 0 <= k < |ModelKeys| ensures ModelKeys[k] in fields {
      if k == 0 {
      } else {
      }
    }
  }

  /**
   * The handler's statements: the report before, the copy of the table,
   * the remediation loop on the copy, the report after.
   */
  method PredictiveModeling(data: Json, baseline: seq<Row>, plan: seq<(string, Json)>) returns (reply: Reply)
    requires data.JObj? && "baseline_scores" in data.fields && data.fields["baseline_scores"].JObj? ==>
      ListsRows(data.fields["baseline_scores"].fields, baseline)
    requires data.JObj? && "remediation_plan" in data.fields && data.fields["remediation_plan"].JObj? ==>
      ListsItems(data.fields["remediation_plan"].fields, plan)
    ensures reply == PredictiveModelingOf(data, baseline, plan)
  {
    var rejected := Rejected(data, ModelKeys);
    if rejected.Err? {
      return ServerError(ModelFailed);
    }
    if rejected.value {
      return BadRequest(ModelInvalid);
    }
    if !data.JObj? {
      return ServerError(ModelFailed);
    }
    assert ModelKeys[0] in data.fields && ModelKeys[1] in data.fields;
    if !data.fields["baseline_scores"].JObj? {
      return ServerError(ModelFailed);
    }
    var before := TableReport(baseline);
    if before.None? {
      return ServerError(ModelFailed);
    }
    var remediated := new AssessmentTable(baseline);
    if !data.fields["remediation_plan"].JObj? {
      return ServerError(ModelFailed);
    }
    var ok := remediated.ApplyRemediationPlan(plan);
    if !ok {
      return ServerError(ModelFailed);
    }
    var after := TableReport(remediated.rows);
    if after.None? {
      return ServerError(ModelFailed);
    }
    reply := Success(JObj(map[
      "before_report" := Summary(baseline, before.value),
      "after_report" := Summary(remediated.rows, after.value)]));
  }

  /**
   * A successful reply reports the baseline as it was sent and the table
   * after the plan, each with the rounded score and the level of the
   * unrounded score.
   */
  lemma ModelingReportsBothTables(data: Json, baseline: seq<Row>, plan: seq<(string, Json)>)
    requires PredictiveModelingOf(data, baseline, plan).Success?
    ensures TableReport(baseline).Some? && ApplyPlan(baseline, plan).Some? && TableReport(ApplyPlan(baseline, plan).value).Some?
    ensures PredictiveModelingOf(data, baseline, plan).body ==
      JObj(map[
        "before_report" := Summary(baseline, TableReport(baseline).value),
        "after_report" := Summary(ApplyPlan(baseline, plan).value, TableReport(ApplyPlan(baseline, plan).value).value)])
  {
  }

  /** A plan whose families are all outside the table predicts the baseline report unchanged. */
  lemma {:induction false} UnmatchedPlanChangesNothing(rows: seq<Row>, plan: seq<(string, Json)>)
    requires forall k, j :: 0 <= k < |plan| && 0 <= j < |rows| ==> plan[k].0 != rows[j].familyId
    ensures ApplyPlan(rows, plan) == Some(rows)
  {
    if plan != [] {
      var init := plan[..|plan| - 1];
      UnmatchedPlanChangesNothing(rows, init);
    }
  }

  /** A successful reply for a plan that names no family of the baseline reports the same summary twice. */
  lemma UnmatchedPlanSameSummaries(data: Json, baseline: seq<Row>, plan: seq<(string, Json)>)
    requires forall k, j :: 0 <= k < |plan| && 0 <= j < |baseline| ==> plan[k].0 != baseline[j].familyId
    requires PredictiveModelingOf(data, baseline, plan).Success?
    ensures PredictiveModelingOf(data, baseline, plan).body.fields["before_report"]
      == PredictiveModelingOf(data, baseline, plan).body.fields["after_report"]
  {
    UnmatchedPlanChangesNothing(baseline, plan);
  }
}
