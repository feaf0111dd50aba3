/**
 * The EvidenceCollector: it turns the loosely structured inputs of one
 * control into a fixed evidence structure with one entry per evidence type
 * and a metadata entry.  The inputs are decoded JSON; the dictionary methods
 * and arithmetic the collector applies to them raise for values of the wrong
 * type, and those exceptions (AttributeError, TypeError) are the Err
 * results here.  The collection timestamp is a parameter.
 */
module EvidenceCollector {
  import opened Common
  import opened PyBuiltins
  import opened Json

  // -----------------------------------------------------------------------
  // _assess_document_quality

  /** One entry of quality_factors. */
  datatype Factor = Factor(name: string, weight: real)

  const QualityFactors: seq<Factor> := [Factor("completeness", 0.4), Factor("accuracy", 0.3), Factor("currency", 0.3)]

  /** weight * value, with Python's TypeError for a value that is not a number. */
  function WeightTimes(weight: real, v: Json): (r: Result<real, string>)
    ensures AsNumber(v).Some? <==> r.Ok?
    ensures r.Ok? ==> r.value == weight * AsNumber(v).value
  {
    match AsNumber(v)
    case Some(x) => Ok(weight * x)
    case None =>
      if v.JStr? || v.JArr? then Err("can't multiply sequence by non-int of type 'float'")
      else Err("unsupported operand type(s) for *: 'float' and '" + TypeName(v) + "'")
  }

  /** The weighted sum over the first factors, or the first factor's TypeError. */
  function WeightedQuality(details: map<string, Json>, factors: seq<Factor>): Result<real, string>
  {
    if factors == [] then Ok(0.0)
    else
      match WeightedQuality(details, factors[..|factors| - 1])
      case Err(e) => Err(e)
      case Ok(q) =>
        var f := factors[|factors| - 1];
        match WeightTimes(f.weight, Get(details, f.name, JInt(0)))
        case Err(e) => Err(e)
        case Ok(x) => Ok(q + x)
  }

  /**
   * min(max(q, 0), 1): the int 0 below zero, the int 1 above one, and the
   * float itself in between.
   */
  function Clamp(q: real): (j: Json)
    ensures q < 0.0 ==> j == JInt(0)
    ensures q > 1.0 ==> j == JInt(1)
    ensures 0.0 <= q <= 1.0 ==> j == JFloat(q)
  {
    if q < 0.0 then JInt(0) else if q > 1.0 then JInt(1) else JFloat(q)
  }

  /** _assess_document_quality as a value. */
  function DocumentQuality(details: Json): Result<Json, string>
  {
    if !Truthy(details) then Ok(JInt(0))
    else if !details.JObj? then Err(NoAttribute(details, "get"))
    else
      match WeightedQuality(details.fields, QualityFactors)
      case Err(e) => Err(e)
      case Ok(q) => Ok(Clamp(q))
  }

  /** Once a prefix of the factors fails, the whole list fails with the same error. */
  lemma {:induction false} QualityFailsFrom(details: map<string, Json>, factors: seq<Factor>, k: nat, e: string)
    requires k <= |factors|
    requires WeightedQuality(details, factors[..k]) == Err(e)
    ensures WeightedQuality(details, factors) == Err(e)
    decreases |factors| - k
  {
    if k < |factors| {
      assert factors[..k + 1][..k] == factors[..k];
      QualityFailsFrom(details, factors, k + 1, e);
    } else {
      assert factors[..k] == factors;
    }
  }

  /** The loop of _assess_document_quality: the weighted sum over the factors, stopping at the first TypeError. */
  method SumFactors(details: map<string, Json>, factors: seq<Factor>) returns (r: Result<real, string>)
    ensures r == WeightedQuality(details, factors)
  {
    var qualityScore := 0.0;
    var i := 0;
    while i < |factors|
      invariant 0 <= i <= |factors|
      invariant WeightedQuality(details, factors[..i]) == Ok(qualityScore)
    {
      var f := factors[i];
      assert factors[..i + 1][..i] == factors[..i];
      var term := WeightTimes(f.weight, Get(details, f.name, JInt(0)));
      if term.Err? {
        QualityFailsFrom(details, factors, i + 1, term.error);
        return Err(term.error);
      }
      qualityScore := qualityScore + term.value;
      i := i + 1;
    }
    assert factors[..|factors|] == factors;
    r := Ok(qualityScore);
  }

  /**
   * _assess_document_quality: 0 for empty details; otherwise the weighted
   * sum of completeness, accuracy and currency (missing factors count 0),
   * clamped to [0, 1].
   */
  method AssessDocumentQuality(details: Json) returns (quality: Result<Json, string>)
    ensures quality == DocumentQuality(details)
  {
    if !Truthy(details) {
      return Ok(JInt(0));
    }
    if !details.JObj? {
      return Err(NoAttribute(details, "get"));
    }
    var qualityScore := SumFactors(details.fields, QualityFactors);
    if qualityScore.Err? {
      return Err(qualityScore.error);
    }
    quality := Ok(Clamp(qualityScore.value));
  }

  /** A reported quality is always a number in [0, 1]. */
  lemma QualityInRange(details: Json)
    requires DocumentQuality(details).Ok?
    ensures AsNumber(DocumentQuality(details).value).Some?
    ensures 0.0 <= AsNumber(DocumentQuality(details).value).value <= 1.0
  {
  }

  /** With numeric factors, the quality is the clamped 0.4 / 0.3 / 0.3 weighted sum. */
  lemma {:induction false} QualityFormula(details: map<string, Json>, c: real, a: real, u: real)
    requires details != map[]
    requires AsNumber(Get(details, "completeness", JInt(0))) == Some(c)
    requires AsNumber(Get(details, "accuracy", JInt(0))) == Some(a)
    requires AsNumber(Get(details, "currency", JInt(0))) == Some(u)
    ensures DocumentQuality(JObj(details)) == Ok(Clamp(0.4 * c + 0.3 * a + 0.3 * u))
  {
    var fs := QualityFactors;
    assert fs[..2][..1] == fs[..1] && fs[..1][..0] == [] && fs[..3] == fs;
    assert WeightedQuality(details, fs[..1]) == Ok(0.4 * c);
    assert WeightedQuality(details, fs[..2]) == Ok(0.4 * c + 0.3 * a);
  }

  /** Empty details (falsy in Python) score 0 without being inspected. */
  lemma EmptyDetailsScoreZero(details: Json)
    requires !Truthy(details)
    ensures DocumentQuality(details) == Ok(JInt(0))
  {
  }

  // -----------------------------------------------------------------------
  // _calculate_severity_distribution

  /** The distribution dictionary {'high', 'medium', 'low'}. */
  datatype Severities = Severities(high: nat, medium: nat, low: nat)

  function SeverityTotal(d: Severities): nat
  {
    d.high + d.medium + d.low
  }

  /** The distribution as the dictionary the collector returns. */
  function SeveritiesJson(d: Severities): (j: Json)
    ensures j.JObj? && j.fields.Keys == {"high", "medium", "low"}
  {
    JObj(map["high" := JInt(d.high), "medium" := JInt(d.medium), "low" := JInt(d.low)])
  }

  /** incident.get('severity', 'low').lower(), or the AttributeError it raises. */
  function SeverityOf(incident: Json): Result<string, string>
  {
    if !incident.JObj? then Err(NoAttribute(incident, "get"))
    else
      var severity := Get(incident.fields, "severity", JStr("low"));
      if !severity.JStr? then Err(NoAttribute(severity, "lower"))
      else Ok(Lower(severity.s))
  }

  /** Counts one lowered severity; any other text leaves the distribution unchanged. */
  function Tally(d: Severities, severity: string): Severities
  {
    if severity == "high" then d.(high := d.high + 1)
    else if severity == "medium" then d.(medium := d.medium + 1)
    else if severity == "low" then d.(low := d.low + 1)
    else d
  }

  /** A tally adds one exactly for the three known severities, and nothing otherwise. */
  lemma TallyAddsOne(d: Severities, severity: string)
    ensures SeverityTotal(Tally(d, severity)) <= SeverityTotal(d) + 1
    ensures SeverityTotal(Tally(d, severity)) == SeverityTotal(d) + 1 <==> severity in {"high", "medium", "low"}
  {
  }

  /** The distribution over a list of incidents, or the first incident's AttributeError. */
  function TallyAll(incidents: seq<Json>): Result<Severities, string>
  {
    if incidents == [] then Ok(Severities(0, 0, 0))
    else
      match TallyAll(incidents[..|incidents| - 1])
      case Err(e) => Err(e)
      case Ok(d) =>
        match SeverityOf(incidents[|incidents| - 1])
        case Err(e) => Err(e)
        case Ok(s) => Ok(Tally(d, s))
  }

  /**
   * _calculate_severity_distribution as a value.  Iterating a non-empty
   * string or dict yields strings, whose `.get` fails; other non-lists are
   * not iterable.
   */
  function SeverityDistribution(incidents: Json): Result<Severities, string>
  {
    match incidents
    case JArr(items) => TallyAll(items)
    case JStr(s) => if s == "" then Ok(Severities(0, 0, 0)) else Err(NoAttribute(JStr(""), "get"))
    case JObj(m) => if m == map[] then Ok(Severities(0, 0, 0)) else Err(NoAttribute(JStr(""), "get"))
    case _ => Err("'" + TypeName(incidents) + "' object is not iterable")
  }

  /** Once a prefix of the incidents fails, the whole list fails with the same error. */
  lemma {:induction false} TallyFailsFrom(items: seq<Json>, k: nat, e: string)
    requires k <= |items|
    requires TallyAll(items[..k]) == Err(e)
    ensures TallyAll(items) == Err(e)
    decreases |items| - k
  {
    if k < |items| {
      assert items[..k + 1][..k] == items[..k];
      TallyFailsFrom(items, k + 1, e);
    } else {
      assert items[..k] == items;
    }
  }

  /**
   * _calculate_severity_distribution: counts incidents by lower-cased
   * severity, a missing severity counting as 'low' and other severities
   * not counted.
   */
  method CalculateSeverityDistribution(incidents: Json) returns (distribution: Result<Severities, string>)
    ensures distribution == SeverityDistribution(incidents)
  {
    if !incidents.JArr? {
      return SeverityDistribution(incidents);
    }
    var items := incidents.items;
    var d := Severities(0, 0, 0);
    var i := 0;
    while i < |items|
      invariant 0 <= i <= |items|
      invariant TallyAll(items[..i]) == Ok(d)
    {
      assert items[..i + 1][..i] == items[..i];
      var severity := SeverityOf(items[i]);
      if severity.Err? {
        TallyFailsFrom(items, i + 1, severity.error);
        return Err(severity.error);
      }
      d := Tally(d, severity.value);
      i := i + 1;
    }
    assert items[..|items|] == items;
    distribution := Ok(d);
  }

  /** Severities are counted case-insensitively, at most once per incident, the known ones exactly once. */
  lemma {:induction false} TallyAllCounts(incidents: seq<Json>)
    requires TallyAll(incidents).Ok?
    ensures SeverityTotal(TallyAll(incidents).value) <= |incidents|
    ensures (forall k :: 0 <= k < |incidents| ==> SeverityOf(incidents[k]).Ok? && SeverityOf(incidents[k]).value in {"high", "medium", "low"})
      ==> SeverityTotal(TallyAll(incidents).value) == |incidents|
  {
    if incidents != [] {
      var init := incidents[..|incidents| - 1];
      assert forall k :: 0 <= k < |init| ==> init[k] == incidents[k];
      TallyAllCounts(init);
      TallyAddsOne(TallyAll(init).value, SeverityOf(incidents[|incidents| - 1]).value);
    }
  }

  /** The list of incidents is processed in full or not at all: an error in any incident fails it. */
  lemma {:induction false} TallyAllOk(incidents: seq<Json>)
    ensures TallyAll(incidents).Ok? <==> forall k :: 0 <= k < |incidents| ==> SeverityOf(incidents[k]).Ok?
  {
    if incidents != [] {
      var init := incidents[..|incidents| - 1];
      assert forall k :: 0 <= k < |init| ==> init[k] == incidents[k];
      TallyAllOk(init);
    }
  }

  /** Two worked cases: mixed case and a missing severity, and an unrecognised one. */
  lemma SeverityExamples()
    ensures SeverityOf(JObj(map["severity" := JStr("HIGH")])) == Ok("high")
    ensures SeverityOf(JObj(map[])) == Ok("low")
    ensures TallyAll([JObj(map["severity" := JStr("High")]), JObj(map[]), JObj(map["severity" := JStr("critical")])])
      == Ok(Severities(1, 0, 1))
  {
    assert Lower("HIGH") == "high";
    assert Lower("High") == "high";
    var items := [JObj(map["severity" := JStr("High")]), JObj(map[]), JObj(map["severity" := JStr("critical")])];
    assert items[..2][..1] == [items[0]] && [items[0]][..0] == [] && items[..2] == items[..3][..2];
    assert Lower("critical") == "critical" && Lower("low") == "low";
    assert SeverityOf(items[0]) == Ok("high");
    assert SeverityOf(items[1]) == Ok("low");
    assert SeverityOf(items[2]) == Ok("critical");
    assert TallyAll([items[0]]) == Ok(Severities(1, 0, 0));
    assert TallyAll(items[..2]) == Ok(Severities(1, 0, 1));
    assert items[..3] == items;
  }

  // -----------------------------------------------------------------------
  // The _collect_* builders

  /** One documentation kind: its section and the three input keys it reads. */
  datatype DocKind = DocKind(section: string, existsKey: string, detailsKey: string, updatedKey: string)

  const DocKinds: seq<DocKind> := [
    DocKind("policies", "has_policies", "policy_details", "policy_last_updated"),
    DocKind("procedures", "has_procedures", "procedure_details", "procedure_last_updated"),
    DocKind("guidelines", "has_guidelines", "guideline_details", "guideline_last_updated"),
    DocKind("training_materials", "has_training", "training_details", "training_last_updated"),
    DocKind("audit_logs", "has_audit_logs", "audit_log_details", "audit_log_last_updated")]

  /** The entry of one documentation kind: exists, quality and last_updated. */
  function DocumentEntry(inputs: map<string, Json>, d: DocKind): Result<Json, string>
  {
    match DocumentQuality(Get(inputs, d.detailsKey, JObj(map[])))
    case Err(e) => Err(e)
    case Ok(q) => Ok(JObj(map[
      "exists" := Get(inputs, d.existsKey, JBool(false)),
      "quality" := q,
      "last_updated" := Get(inputs, d.updatedKey, JNull)]))
  }

  /** The entries of the first documentation kinds, or the first one's error. */
  function DocumentEntries(inputs: map<string, Json>, kinds: seq<DocKind>): (r: Result<map<string, Json>, string>)
    ensures r.Ok? ==> r.value.Keys == set d | d in kinds :: d.section
  {
    if kinds == [] then Ok(map[])
    else
      match DocumentEntries(inputs, kinds[..|kinds| - 1])
      case Err(e) => Err(e)
      case Ok(m) =>
        var d := kinds[|kinds| - 1];
        match DocumentEntry(inputs, d)
        case Err(e) => Err(e)
        case Ok(v) =>
          assert forall x :: x in kinds <==> x in kinds[..|kinds| - 1] || x == d;
          Ok(m[d.section := v])
  }

  /** _collect_documentation_evidence. */
  function DocumentationEvidence(inputs: map<string, Json>): Result<Json, string>
  {
    match DocumentEntries(inputs, DocKinds)
    case Err(e) => Err(e)
    case Ok(m) => Ok(JObj(m))
  }

  /** _assess_technical_controls, _assess_administrative_controls and _assess_physical_controls (identical). */
  function ControlAssessment(details: Json): Result<Json, string>
  {
    if !details.JObj? then Err(NoAttribute(details, "get"))
    else Ok(JObj(map[
      "effectiveness" := Get(details.fields, "effectiveness", JInt(0)),
      "validation_evidence" := Get(details.fields, "validation", JBool(false)),
      "testing_results" := Get(details.fields, "testing", JBool(false))]))
  }

  /** _collect_implementation_evidence. */
  function ImplementationEvidence(inputs: map<string, Json>): Result<Json, string>
  {
    match ControlAssessment(Get(inputs, "technical", JObj(map[])))
    case Err(e) => Err(e)
    case Ok(technical) =>
      match ControlAssessment(Get(inputs, "administrative", JObj(map[])))
      case Err(e) => Err(e)
      case Ok(administrative) =>
        match ControlAssessment(Get(inputs, "physical", JObj(map[])))
        case Err(e) => Err(e)
        case Ok(physical) => Ok(JObj(map[
          "technical_controls" := technical,
          "administrative_controls" := administrative,
          "physical_controls" := physical,
          "documented_processes" := Get(inputs, "documented_processes", JInt(0)),
          "regular_testing" := Get(inputs, "regular_testing", JInt(0)),
          "continuous_monitoring" := Get(inputs, "continuous_monitoring", JInt(0)),
          "improvement_process" := Get(inputs, "improvement_process", JInt(0)),
          "automation_level" := Get(inputs, "automation_level", JInt(0))]))
  }

  /** _collect_risk_evidence. */
  function RiskEvidence(inputs: map<string, Json>): Json
  {
    JObj(map[
      "threat_level" := Get(inputs, "threat_level", JFloat(0.5)),
      "vulnerability_score" := Get(inputs, "vulnerability_score", JFloat(0.5)),
      "impact_rating" := Get(inputs, "impact_rating", JFloat(0.5)),
      "last_assessment" := Get(inputs, "last_assessment", JNull),
      "assessor" := Get(inputs, "assessor", JStr("unknown"))])
  }

  /** {'level': inputs.get(key, 0)}. */
  function Level(inputs: map<string, Json>, key: string): Json
  {
    JObj(map["level" := Get(inputs, key, JInt(0))])
  }

  /** _collect_automation_evidence. */
  function AutomationEvidence(inputs: map<string, Json>): Json
  {
    JObj(map[
      "monitoring" := Level(inputs, "monitoring_automation"),
      "response" := Level(inputs, "response_automation"),
      "reporting" := Level(inputs, "reporting_automation"),
      "updates" := Level(inputs, "update_automation"),
      "validation" := Level(inputs, "validation_automation")])
  }

  /** _collect_monitoring_evidence. */
  function MonitoringEvidence(inputs: map<string, Json>): Json
  {
    JObj(map[
      "coverage" := Get(inputs, "monitoring_coverage", JInt(0)),
      "alerting" := Get(inputs, "alerting_effectiveness", JInt(0)),
      "response_time" := Get(inputs, "response_time_score", JInt(0))])
  }

  /** len(value), or the TypeError for a value without a length. */
  function Len(j: Json): Result<nat, string>
  {
    match j
    case JArr(items) => Ok(|items|)
    case JStr(s) => Ok(|s|)
    case JObj(m) => Ok(|m|)
    case _ => Err("object of type '" + TypeName(j) + "' has no len()")
  }

  /** _collect_incident_evidence: history, its length, then the severity distribution. */
  function IncidentEvidence(inputs: map<string, Json>): Result<Json, string>
  {
    var incidents := Get(inputs, "incidents", JArr([]));
    match Len(incidents)
    case Err(e) => Err(e)
    case Ok(n) =>
      match SeverityDistribution(incidents)
      case Err(e) => Err(e)
      case Ok(d) => Ok(JObj(map[
        "history" := incidents,
        "total_count" := JInt(n),
        "severity_distribution" := SeveritiesJson(d)]))
  }

  /** _collect_update_evidence. */
  function UpdateEvidence(inputs: map<string, Json>): Json
  {
    JObj(map[
      "frequency" := Get(inputs, "update_frequency", JInt(0)),
      "coverage" := Get(inputs, "update_coverage", JInt(0)),
      "validation" := Get(inputs, "update_validation", JInt(0))])
  }

  // -----------------------------------------------------------------------
  // collect_control_evidence

  /** The evidence types, in the order of the evidence_types table. */
  datatype EvidenceKind = Documentation | Implementation | RiskAssessment | Automation | Monitoring | Incidents | Updates

  const EvidenceKinds: seq<EvidenceKind> := [Documentation, Implementation, RiskAssessment, Automation, Monitoring, Incidents, Updates]

  /** The key of an evidence type. */
  function KindName(k: EvidenceKind): string
  {
    match k
    case Documentation => "documentation"
    case Implementation => "implementation"
    case RiskAssessment => "risk_assessment"
    case Automation => "automation"
    case Monitoring => "monitoring"
    case Incidents => "incidents"
    case Updates => "updates"
  }

  /** Every evidence type is in the table. */
  lemma KindListed(k: EvidenceKind)
    ensures k in EvidenceKinds
  {
    var i := match k
      case Documentation => 0
      case Implementation => 1
      case RiskAssessment => 2
      case Automation => 3
      case Monitoring => 4
      case Incidents => 5
      case Updates => 6;
    assert EvidenceKinds[i] == k;
  }

  /** No two evidence types share a key, and none is called 'metadata'. */
  lemma KindNamesDistinct(k1: EvidenceKind, k2: EvidenceKind)
    ensures KindName(k1) == KindName(k2) ==> k1 == k2
    ensures KindName(k1) != "metadata"
  {
  }

  /** The collector of one type applied to the input it is given; `.get` needs a dict. */
  function Collect(k: EvidenceKind, input: Json): Result<Json, string>
  {
    if !input.JObj? then Err(NoAttribute(input, "get"))
    else
      var inputs := input.fields;
      match k
      case Documentation => DocumentationEvidence(inputs)
      case Implementation => ImplementationEvidence(inputs)
      case RiskAssessment => Ok(RiskEvidence(inputs))
      case Automation => Ok(AutomationEvidence(inputs))
      case Monitoring => Ok(MonitoringEvidence(inputs))
      case Incidents => IncidentEvidence(inputs)
      case Updates => Ok(UpdateEvidence(inputs))
  }

  /** The templates of _get_empty_evidence. */
  const EmptyTemplates: map<string, Json> := map[
    "documentation" := JObj(map["policies" := JObj(map["exists" := JBool(false), "quality" := JInt(0)])]),
    "implementation" := JObj(map["technical_controls" := JObj(map["effectiveness" := JInt(0)])]),
    "risk_assessment" := JObj(map["threat_level" := JFloat(0.5), "vulnerability_score" := JFloat(0.5)]),
    "automation" := JObj(map["monitoring" := JObj(map["level" := JInt(0)])]),
    "monitoring" := JObj(map["coverage" := JInt(0), "alerting" := JInt(0)]),
    "incidents" := JObj(map["history" := JArr([]), "total_count" := JInt(0)]),
    "updates" := JObj(map["frequency" := JInt(0), "coverage" := JInt(0)])]

  /** _get_empty_evidence: the template of the type, {} for any other name. */
  function EmptyEvidence(evidenceType: string): (j: Json)
    ensures evidenceType !in EmptyTemplates ==> j == JObj(map[])
    ensures j.JObj?
  {
    Get(EmptyTemplates, evidenceType, JObj(map[]))
  }

  /** The entry of one type: its collector when the inputs have it, its template otherwise. */
  function EvidenceEntry(k: EvidenceKind, inputs: map<string, Json>): Result<Json, string>
  {
    if KindName(k) in inputs then Collect(k, inputs[KindName(k)])
    else Ok(EmptyEvidence(KindName(k)))
  }

  /** The entries of the first types, or the error of the first type whose collector raises. */
  function EvidenceEntries(kinds: seq<EvidenceKind>, inputs: map<string, Json>): Result<map<string, Json>, string>
  {
    if kinds == [] then Ok(map[])
    else
      match EvidenceEntries(kinds[..|kinds| - 1], inputs)
      case Err(e) => Err(e)
      case Ok(m) =>
        var k := kinds[|kinds| - 1];
        match EvidenceEntry(k, inputs)
        case Err(e) => Err(e)
        case Ok(v) => Ok(m[KindName(k) := v])
  }

  /** The metadata entry. */
  function Metadata(controlId: string, now: string): Json
  {
    JObj(map["control_id" := JStr(controlId), "collection_date" := JStr(now), "collector_version" := JStr("1.0.0")])
  }

  /** collect_control_evidence as a value. */
  function ControlEvidence(controlId: string, inputs: map<string, Json>, now: string): Result<map<string, Json>, string>
  {
    match EvidenceEntries(EvidenceKinds, inputs)
    case Err(e) => Err(e)
    case Ok(m) => Ok(m["metadata" := Metadata(controlId, now)])
  }

  /** Once a prefix of the types fails, the whole list fails with the same error. */
  lemma {:induction false} EntriesFailFrom(kinds: seq<EvidenceKind>, inputs: map<string, Json>, n: nat, e: string)
    requires n <= |kinds|
    requires EvidenceEntries(kinds[..n], inputs) == Err(e)
    ensures EvidenceEntries(kinds, inputs) == Err(e)
    decreases |kinds| - n
  {
    if n < |kinds| {
      assert kinds[..n + 1][..n] == kinds[..n];
      EntriesFailFrom(kinds, inputs, n + 1, e);
    } else {
      assert kinds[..n] == kinds;
    }
  }

  /**
   * The loop of collect_control_evidence over a table of evidence types:
   * each type's collector when the inputs name it and its empty template
   * otherwise, stopping at the first collector that raises.
   */
  method CollectEntries(kinds: seq<EvidenceKind>, inputs: map<string, Json>) returns (r: Result<map<string, Json>, string>)
    ensures r == EvidenceEntries(kinds, inputs)
  {
    var collected: map<string, Json> := map[];
    var i := 0;
    while i < |kinds|
      invariant 0 <= i <= |kinds|
      invariant EvidenceEntries(kinds[..i], inputs) == Ok(collected)
    {
      var k := kinds[i];
      assert kinds[..i + 1][..i] == kinds[..i];
      var entry;
      if KindName(k) in inputs {
        entry := Collect(k, inputs[KindName(k)]);
      } else {
        entry := Ok(EmptyEvidence(KindName(k)));
      }
      if entry.Err? {
        EntriesFailFrom(kinds, inputs, i + 1, entry.error);
        return Err(entry.error);
      }
      collected := collected[KindName(k) := entry.value];
      i := i + 1;
    }
    assert kinds[..|kinds|] == kinds;
    r := Ok(collected);
  }

  /**
   * collect_control_evidence: for each evidence type in table order, its
   * collector's result when the inputs name it and its empty template
   * otherwise; then the metadata.  `now` is the collection timestamp.
   */
  method CollectControlEvidence(controlId: string, inputs: map<string, Json>, now: string) returns (evidence: Result<map<string, Json>, string>)
    ensures evidence == ControlEvidence(controlId, inputs, now)
  {
    var collected := CollectEntries(EvidenceKinds, inputs);
    if collected.Err? {
      return Err(collected.error);
    }
    evidence := Ok(collected.value["metadata" := Metadata(controlId, now)]);
  }

  /** The keys of the collected entries are the names of the types collected. */
  lemma {:induction false} EntriesKeys(kinds: seq<EvidenceKind>, inputs: map<string, Json>)
    requires EvidenceEntries(kinds, inputs).Ok?
    ensures EvidenceEntries(kinds, inputs).value.Keys == set k | k in kinds :: KindName(k)
  {
    if kinds != [] {
      var init := kinds[..|kinds| - 1];
      EntriesKeys(init, inputs);
      assert forall x :: x in kinds <==> x in init || x == kinds[|kinds| - 1];
    }
  }

  /** Each type's entry is what its collector or template gives, the type named last winning. */
  lemma {:induction false} EntriesValues(kinds: seq<EvidenceKind>, inputs: map<string, Json>, k: EvidenceKind)
    requires EvidenceEntries(kinds, inputs).Ok?
    requires k in kinds
    ensures EvidenceEntry(k, inputs).Ok?
    ensures KindName(k) in EvidenceEntries(kinds, inputs).value
    ensures EvidenceEntries(kinds, inputs).value[KindName(k)] == EvidenceEntry(k, inputs).value
  {
    var init := kinds[..|kinds| - 1];
    var last := kinds[|kinds| - 1];
    EntriesKeys(kinds, inputs);
    KindNamesDistinct(k, last);
    if k != last {
      assert k in init;
      EntriesValues(init, inputs, k);
    }
  }

  /** The collection fails exactly when some type named in the inputs has a failing collector. */
  lemma {:induction false} EntriesFail(kinds: seq<EvidenceKind>, inputs: map<string, Json>)
    ensures EvidenceEntries(kinds, inputs).Err? <==> exists k :: k in kinds && EvidenceEntry(k, inputs).Err?
  {
    if kinds != [] {
      var init := kinds[..|kinds| - 1];
      EntriesFail(init, inputs);
      assert forall x :: x in kinds <==> x in init || x == kinds[|kinds| - 1];
    }
  }

  /**
   * The collected evidence has every evidence type's key plus 'metadata',
   * and metadata.control_id is the argument.
   */
  lemma CollectedKeys(controlId: string, inputs: map<string, Json>, now: string)
    requires ControlEvidence(controlId, inputs, now).Ok?
    ensures forall k: EvidenceKind :: KindName(k) in ControlEvidence(controlId, inputs, now).value
    ensures ControlEvidence(controlId, inputs, now).value.Keys == (set k | k in EvidenceKinds :: KindName(k)) + {"metadata"}
    ensures ControlEvidence(controlId, inputs, now).value["metadata"].fields["control_id"] == JStr(controlId)
  {
    EntriesKeys(EvidenceKinds, inputs);
    forall k: EvidenceKind ensures KindName(k) in ControlEvidence(controlId, inputs, now).value {
      KindListed(k);
    }
  }

  /** A type the inputs do not name gets its empty template. */
  lemma MissingTypeGetsTemplate(controlId: string, inputs: map<string, Json>, now: string, k: EvidenceKind)
    requires ControlEvidence(controlId, inputs, now).Ok?
    requires KindName(k) !in inputs
    ensures KindName(k) in ControlEvidence(controlId, inputs, now).value
    ensures ControlEvidence(controlId, inputs, now).value[KindName(k)] == EmptyEvidence(KindName(k))
  {
    KindListed(k);
    EntriesKeys(EvidenceKinds, inputs);
    EntriesValues(EvidenceKinds, inputs, k);
    KindNamesDistinct(k, k);
  }

  /** With none of the types in the inputs, nothing can fail. */
  lemma NoInputsNeverFail(controlId: string, inputs: map<string, Json>, now: string)
    requires forall k: EvidenceKind :: KindName(k) !in inputs
    ensures ControlEvidence(controlId, inputs, now).Ok?
  {
    EntriesFail(EvidenceKinds, inputs);
  }

  /** Incident evidence counts every incident it keeps as history. */
  lemma IncidentCount(inputs: map<string, Json>, incidents: seq<Json>)
    requires Get(inputs, "incidents", JArr([])) == JArr(incidents)
    requires IncidentEvidence(inputs).Ok?
    ensures IncidentEvidence(inputs).value.fields["history"] == JArr(incidents)
    ensures IncidentEvidence(inputs).value.fields["total_count"] == JInt(|incidents|)
    ensures IncidentEvidence(inputs).value.fields["severity_distribution"].fields.Keys == {"high", "medium", "low"}
  {
  }

  /**
   * Risk evidence has exactly its five fields; each is the input's value when
   * given, otherwise 0.5 for the three ratings, None for the last assessment
   * and 'unknown' for the assessor.
   */
  lemma RiskDefaults(inputs: map<string, Json>)
    ensures RiskEvidence(inputs).fields.Keys
      == {"threat_level", "vulnerability_score", "impact_rating", "last_assessment", "assessor"}
    ensures forall key :: key in RiskEvidence(inputs).fields && key in inputs ==> RiskEvidence(inputs).fields[key] == inputs[key]
    ensures "threat_level" !in inputs ==> RiskEvidence(inputs).fields["threat_level"] == JFloat(0.5)
    ensures "vulnerability_score" !in inputs ==> RiskEvidence(inputs).fields["vulnerability_score"] == JFloat(0.5)
    ensures "impact_rating" !in inputs ==> RiskEvidence(inputs).fields["impact_rating"] == JFloat(0.5)
    ensures "last_assessment" !in inputs ==> RiskEvidence(inputs).fields["last_assessment"] == JNull
    ensures "assessor" !in inputs ==> RiskEvidence(inputs).fields["assessor"] == JStr("unknown")
  {
  }

  /** Every documentation kind defaults 'exists' to False and 'last_updated' to None. */
  lemma DocumentationDefaults(inputs: map<string, Json>, d: DocKind)
    requires d.existsKey !in inputs && d.updatedKey !in inputs
    requires DocumentEntry(inputs, d).Ok?
    ensures DocumentEntry(inputs, d).value.fields["exists"] == JBool(false)
    ensures DocumentEntry(inputs, d).value.fields["last_updated"] == JNull
  {
  }

  /**
   * A control assessment needs a dict: it then holds exactly effectiveness,
   * validation_evidence and testing_results, each the input's value when
   * given, else 0, False and False.
   */
  lemma ControlAssessmentDefaults(details: Json)
    ensures ControlAssessment(details).Ok? <==> details.JObj?
    ensures !details.JObj? ==> ControlAssessment(details) == Err(NoAttribute(details, "get"))
    ensures details.JObj? ==>
      ControlAssessment(details).value.JObj?
        && ControlAssessment(details).value.fields.Keys == {"effectiveness", "validation_evidence", "testing_results"}
    ensures details.JObj? ==>
      ControlAssessment(details).value.fields["effectiveness"]
        == (if "effectiveness" in details.fields then details.fields["effectiveness"] else JInt(0))
    ensures details.JObj? ==>
      ControlAssessment(details).value.fields["validation_evidence"]
        == (if "validation" in details.fields then details.fields["validation"] else JBool(false))
    ensures details.JObj? ==>
      ControlAssessment(details).value.fields["testing_results"]
        == (if "testing" in details.fields then details.fields["testing"] else JBool(false))
  {
  }

  /** A control section that is absent or a dict: the sections whose assessment succeeds. */
  predicate SectionOk(inputs: map<string, Json>, key: string)
  {
    key !in inputs || inputs[key].JObj?
  }

  /**
   * Implementation evidence succeeds iff each of the technical,
   * administrative and physical sections is absent or a dict.
   */
  lemma ImplementationOk(inputs: map<string, Json>)
    ensures ImplementationEvidence(inputs).Ok?
      <==> SectionOk(inputs, "technical") && SectionOk(inputs, "administrative") && SectionOk(inputs, "physical")
  {
  }

  /**
   * Successful implementation evidence holds exactly the eight keys of
   * _collect_implementation_evidence.
   */
  lemma ImplementationKeys(inputs: map<string, Json>)
    ensures ImplementationEvidence(inputs).Ok? ==> ImplementationEvidence(inputs).value.JObj?
    ensures ImplementationEvidence(inputs).Ok? ==>
      ImplementationEvidence(inputs).value.fields.Keys
        == {"technical_controls", "administrative_controls", "physical_controls", "documented_processes",
            "regular_testing", "continuous_monitoring", "improvement_process", "automation_level"}
  {
  }

  /**
   * The three control entries are the assessments of the technical,
   * administrative and physical sections, an absent one assessed as an
   * empty dict.
   */
  lemma ImplementationSections(inputs: map<string, Json>)
    ensures ImplementationEvidence(inputs).Ok? ==>
      ImplementationEvidence(inputs).value.fields["technical_controls"] == ControlAssessment(Get(inputs, "technical", JObj(map[]))).value
      && ImplementationEvidence(inputs).value.fields["administrative_controls"] == ControlAssessment(Get(inputs, "administrative", JObj(map[]))).value
      && ImplementationEvidence(inputs).value.fields["physical_controls"] == ControlAssessment(Get(inputs, "physical", JObj(map[]))).value
  {
  }

  /** The five counters are the input's values, each defaulting to 0. */
  lemma ImplementationDefaults(inputs: map<string, Json>)
    ensures ImplementationEvidence(inputs).Ok? ==>
      ImplementationEvidence(inputs).value.fields["documented_processes"] == Get(inputs, "documented_processes", JInt(0))
      && ImplementationEvidence(inputs).value.fields["regular_testing"] == Get(inputs, "regular_testing", JInt(0))
      && ImplementationEvidence(inputs).value.fields["continuous_monitoring"] == Get(inputs, "continuous_monitoring", JInt(0))
      && ImplementationEvidence(inputs).value.fields["improvement_process"] == Get(inputs, "improvement_process", JInt(0))
      && ImplementationEvidence(inputs).value.fields["automation_level"] == Get(inputs, "automation_level", JInt(0))
  {
  }

  /** Automation evidence: five entries, each {'level': v} with v the input's value, else 0. */
  lemma AutomationDefaults(inputs: map<string, Json>)
    ensures AutomationEvidence(inputs).fields.Keys == {"monitoring", "response", "reporting", "updates", "validation"}
    ensures AutomationEvidence(inputs).fields["monitoring"] == JObj(map["level" := Get(inputs, "monitoring_automation", JInt(0))])
    ensures AutomationEvidence(inputs).fields["response"] == JObj(map["level" := Get(inputs, "response_automation", JInt(0))])
    ensures AutomationEvidence(inputs).fields["reporting"] == JObj(map["level" := Get(inputs, "reporting_automation", JInt(0))])
    ensures AutomationEvidence(inputs).fields["updates"] == JObj(map["level" := Get(inputs, "update_automation", JInt(0))])
    ensures AutomationEvidence(inputs).fields["validation"] == JObj(map["level" := Get(inputs, "validation_automation", JInt(0))])
  {
  }

  /** Monitoring evidence: coverage, alerting and response_time, each the input's value, else 0. */
  lemma MonitoringDefaults(inputs: map<string, Json>)
    ensures MonitoringEvidence(inputs).fields.Keys == {"coverage", "alerting", "response_time"}
    ensures MonitoringEvidence(inputs).fields["coverage"]
      == (if "monitoring_coverage" in inputs then inputs["monitoring_coverage"] else JInt(0))
    ensures MonitoringEvidence(inputs).fields["alerting"]
      == (if "alerting_effectiveness" in inputs then inputs["alerting_effectiveness"] else JInt(0))
    ensures MonitoringEvidence(inputs).fields["response_time"]
      == (if "response_time_score" in inputs then inputs["response_time_score"] else JInt(0))
  {
  }

  /** Update evidence: frequency, coverage and validation, each the input's value, else 0. */
  lemma UpdateDefaults(inputs: map<string, Json>)
    ensures UpdateEvidence(inputs).fields.Keys == {"frequency", "coverage", "validation"}
    ensures UpdateEvidence(inputs).fields["frequency"]
      == (if "update_frequency" in inputs then inputs["update_frequency"] else JInt(0))
    ensures UpdateEvidence(inputs).fields["coverage"]
      == (if "update_coverage" in inputs then inputs["update_coverage"] else JInt(0))
    ensures UpdateEvidence(inputs).fields["validation"]
      == (if "update_validation" in inputs then inputs["update_validation"] else JInt(0))
  {
  }
}
