/**
 * The AI analyzer module: its own copy of AISecurityAssessment, whose
 * determine_maturity_level uses strict greater-than thresholds, and the
 * AIComplianceAnalyzer's prompt builder and evidence analysis.
 *
 * The generative model, json.loads, json.dumps and str() are calls this
 * model cannot see; they are parameters: `generate` maps a prompt to the
 * response text (or to the message of the exception it raises), `loads`
 * parses text (or gives the JSONDecodeError message), and Render holds
 * str() of a JSON value and json.dumps of an example's expected answer.
 * The controls table is the already loaded controls.json object.
 */
module AiAnalyzer {
  import opened Common
  import opened PyBuiltins
  import opened Json
  import opened ScoreCard
  import Assessment

  // -----------------------------------------------------------------------
  // AISecurityAssessment (strict thresholds)

  /** determine_maturity_level: > 85, > 70, > 50, >= 0, else 'Unknown'. */
  function DetermineMaturityLevel(s: real): (m: Maturity)
    ensures m == Advanced <==> s > 85.0
    ensures m == Mature <==> 70.0 < s <= 85.0
    ensures m == Developing <==> 50.0 < s <= 70.0
    ensures m == Basic <==> 0.0 <= s <= 50.0
    ensures m == Unknown <==> s < 0.0
  {
    if s > 85.0 then Advanced
    else if s > 70.0 then Mature
    else if s > 50.0 then Developing
    else if s >= 0.0 then Basic
    else Unknown
  }

  /** For every score that is not negative, the maturity level is the recommendation tier. */
  lemma LevelAgreesWithTier(s: real)
    ensures s >= 0.0 ==> DetermineMaturityLevel(s) == [Basic, Developing, Mature, Advanced][Tier(s)]
    ensures s >= 0.0 <==> DetermineMaturityLevel(s) != Unknown
  {
  }

  /**
   * The two copies agree wherever the range table finds a level; they differ
   * exactly on the gaps between its ranges and above 100, where the range
   * table says 'Unknown' and the thresholds give a level.
   */
  lemma MaturityRulesCompared(s: real)
    ensures Assessment.DetermineMaturityLevel(s) != Unknown ==> Assessment.DetermineMaturityLevel(s) == DetermineMaturityLevel(s)
    ensures Assessment.DetermineMaturityLevel(s) != DetermineMaturityLevel(s) <==>
      50.0 < s < 51.0 || 70.0 < s < 71.0 || 85.0 < s < 86.0 || s > 100.0
    ensures s < 0.0 ==> Assessment.DetermineMaturityLevel(s) == Unknown == DetermineMaturityLevel(s)
  {
  }

  /** generate_assessment_report with the strict maturity rule. */
  method GenerateAssessmentReport(data: seq<FamilyControls>) returns (report: Report)
    ensures report == AssessmentReport(ControlFamilies, RecommendationWording, data, DetermineMaturityLevel)
    ensures report.maturityLevel == DetermineMaturityLevel(OverallScore(ControlFamilies, FamilyScoresOf(ControlFamilies, data)))
  {
    report := ScoreCard.GenerateAssessmentReport(ControlFamilies, RecommendationWording, data, DetermineMaturityLevel);
  }

  // -----------------------------------------------------------------------
  // _build_prompt

  /** str() of a JSON value and json.dumps({"base_score": b, "justification": j}). */
  datatype Render = Render(str: Json -> string, dumpsAnswer: (Json, Json) -> string)

  /** The fixed lines of the prompt. */
  datatype PromptText = PromptText(
    role: string,
    format: string,
    controlLead: string,
    examplesLead: string,
    separator: string,
    assessLead: string,
    newEvidence: string,
    closing: string)

  const Prompt: PromptText := PromptText(
    "You are an expert AI compliance auditor. Your task is to assess a piece of evidence against a specific security control and provide a quantitative 'base_score' from 0 to 100, where 0 is non-existent and 100 is perfect implementation.",
    "You must also provide a concise 'justification' for your score. Your entire response must be a single, valid JSON object with the keys 'base_score' and 'justification'.",
    "\nHere is the control you are assessing (ID: ",
    "\nHere are some examples of how to score evidence for this control:",
    "---",
    "\nNow, please assess the following new evidence based on the control and examples provided.",
    "NEW EVIDENCE:",
    "\nProvide your assessment ONLY as a single, valid JSON object. Do not include any other text or formatting outside of the JSON object.")

  /** The ValueError message for a control that is missing or empty. */
  function ControlNotFound(shown: string): string
  {
    "Control ID '" + shown + "' not found in controls file."
  }

  /**
   * self.controls.get(control_id) for an id of any JSON type: a string is
   * looked up, another hashable value is never a key, and a list or dict
   * raises TypeError.
   */
  function LookUpControl(controls: map<string, Json>, controlId: Json): Result<Json, string>
  {
    match controlId
    case JStr(id) => Ok(if id in controls then controls[id] else JNull)
    case JArr(_) => Err("unhashable type: 'list'")
    case JObj(_) => Err("unhashable type: 'dict'")
    case _ => Ok(JNull)
  }

  /**
   * The items `enumerate(examples)` yields, when each of them supports
   * `.get`: a list gives its items, an empty string or dict gives none; a
   * non-empty string or dict yields strings, whose `.get` fails, and any
   * other value is not iterable.
   */
  function ExampleObjects(examples: Json): (r: Result<seq<map<string, Json>>, string>)
    ensures examples.JArr? && (forall k :: 0 <= k < |examples.items| ==> examples.items[k].JObj?) ==>
      r.Ok? && |r.value| == |examples.items| && forall k :: 0 <= k < |r.value| ==> r.value[k] == examples.items[k].fields
  {
    match examples
    case JArr(items) => ObjectItems(items)
    case JStr(s) => if s == "" then Ok([]) else Err(NoAttribute(JStr(""), "get"))
    case JObj(m) => if m == map[] then Ok([]) else Err(NoAttribute(JStr(""), "get"))
    case _ => Err("'" + TypeName(examples) + "' object is not iterable")
  }

  /** The dictionaries of a list, or the AttributeError of its first other item. */
  function ObjectItems(items: seq<Json>): (r: Result<seq<map<string, Json>>, string>)
    ensures r.Ok? <==> forall k :: 0 <= k < |items| ==> items[k].JObj?
    ensures r.Ok? ==> |r.value| == |items| && forall k :: 0 <= k < |items| ==> r.value[k] == items[k].fields
  {
    if items == [] then Ok([])
    else if !items[0].JObj? then Err(NoAttribute(items[0], "get"))
    else
      match ObjectItems(items[1..])
      case Err(e) => Err(e)
      case Ok(rest) => Ok([items[0].fields] + rest)
  }

  /** The six lines before the examples. */
  function HeaderParts(controlId: string, question: string): seq<string>
  {
    [ Prompt.role,
      Prompt.format,
      Prompt.controlLead + controlId + "):",
      "'" + question + "'",
      Prompt.examplesLead,
      Prompt.separator]
  }

  /** An example's evidence line: the text in double quotes. */
  function EvidenceLine(text: string): string
  {
    "Evidence: \"" + text + "\""
  }

  /** The four lines of example number n (counted from 1). */
  function ExampleParts(r: Render, n: nat, example: map<string, Json>): seq<string>
  {
    [ "EXAMPLE " + NatToString(n) + ":",
      EvidenceLine(r.str(Get(example, "evidence", JNull))),
      "Correct Response:\n" + r.dumpsAnswer(Get(example, "base_score", JNull), Get(example, "justification", JNull)),
      Prompt.separator]
  }

  /** The blocks of the first examples, numbered from 1. */
  function ExamplesParts(r: Render, examples: seq<map<string, Json>>): (parts: seq<string>)
    ensures |parts| == 4 * |examples|
  {
    if examples == [] then []
    else ExamplesParts(r, examples[..|examples| - 1]) + ExampleParts(r, |examples|, examples[|examples| - 1])
  }

  /** The four lines after the examples, quoting the new evidence. */
  function FooterParts(evidence: string): seq<string>
  {
    [Prompt.assessLead, Prompt.newEvidence, "\"" + evidence + "\"", Prompt.closing]
  }

  /** prompt_parts of _build_prompt, or the message of the exception it raises. */
  function PromptParts(controls: map<string, Json>, r: Render, controlId: Json, evidence: string): Result<seq<string>, string>
  {
    match LookUpControl(controls, controlId)
    case Err(e) => Err(e)
    case Ok(control) =>
      if !Truthy(control) then
        Err(ControlNotFound(if controlId.JStr? then controlId.s else r.str(controlId)))
      else if !control.JObj? then Err(NoAttribute(control, "get"))
      else
        var question := Get(control.fields, "question", JNull);
        match ExampleObjects(Get(control.fields, "examples", JArr([])))
        case Err(e) => Err(e)
        case Ok(examples) =>
          Ok(HeaderParts(controlId.s, r.str(question)) + ExamplesParts(r, examples) + FooterParts(evidence))
  }

  /** _build_prompt as a value: the parts joined by newlines. */
  function PromptFor(controls: map<string, Json>, r: Render, controlId: Json, evidence: string): Result<string, string>
  {
    match PromptParts(controls, r, controlId, evidence)
    case Err(e) => Err(e)
    case Ok(parts) => Ok(Join("\n", parts))
  }

  /**
   * _build_prompt: the header, one four-line block per example, numbered
   * from 1 in file order, and the footer quoting the evidence, joined by
   * newlines; ValueError when the control is missing or empty.
   */
  method BuildPrompt(controls: map<string, Json>, r: Render, controlId: Json, evidence: string) returns (prompt: Result<string, string>)
    ensures prompt == PromptFor(controls, r, controlId, evidence)
  {
    var found := LookUpControl(controls, controlId);
    if found.Err? {
      return Err(found.error);
    }
    var control := found.value;
    if !Truthy(control) {
      return Err(ControlNotFound(if controlId.JStr? then controlId.s else r.str(controlId)));
    }
    if !control.JObj? {
      return Err(NoAttribute(control, "get"));
    }
    var question := Get(control.fields, "question", JNull);
    var listed := ExampleObjects(Get(control.fields, "examples", JArr([])));
    if listed.Err? {
      return Err(listed.error);
    }
    var promptParts := HeaderParts(controlId.s, r.str(question));
    promptParts := AppendExamples(r, listed.value, promptParts);
    promptParts := promptParts + FooterParts(evidence);
    prompt := Ok(Join("\n", promptParts));
  }

  /** The examples loop of _build_prompt: a numbered four-line block per example, in order. */
  method AppendExamples(r: Render, examples: seq<map<string, Json>>, parts: seq<string>) returns (promptParts: seq<string>)
    ensures promptParts == parts + ExamplesParts(r, examples)
  {
    promptParts := parts;
    var i := 0;
    while i < |examples|
      invariant 0 <= i <= |examples|
      invariant promptParts == parts + ExamplesParts(r, examples[..i])
    {
      assert examples[..i + 1][..i] == examples[..i];
      promptParts := promptParts + ExampleParts(r, i + 1, examples[i]);
      i := i + 1;
    }
    assert examples[..|examples|] == examples;
  }

  /** Example k's block sits at lines 6 + 4k .. 6 + 4k + 3 of the examples section. */
  lemma {:induction false} ExamplesPartsAt(r: Render, examples: seq<map<string, Json>>, k: nat)
    requires k < |examples|
    ensures ExamplesParts(r, examples)[4 * k..4 * k + 4] == ExampleParts(r, k + 1, examples[k])
  {
    var init := examples[..|examples| - 1];
    if k < |init| {
      ExamplesPartsAt(r, init, k);
      assert ExamplesParts(r, examples)[..4 * |init|] == ExamplesParts(r, init);
      assert init[k] == examples[k];
    }
  }

  /** The header has six lines, the third naming the control; the footer four, the third quoting the evidence. */
  lemma HeaderFooterShape(id: string, question: string, evidence: string)
    ensures |HeaderParts(id, question)| == 6 && HeaderParts(id, question)[2] == Prompt.controlLead + id + "):"
    ensures |FooterParts(evidence)| == 4 && FooterParts(evidence)[2] == "\"" + evidence + "\""
  {
  }

  /** The parts of a prompt for a control that is a non-empty dictionary with well-formed examples. */
  lemma PromptPartsOf(controls: map<string, Json>, r: Render, id: string, evidence: string)
    requires id in controls && controls[id].JObj? && controls[id].fields != map[]
    requires PromptParts(controls, r, JStr(id), evidence).Ok?
    ensures ExampleObjects(Get(controls[id].fields, "examples", JArr([]))).Ok?
    ensures PromptParts(controls, r, JStr(id), evidence).value ==
      HeaderParts(id, r.str(Get(controls[id].fields, "question", JNull)))
      + ExamplesParts(r, ExampleObjects(Get(controls[id].fields, "examples", JArr([]))).value)
      + FooterParts(evidence)
  {
  }

  /**
   * The layout of a built prompt: six header lines, a block per example
   * opening with "EXAMPLE i:" for i = 1, 2, ..., and the quoted evidence
   * on the next-to-last line.
   */
  lemma {:induction false} PromptLayout(controls: map<string, Json>, r: Render, id: string, evidence: string)
    requires id in controls && controls[id].JObj? && controls[id].fields != map[]
    requires PromptParts(controls, r, JStr(id), evidence).Ok?
    ensures ExampleObjects(Get(controls[id].fields, "examples", JArr([]))).Ok?
    ensures var parts := PromptParts(controls, r, JStr(id), evidence).value;
      var examples := ExampleObjects(Get(controls[id].fields, "examples", JArr([]))).value;
      && |parts| == 10 + 4 * |examples|
      && parts[2] == Prompt.controlLead + id + "):"
      && (forall k :: 0 <= k < |examples| ==> parts[6 + 4 * k] == "EXAMPLE " + NatToString(k + 1) + ":")
      && parts[|parts| - 2] == "\"" + evidence + "\""
  {
    PromptPartsOf(controls, r, id, evidence);
    var parts := PromptParts(controls, r, JStr(id), evidence).value;
    var examples := ExampleObjects(Get(controls[id].fields, "examples", JArr([]))).value;
    var question := r.str(Get(controls[id].fields, "question", JNull));
    var head, body, foot := HeaderParts(id, question), ExamplesParts(r, examples), FooterParts(evidence);
    HeaderFooterShape(id, question, evidence);
    assert parts == head + body + foot;
    assert parts[2] == head[2];
    assert parts[|parts| - 2] == foot[2];
    ExampleHeads(r, examples, head, foot);
  }

  /** Between a six-line header and any footer, example k's block opens at line 6 + 4k. */
  lemma ExampleHeads(r: Render, examples: seq<map<string, Json>>, head: seq<string>, foot: seq<string>)
    requires |head| == 6
    ensures forall k :: 0 <= k < |examples| ==>
      (head + ExamplesParts(r, examples) + foot)[6 + 4 * k] == "EXAMPLE " + NatToString(k + 1) + ":"
  {
    var body := ExamplesParts(r, examples);
    forall k | 0 <= k < |examples| ensures (head + body + foot)[6 + 4 * k] == "EXAMPLE " + NatToString(k + 1) + ":" {
      ExamplesPartsAt(r, examples, k);
      assert (head + body + foot)[6 + 4 * k] == body[4 * k];
    }
  }

  /** str() of a Python string is that string. */
  ghost predicate StrKeepsStrings(r: Render)
  {
    forall s: string :: r.str(JStr(s)) == s
  }

  /**
   * The line after example k's heading quotes that example's evidence when
   * it is a string.
   */
  lemma ExampleQuotesEvidence(r: Render, examples: seq<map<string, Json>>, k: nat, s: string)
    requires StrKeepsStrings(r) && k < |examples|
    requires Get(examples[k], "evidence", JNull) == JStr(s)
    ensures ExamplesParts(r, examples)[4 * k + 1] == EvidenceLine(s)
  {
    ExamplesPartsAt(r, examples, k);
    assert ExamplesParts(r, examples)[4 * k + 1] == ExampleParts(r, k + 1, examples[k])[1];
  }

  /** A missing control id, or one mapped to an empty value, is a ValueError naming the id. */
  lemma UnknownControlRejected(controls: map<string, Json>, r: Render, id: string, evidence: string)
    requires id !in controls || !Truthy(controls[id])
    ensures PromptFor(controls, r, JStr(id), evidence) == Err(ControlNotFound(id))
  {
  }

  /** A built prompt contains the quoted evidence. */
  lemma PromptQuotesEvidence(controls: map<string, Json>, r: Render, id: string, evidence: string)
    requires id in controls && controls[id].JObj? && controls[id].fields != map[]
    requires PromptFor(controls, r, JStr(id), evidence).Ok?
    ensures Contains(PromptFor(controls, r, JStr(id), evidence).value, "\"" + evidence + "\"")
  {
    var parts := PromptParts(controls, r, JStr(id), evidence).value;
    PromptLayout(controls, r, id, evidence);
    JoinContainsPart("\n", parts, |parts| - 2);
  }

  // -----------------------------------------------------------------------
  // analyze_control_evidence

  /** The text json.loads is given: fences removed, whitespace stripped. */
  function CleanResponse(raw: string): string
  {
    Strip(RemoveAll(RemoveAll(Strip(raw), "```json"), "```"))
  }

  /** The dictionary returned instead of raising, for any failure inside the try block. */
  function ErrorResult(message: string): (j: Json)
    ensures j.JObj? && j.fields.Keys == {"base_score", "justification"}
    ensures j.fields["base_score"] == JInt(0)
  {
    JObj(map["base_score" := JInt(0), "justification" := JStr("Error during analysis: " + message)])
  }

  /** The evidence check that runs before anything else. */
  predicate ValidEvidence(evidence: Json)
  {
    evidence.JStr? && Strip(evidence.s) != ""
  }

  /** The body of the try block: the parsed answer, or the message of the exception raised. */
  function Attempt(
    controls: map<string, Json>, r: Render, evidence: string, controlId: Json,
    generate: string -> Result<string, string>, loads: string -> Result<Json, string>): Result<Json, string>
  {
    match PromptFor(controls, r, controlId, evidence)
    case Err(e) => Err(e)
    case Ok(prompt) =>
      match generate(prompt)
      case Err(e) => Err(e)
      case Ok(text) =>
        match loads(CleanResponse(text))
        case Err(e) => Err(e)
        case Ok(result) =>
          match PyIn("base_score", result)
          case Err(e) => Err(e)
          case Ok(hasScore) =>
            if !hasScore then Err("AI response JSON is missing required keys.")
            else
              match PyIn("justification", result)
              case Err(e) => Err(e)
              case Ok(hasJustification) =>
                if !hasJustification then Err("AI response JSON is missing required keys.")
                else Ok(result)
  }

  /**
   * analyze_control_evidence: ValueError for evidence that is not a string
   * or only whitespace; otherwise the model's parsed answer when it has both
   * keys, and the error dictionary for every failure on the way.
   */
  function AnalyzeControlEvidence(
    controls: map<string, Json>, r: Render, evidence: Json, controlId: Json,
    generate: string -> Result<string, string>, loads: string -> Result<Json, string>): (res: Result<Json, string>)
    ensures res.Err? <==> !ValidEvidence(evidence)
    ensures res.Err? ==> res.error == "Evidence must be a non-empty string."
    ensures res.Ok? ==>
      || (exists msg :: res.value == ErrorResult(msg))
      || (PyIn("base_score", res.value) == Ok(true) && PyIn("justification", res.value) == Ok(true))
  {
    if !ValidEvidence(evidence) then Err("Evidence must be a non-empty string.")
    else
      match Attempt(controls, r, evidence.s, controlId, generate, loads)
      case Ok(result) => Ok(result)
      case Err(e) => Ok(ErrorResult(e))
  }

  /** A missing or empty control is reported in the error dictionary, not raised. */
  lemma UnknownControlFallsBack(
    controls: map<string, Json>, r: Render, evidence: Json, id: string,
    generate: string -> Result<string, string>, loads: string -> Result<Json, string>)
    requires ValidEvidence(evidence)
    requires id !in controls || !Truthy(controls[id])
    ensures AnalyzeControlEvidence(controls, r, evidence, JStr(id), generate, loads) == Ok(ErrorResult(ControlNotFound(id)))
  {
    UnknownControlRejected(controls, r, id, evidence.s);
  }

  /** Unparsable model output is reported in the error dictionary. */
  lemma UnparsableResponseFallsBack(
    controls: map<string, Json>, r: Render, evidence: Json, controlId: Json,
    generate: string -> Result<string, string>, loads: string -> Result<Json, string>)
    requires ValidEvidence(evidence)
    requires PromptFor(controls, r, controlId, evidence.s).Ok?
    requires generate(PromptFor(controls, r, controlId, evidence.s).value).Ok?
    requires loads(CleanResponse(generate(PromptFor(controls, r, controlId, evidence.s).value).value)).Err?
    ensures AnalyzeControlEvidence(controls, r, evidence, controlId, generate, loads)
      == Ok(ErrorResult(loads(CleanResponse(generate(PromptFor(controls, r, controlId, evidence.s).value).value)).error))
  {
  }

  /** A parsed object lacking either key is reported as missing required keys. */
  lemma MissingKeyFallsBack(
    controls: map<string, Json>, r: Render, evidence: Json, controlId: Json,
    generate: string -> Result<string, string>, loads: string -> Result<Json, string>, parsed: map<string, Json>)
    requires ValidEvidence(evidence)
    requires PromptFor(controls, r, controlId, evidence.s).Ok?
    requires generate(PromptFor(controls, r, controlId, evidence.s).value).Ok?
    requires loads(CleanResponse(generate(PromptFor(controls, r, controlId, evidence.s).value).value)) == Ok(JObj(parsed))
    requires "base_score" !in parsed || "justification" !in parsed
    ensures AnalyzeControlEvidence(controls, r, evidence, controlId, generate, loads)
      == Ok(ErrorResult("AI response JSON is missing required keys."))
  {
  }

  /** A parsed object with both keys is returned as it is. */
  lemma WellFormedAnswerReturned(
    controls: map<string, Json>, r: Render, evidence: Json, controlId: Json,
    generate: string -> Result<string, string>, loads: string -> Result<Json, string>, parsed: map<string, Json>)
    requires ValidEvidence(evidence)
    requires PromptFor(controls, r, controlId, evidence.s).Ok?
    requires generate(PromptFor(controls, r, controlId, evidence.s).value).Ok?
    requires loads(CleanResponse(generate(PromptFor(controls, r, controlId, evidence.s).value).value)) == Ok(JObj(parsed))
    requires "base_score" in parsed && "justification" in parsed
    ensures AnalyzeControlEvidence(controls, r, evidence, controlId, generate, loads) == Ok(JObj(parsed))
  {
  }

  // -----------------------------------------------------------------------
  // No code fence survives the cleanup

  /** The number of leading backticks. */
  function LeadingTicks(s: string): (n: nat)
    ensures n <= |s|
    ensures forall i :: 0 <= i < n ==> s[i] == '`'
    ensures n < |s| ==> s[n] != '`'
  {
    if s != [] && s[0] == '`' then 1 + LeadingTicks(s[1..]) else 0
  }

  /** A text opening with a fence opens with three backticks more than what follows it. */
  lemma FenceTicks(s: string)
    requires IsPrefix("```", s)
    ensures LeadingTicks(s) == 3 + LeadingTicks(s[3..])
  {
    assert s[..3] == "```";
    assert s[1..][1..][1..] == s[3..];
  }

  /** Fewer than three leading backticks: no fence at the start. */
  lemma NoFenceAtStart(r: string)
    requires LeadingTicks(r) < 3
    ensures !OccursAt(r, "```", 0)
  {
    var n := LeadingTicks(r);
    if 3 <= |r| {
      assert r[0..3][n] == r[n] != '`';
    }
  }

  /** The leading backticks of one character followed by a text. */
  lemma ConsTicks(c: char, rest: string)
    ensures LeadingTicks([c] + rest) == if c == '`' then 1 + LeadingTicks(rest) else 0
  {
    assert ([c] + rest)[1..] == rest;
  }

  /** A text opens with a fence exactly when it has three leading backticks or more. */
  lemma TicksFence(s: string)
    ensures LeadingTicks(s) >= 3 <==> IsPrefix("```", s)
  {
    if LeadingTicks(s) >= 3 {
      assert s[..3] == "```";
    }
    if IsPrefix("```", s) {
      FenceTicks(s);
    }
  }

  /** One step of RemoveFencesTicks: a fence removed at the start. */
  lemma FenceStepTicks(s: string)
    requires IsPrefix("```", s)
    requires LeadingTicks(RemoveAll(s[3..], "```")) == LeadingTicks(s[3..]) % 3
    ensures LeadingTicks(RemoveAll(s, "```")) == LeadingTicks(s) % 3
  {
    var n := LeadingTicks(s[3..]);
    FenceTicks(s);
    assert (3 + n) % 3 == n % 3;
  }

  /** One step of RemoveFencesTicks: a single backtick kept at the start. */
  lemma TickStepTicks(s: string)
    requires !IsPrefix("```", s) && s != [] && s[0] == '`'
    requires LeadingTicks(RemoveAll(s[1..], "```")) == LeadingTicks(s[1..]) % 3
    ensures LeadingTicks(RemoveAll(s, "```")) == LeadingTicks(s) % 3
  {
    var rest := RemoveAll(s[1..], "```");
    assert RemoveAll(s, "```") == [s[0]] + rest;
    ConsTicks(s[0], rest);
    TicksFence(s);
    assert s == [s[0]] + s[1..];
    ConsTicks(s[0], s[1..]);
    var m := LeadingTicks(s[1..]);
    assert LeadingTicks(s) == 1 + m < 3;
    assert m % 3 == m && (1 + m) % 3 == 1 + m;
  }

  /** Removing "```" leaves the leading backticks modulo three. */
  lemma {:induction false} RemoveFencesTicks(s: string)
    ensures LeadingTicks(RemoveAll(s, "```")) == LeadingTicks(s) % 3
  {
    if IsPrefix("```", s) {
      RemoveFencesTicks(s[3..]);
      FenceStepTicks(s);
    } else if s != [] && s[0] == '`' {
      RemoveFencesTicks(s[1..]);
      TickStepTicks(s);
    } else if s != [] {
      var rest := RemoveAll(s[1..], "```");
      assert RemoveAll(s, "```") == [s[0]] + rest;
      ConsTicks(s[0], rest);
    }
  }

  /** Removing "```" leaves no "```" anywhere. */
  lemma {:induction false} RemoveFencesLeavesNone(s: string)
    ensures forall i :: !OccursAt(RemoveAll(s, "```"), "```", i)
  {
    var fence := "```";
    var r := RemoveAll(s, fence);
    if IsPrefix(fence, s) {
      RemoveFencesLeavesNone(s[3..]);
    } else if s != [] {
      var rest := RemoveAll(s[1..], fence);
      RemoveFencesLeavesNone(s[1..]);
      RemoveFencesTicks(s);
      assert r == [s[0]] + rest;
      forall i ensures !OccursAt(r, fence, i) {
        if i == 0 {
          NoFenceAtStart(r);
        } else if 0 < i <= |r| - 3 {
          assert r[i..i + 3] == rest[i - 1..i - 1 + 3];
          assert !OccursAt(rest, fence, i - 1);
        }
      }
    }
  }

  /** The cleaned response contains no "```" (and so no "```json") at all. */
  lemma NoFenceAfterCleanup(raw: string)
    ensures !Contains(CleanResponse(raw), "```")
  {
    var removed := RemoveAll(RemoveAll(Strip(raw), "```json"), "```");
    RemoveFencesLeavesNone(RemoveAll(Strip(raw), "```json"));
    ContainsAt(removed, "```");
    StripKeepsAbsent(removed, "```");
  }
}
