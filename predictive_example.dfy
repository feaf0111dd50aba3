/**
 * The predictive simulation script's own data: four families with one
 * control each, a plan that raises three base scores, and the two reports.
 */
module PredictiveExample {
  import opened Common
  import opened PyBuiltins
  import opened Json
  import opened ScoreCard
  import opened Remediation
  import AiAnalyzer
  import Assessment

  /** A control dictionary as the script writes it. */
  function ControlRecord(id: string, base: int, level: string): (c: Json)
    ensures c.JObj? && c.fields.Keys == {"control_id", "base_score", "enhancement"}
  {
    JObj(map["control_id" := JStr(id), "base_score" := JInt(base), "enhancement" := JStr(level)])
  }

  /** A table of the script's shape: four families of one control each. */
  function Table(a: int, i: int, s: int, u: int): seq<Row>
  {
    [Row("AC", JArr([ControlRecord("AC-6", a, "moderate")])),
     Row("IA", JArr([ControlRecord("IA-2", i, "significant")])),
     Row("SI", JArr([ControlRecord("SI-7", s, "none")])),
     Row("AU", JArr([ControlRecord("AU-2", u, "none")]))]
  }

  /** baseline_data. */
  const Baseline: seq<Row> := Table(20, 90, 15, 30)

  /** remediation_plan. */
  const Plan: map<string, Json> := map[
    "AC-6" := JObj(map["new_base_score" := JInt(85)]),
    "SI-7" := JObj(map["new_base_score" := JInt(70)]),
    "AU-2" := JObj(map["new_base_score" := JInt(75)])]

  /** predicted_data as the script's loop leaves it. */
  const Predicted: seq<Row> := Table(85, 90, 70, 75)

  // -----------------------------------------------------------------------
  // The simulation loop on the script's data

  /** A control whose id has a plan entry takes the entry's new_base_score. */
  lemma PlannedRecord(id: string, base: int, level: string, plan: map<string, Json>, n: int)
    requires id in plan && plan[id] == JObj(map["new_base_score" := JInt(n)])
    ensures SimulatedControl(ControlRecord(id, base, level), plan) == Some(ControlRecord(id, n, level))
  {
    assert ControlRecord(id, base, level).fields["base_score" := JInt(n)] == ControlRecord(id, n, level).fields;
  }

  /** A control whose id has no plan entry is left as it is. */
  lemma UnplannedRecord(id: string, base: int, level: string, plan: map<string, Json>)
    requires id !in plan
    ensures SimulatedControl(ControlRecord(id, base, level), plan) == Some(ControlRecord(id, base, level))
  {
  }

  /** The script's loop on a family holding one control. */
  lemma OneControlSimulated(c: Json, plan: map<string, Json>)
    requires SimulatedControl(c, plan).Some?
    ensures SimulatedRow(JArr([c]), plan) == Some(JArr([SimulatedControl(c, plan).value]))
  {
    assert [c][..0] == [];
    assert SimulatedControls([], plan) == Some([]);
    assert [] + [SimulatedControl(c, plan).value] == [SimulatedControl(c, plan).value];
  }

  /** A family of one control whose id has a plan entry. */
  lemma PlannedFamily(id: string, base: int, level: string, plan: map<string, Json>, n: int)
    requires id in plan && plan[id] == JObj(map["new_base_score" := JInt(n)])
    ensures SimulatedRow(JArr([ControlRecord(id, base, level)]), plan) == Some(JArr([ControlRecord(id, n, level)]))
  {
    PlannedRecord(id, base, level, plan, n);
    OneControlSimulated(ControlRecord(id, base, level), plan);
  }

  /** A family of one control whose id has no plan entry. */
  lemma UnplannedFamily(id: string, base: int, level: string, plan: map<string, Json>)
    requires id !in plan
    ensures SimulatedRow(JArr([ControlRecord(id, base, level)]), plan) == Some(JArr([ControlRecord(id, base, level)]))
  {
    UnplannedRecord(id, base, level, plan);
    OneControlSimulated(ControlRecord(id, base, level), plan);
  }

  /** The script's loop on a table of four families. */
  lemma FourFamiliesSimulated(r0: Row, r1: Row, r2: Row, r3: Row, o0: Json, o1: Json, o2: Json, o3: Json, plan: map<string, Json>)
    requires SimulatedRow(r0.controls, plan) == Some(o0) && SimulatedRow(r1.controls, plan) == Some(o1)
    requires SimulatedRow(r2.controls, plan) == Some(o2) && SimulatedRow(r3.controls, plan) == Some(o3)
    ensures SimulatedRows([r0, r1, r2, r3], plan) ==
      Some([Row(r0.familyId, o0), Row(r1.familyId, o1), Row(r2.familyId, o2), Row(r3.familyId, o3)])
  {
    var rows := [r0, r1, r2, r3];
    SimulatedRowsEffect(rows, plan);
    var r := SimulatedRows(rows, plan).value;
    assert r == [r[0], r[1], r[2], r[3]];
  }

  /** The entries of the script's plan. */
  predicate ExamplePlan(plan: map<string, Json>)
  {
    && "AC-6" in plan && plan["AC-6"] == JObj(map["new_base_score" := JInt(85)])
    && "SI-7" in plan && plan["SI-7"] == JObj(map["new_base_score" := JInt(70)])
    && "AU-2" in plan && plan["AU-2"] == JObj(map["new_base_score" := JInt(75)])
    && "IA-2" !in plan
  }

  lemma PlanEntries()
    ensures ExamplePlan(Plan)
  {
  }

  /** Any plan with the script's entries raises AC-6, SI-7 and AU-2 and leaves IA-2 alone. */
  lemma TableSimulated(plan: map<string, Json>)
    requires ExamplePlan(plan)
    ensures SimulatedRows(Table(20, 90, 15, 30), plan) == Some(Table(85, 90, 70, 75))
  {
    PlannedFamily("AC-6", 20, "moderate", plan, 85);
    UnplannedFamily("IA-2", 90, "significant", plan);
    PlannedFamily("SI-7", 15, "none", plan, 70);
    PlannedFamily("AU-2", 30, "none", plan, 75);
    var t := Table(20, 90, 15, 30);
    FourFamiliesSimulated(t[0], t[1], t[2], t[3],
      JArr([ControlRecord("AC-6", 85, "moderate")]), JArr([ControlRecord("IA-2", 90, "significant")]),
      JArr([ControlRecord("SI-7", 70, "none")]), JArr([ControlRecord("AU-2", 75, "none")]), plan);
    assert t == [t[0], t[1], t[2], t[3]];
  }

  /** The loop raises the three planned controls and leaves IA-2 alone. */
  lemma PlanApplied()
    ensures SimulatedRows(Baseline, Plan) == Some(Predicted)
  {
    PlanEntries();
    TableSimulated(Plan);
  }

  // -----------------------------------------------------------------------
  // The two reports

  /** The scoring input of a table of the script's shape. */
  function Inputs(a: real, i: real, s: real, u: real): seq<FamilyControls>
  {
    [FamilyControls("AC", [ControlInput(a, "moderate")]),
     FamilyControls("IA", [ControlInput(i, "significant")]),
     FamilyControls("SI", [ControlInput(s, "none")]),
     FamilyControls("AU", [ControlInput(u, "none")])]
  }

  /** The four families of the script are in the scoring table, with these weights. */
  predicate HasExampleFamilies(families: FamilyTable)
  {
    && "AC" in families && families["AC"].weight == 0.08
    && "IA" in families && families["IA"].weight == 0.08
    && "SI" in families && families["SI"].weight == 0.07
    && "AU" in families && families["AU"].weight == 0.07
  }

  lemma ExampleFamiliesKnown()
    ensures HasExampleFamilies(ControlFamilies)
  {
  }

  /** A control dictionary of the script reaches the scorer as its numbers. */
  lemma RecordInput(id: string, base: int, level: string)
    ensures FamilyInputs(JArr([ControlRecord(id, base, level)])) == Some([ControlInput(base as real, level)])
  {
    var c := ControlRecord(id, base, level);
    assert [c][..0] == [];
    assert ControlInputOf(c) == Some(ControlInput(base as real, level));
    assert ControlInputs([]) == Some([]);
    assert [] + [ControlInput(base as real, level)] == [ControlInput(base as real, level)];
  }

  /** The scoring input of a table of four known families. */
  lemma FourFamiliesInputs(families: FamilyTable, r0: Row, r1: Row, r2: Row, r3: Row,
                           c0: seq<ControlInput>, c1: seq<ControlInput>, c2: seq<ControlInput>, c3: seq<ControlInput>)
    requires r0.familyId in families && r1.familyId in families && r2.familyId in families && r3.familyId in families
    requires FamilyInputs(r0.controls) == Some(c0) && FamilyInputs(r1.controls) == Some(c1)
    requires FamilyInputs(r2.controls) == Some(c2) && FamilyInputs(r3.controls) == Some(c3)
    ensures AssessmentData(families, [r0, r1, r2, r3]) ==
      Some([FamilyControls(r0.familyId, c0), FamilyControls(r1.familyId, c1), FamilyControls(r2.familyId, c2), FamilyControls(r3.familyId, c3)])
  {
    var rows := [r0, r1, r2, r3];
    AssessmentDataAllKnown(families, rows);
    var d := AssessmentData(families, rows).value;
    assert d == [d[0], d[1], d[2], d[3]];
  }

  /** A table of the script's shape reaches the scorer as its numbers. */
  lemma TableInputs(families: FamilyTable, a: int, i: int, s: int, u: int)
    requires HasExampleFamilies(families)
    ensures AssessmentData(families, Table(a, i, s, u)) == Some(Inputs(a as real, i as real, s as real, u as real))
  {
    RecordInput("AC-6", a, "moderate");
    RecordInput("IA-2", i, "significant");
    RecordInput("SI-7", s, "none");
    RecordInput("AU-2", u, "none");
    var t := Table(a, i, s, u);
    FourFamiliesInputs(families, t[0], t[1], t[2], t[3],
      [ControlInput(a as real, "moderate")], [ControlInput(i as real, "significant")],
      [ControlInput(s as real, "none")], [ControlInput(u as real, "none")]);
    assert t == [t[0], t[1], t[2], t[3]];
  }

  /** The score of a family holding one control is that control's score. */
  lemma OneControlFamilyScore(c: ControlInput)
    ensures FamilyScore([c]) == ControlScore(c.baseScore, c.enhancement)
  {
    var x := ControlScore(c.baseScore, c.enhancement);
    assert ControlScores([c]) == [x];
    assert [x][..0] == [];
    assert Sum([x]) == Sum([]) + x;
  }

  /**
   * When every family of the data is known, the family scores list every
   * family, in order, with the mean of its controls.
   */
  lemma {:induction false} FamilyScoresAllKnown(families: FamilyTable, data: seq<FamilyControls>)
    requires forall k :: 0 <= k < |data| ==> data[k].familyId in families
    ensures |FamilyScoresOf(families, data)| == |data|
    ensures forall k :: 0 <= k < |data| ==>
      FamilyScoresOf(families, data)[k] == FamilyScoreEntry(data[k].familyId, FamilyScore(data[k].controls))
  {
    if data != [] {
      var init := data[..|data| - 1];
      FamilyScoresAllKnown(families, init);
      assert forall k :: 0 <= k < |init| ==> init[k] == data[k];
    }
  }

  /** The family scores: the moderate multiplier applies and IA-2's 112.5 is capped. */
  lemma ExampleFamilyScores(families: FamilyTable, a: real, s: real, u: real)
    requires HasExampleFamilies(families)
    requires 0.0 <= a <= 90.0 && s <= 100.0 && u <= 100.0
    ensures FamilyScoresOf(families, Inputs(a, 90.0, s, u)) ==
      [FamilyScoreEntry("AC", a * 1.1), FamilyScoreEntry("IA", 100.0), FamilyScoreEntry("SI", s), FamilyScoreEntry("AU", u)]
  {
    OneControlFamilyScore(ControlInput(a, "moderate"));
    OneControlFamilyScore(ControlInput(90.0, "significant"));
    OneControlFamilyScore(ControlInput(s, "none"));
    OneControlFamilyScore(ControlInput(u, "none"));
    assert ControlScore(a, "moderate") == a * 1.1;
    assert ControlScore(90.0, "significant") == 100.0;
    assert ControlScore(s, "none") == s && ControlScore(u, "none") == u;
    FamilyScoresAllKnown(families, Inputs(a, 90.0, s, u));
    var fs := FamilyScoresOf(families, Inputs(a, 90.0, s, u));
    assert fs == [fs[0], fs[1], fs[2], fs[3]];
  }

  /** The sum of four numbers. */
  lemma SumOfFour(a: real, b: real, c: real, d: real)
    ensures Sum([a, b, c, d]) == a + b + c + d
  {
    assert [a][..0] == [];
    assert Sum([a]) == a;
    assert [a, b][..1] == [a];
    assert Sum([a, b]) == a + b;
    assert [a, b, c][..2] == [a, b];
    assert Sum([a, b, c]) == a + b + c;
    assert [a, b, c, d][..3] == [a, b, c];
  }

  /** The overall score of the four entries: the weighted mean over a total weight of 0.30. */
  lemma ExampleOverall(families: FamilyTable, ac: real, s: real, u: real)
    requires HasExampleFamilies(families)
    ensures OverallScore(families, [FamilyScoreEntry("AC", ac), FamilyScoreEntry("IA", 100.0), FamilyScoreEntry("SI", s), FamilyScoreEntry("AU", u)])
      == (ac * 0.08 + 8.0 + s * 0.07 + u * 0.07) / 0.30
  {
    var fs := [FamilyScoreEntry("AC", ac), FamilyScoreEntry("IA", 100.0), FamilyScoreEntry("SI", s), FamilyScoreEntry("AU", u)];
    assert Weights(families, fs) == [0.08, 0.08, 0.07, 0.07];
    assert WeightedScores(families, fs) == [ac * 0.08, 100.0 * 0.08, s * 0.07, u * 0.07];
    SumOfFour(0.08, 0.08, 0.07, 0.07);
    SumOfFour(ac * 0.08, 100.0 * 0.08, s * 0.07, u * 0.07);
  }

  /** The unrounded overall scores of the two tables: 1291/30 before and 2563/30 after. */
  lemma ExampleScores(families: FamilyTable)
    requires HasExampleFamilies(families)
    ensures AssessmentData(families, Baseline) == Some(Inputs(20.0, 90.0, 15.0, 30.0))
    ensures AssessmentData(families, Predicted) == Some(Inputs(85.0, 90.0, 70.0, 75.0))
    ensures OverallScore(families, FamilyScoresOf(families, Inputs(20.0, 90.0, 15.0, 30.0))) == 1291.0 / 30.0
    ensures OverallScore(families, FamilyScoresOf(families, Inputs(85.0, 90.0, 70.0, 75.0))) == 2563.0 / 30.0
  {
    TableInputs(families, 20, 90, 15, 30);
    TableInputs(families, 85, 90, 70, 75);
    ExampleFamilyScores(families, 20.0, 15.0, 30.0);
    ExampleFamilyScores(families, 85.0, 70.0, 75.0);
    ExampleOverall(families, 22.0, 15.0, 30.0);
    ExampleOverall(families, 93.5, 70.0, 75.0);
  }

  /** The report on the baseline: 43.03, Basic. */
  lemma BeforeReport()
    ensures TableReport(Baseline).Some?
    ensures TableReport(Baseline).value.overallScore == 43.03
    ensures TableReport(Baseline).value.maturityLevel == Basic
  {
    ExampleFamiliesKnown();
    ExampleScores(ControlFamilies);
    ExampleRounding();
  }

  /** The report on the prediction: 85.43, Advanced. */
  lemma AfterReport()
    ensures TableReport(Predicted).Some?
    ensures TableReport(Predicted).value.overallScore == 85.43
    ensures TableReport(Predicted).value.maturityLevel == Advanced
  {
    ExampleFamiliesKnown();
    ExampleScores(ControlFamilies);
    ExampleRounding();
  }

  /**
   * The script's result: 43.03 (Basic) before, 85.43 (Advanced) after, an
   * improvement of 42.40 points.  The range table of the assessment module
   * gives no level for the unrounded after score: it falls between its
   * ranges.
   */
  lemma PredictiveSimulation()
    ensures SimulatedRows(Baseline, Plan) == Some(Predicted)
    ensures TableReport(Baseline).Some? && TableReport(Predicted).Some?
    ensures TableReport(Baseline).value.overallScore == 43.03
    ensures TableReport(Baseline).value.maturityLevel == Basic
    ensures TableReport(Predicted).value.overallScore == 85.43
    ensures TableReport(Predicted).value.maturityLevel == Advanced
    ensures TableReport(Predicted).value.overallScore - TableReport(Baseline).value.overallScore == 42.40
    ensures Assessment.DetermineMaturityLevel(2563.0 / 30.0) == Unknown
  {
    PlanApplied();
    BeforeReport();
    AfterReport();
    AiAnalyzer.MaturityRulesCompared(2563.0 / 30.0);
  }

  /** round(x, 2) of the two unrounded scores. */
  lemma ExampleRounding()
    ensures Round2(1291.0 / 30.0) == 43.03
    ensures Round2(2563.0 / 30.0) == 85.43
  {
    assert (1291.0 / 30.0 * 100.0).Floor == 4303;
    assert (2563.0 / 30.0 * 100.0).Floor == 8543;
  }
}
