/**
 * Remediation plans applied to an assessment table, as the predictive
 * modelling endpoint and the predictive simulation script do it.
 *
 * An assessment table maps family ids to lists of control dictionaries.
 * The endpoint overwrites, for each remediation of a family present in the
 * table, the base_score of the first control whose 'control' equals the
 * remediation's target, and stops at that control.  The script overwrites
 * the base_score of every control, in any family, whose 'control_id' is a
 * key of its plan, working on a deep copy of the table.
 *
 * The table is an object whose rows are updated in place.  Where Python
 * raises (a subscript of a missing key or of a value that is not a dict,
 * `.get` on a value that is not a dict, an unhashable key, arithmetic on a
 * value that is not a number), the result here is None or a false flag: the
 * endpoint answers every such failure with the same 500 reply and the
 * script stops, so the message is not part of the model.
 */
module Remediation {
  import opened Common
  import opened PyBuiltins
  import opened Json
  import opened ScoreCard
  import AiAnalyzer

  /** One item of the assessment dictionary: a family id and the value stored under it. */
  datatype Row = Row(familyId: string, controls: Json)

  /** The keys of a dictionary are distinct. */
  predicate DistinctRows(rows: seq<Row>)
  {
    forall i, j :: 0 <= i < j < |rows| ==> rows[i].familyId != rows[j].familyId
  }

  /** The position of a family in the table, -1 when absent (`family in table`). */
  function RowIndex(rows: seq<Row>, id: string): (r: int)
    ensures -1 <= r < |rows|
    ensures r >= 0 ==> rows[r].familyId == id
    ensures r == -1 <==> forall k :: 0 <= k < |rows| ==> rows[k].familyId != id
  {
    if rows == [] then -1
    else if rows[|rows| - 1].familyId == id then |rows| - 1
    else RowIndex(rows[..|rows| - 1], id)
  }

  /**
   * The items a `for` loop visits, for loops that subscript each item or
   * call `.get` on it: a list gives its items and an empty string or dict
   * none.  Iterating a non-empty string or dict yields strings, on which both
   * operations raise, and other values are not iterable: None.
   */
  function Items(j: Json): (r: Option<seq<Json>>)
    ensures r.Some? && r.value != [] ==> j == JArr(r.value)
  {
    match j
    case JArr(items) => Some(items)
    case JStr(s) => if s == "" then Some([]) else None
    case JObj(m) => if m == map[] then Some([]) else None
    case _ => None
  }

  /** Python's == on decoded JSON: numbers (and booleans) compare by value. */
  predicate PyEq(a: Json, b: Json)
  {
    if AsNumber(a).Some? && AsNumber(b).Some? then AsNumber(a) == AsNumber(b) else a == b
  }

  /** `control['base_score'] = score` on a control dictionary. */
  function WithBaseScore(control: map<string, Json>, score: Json): (c: Json)
    ensures c.JObj? && c.fields.Keys == control.Keys + {"base_score"}
    ensures forall key :: key in control && key != "base_score" ==> c.fields[key] == control[key]
  {
    JObj(control["base_score" := score])
  }

  // -----------------------------------------------------------------------
  // The endpoint's update: first match within a family

  /** What the search for a remediation's target finds. */
  datatype Search = Found(index: nat) | NotFound | Raised

  /** `control['control'] == target`, or None when the subscript raises. */
  function MatchesTarget(control: Json, target: Json): Option<bool>
  {
    if control.JObj? && "control" in control.fields then Some(PyEq(control.fields["control"], target)) else None
  }

  /**
   * The innermost loop: the first control whose 'control' equals the
   * target; the loop stops there, so only the controls before it must be
   * subscriptable.
   */
  function FirstMatch(controls: seq<Json>, target: Json): (r: Search)
    ensures r.Found? ==> r.index < |controls| && MatchesTarget(controls[r.index], target) == Some(true)
    ensures r.Found? ==> forall k :: 0 <= k < r.index ==> MatchesTarget(controls[k], target) == Some(false)
    ensures r.NotFound? <==> forall k :: 0 <= k < |controls| ==> MatchesTarget(controls[k], target) == Some(false)
  {
    if controls == [] then NotFound
    else
      match MatchesTarget(controls[0], target)
      case None => Raised
      case Some(hit) =>
        if hit then Found(0)
        else
          match FirstMatch(controls[1..], target)
          case Found(i) => Found(i + 1)
          case NotFound => NotFound
          case Raised => Raised
  }

  /** The innermost loop as written, with its `break`. */
  method FindFirstMatch(controls: seq<Json>, target: Json) returns (r: Search)
    ensures r == FirstMatch(controls, target)
  {
    var c := 0;
    while c < |controls|
      invariant 0 <= c <= |controls|
      invariant forall k :: 0 <= k < c ==> MatchesTarget(controls[k], target) == Some(false)
    {
      var hit := MatchesTarget(controls[c], target);
      if hit.None? {
        FirstMatchAt(controls, target, c);
        return Raised;
      }
      if hit.value {
        FirstMatchAt(controls, target, c);
        return Found(c);
      }
      c := c + 1;
    }
    return NotFound;
  }

  /** The search stops at the first control that does not compare unequal. */
  lemma {:induction false} FirstMatchAt(controls: seq<Json>, target: Json, c: nat)
    requires c < |controls|
    requires forall k :: 0 <= k < c ==> MatchesTarget(controls[k], target) == Some(false)
    requires MatchesTarget(controls[c], target) != Some(false)
    ensures FirstMatch(controls, target) == if MatchesTarget(controls[c], target).None? then Raised else Found(c)
  {
    if c > 0 {
      FirstMatchAt(controls[1..], target, c - 1);
    }
  }

  /**
   * One remediation applied to a family's value: the base_score of the
   * first control matching remediation.get('control') becomes
   * remediation.get('new_score'); nothing changes without a match.
   */
  function ApplyRemediation(controls: Json, remediation: Json): Option<Json>
  {
    if !remediation.JObj? then None
    else
      var target := Get(remediation.fields, "control", JNull);
      var newScore := Get(remediation.fields, "new_score", JNull);
      match Items(controls)
      case None => None
      case Some(items) =>
        match FirstMatch(items, target)
        case Raised => None
        case NotFound => Some(controls)
        case Found(i) => Some(JArr(items[i := WithBaseScore(items[i].fields, newScore)]))
  }

  /** The remediations of one family, in list order. */
  function ApplyRemediations(controls: Json, remediations: seq<Json>): Option<Json>
  {
    if remediations == [] then Some(controls)
    else
      match ApplyRemediations(controls, remediations[..|remediations| - 1])
      case None => None
      case Some(c) => ApplyRemediation(c, remediations[|remediations| - 1])
  }

  /** One (family, remediations) item of the plan: ignored when the family is not in the table. */
  function ApplyPlanEntry(rows: seq<Row>, entry: (string, Json)): Option<seq<Row>>
  {
    var idx := RowIndex(rows, entry.0);
    if idx < 0 then Some(rows)
    else
      match Items(entry.1)
      case None => None
      case Some(remediations) =>
        match ApplyRemediations(rows[idx].controls, remediations)
        case None => None
        case Some(c) => Some(rows[idx := Row(rows[idx].familyId, c)])
  }

  /** The whole plan, item by item. */
  function ApplyPlan(rows: seq<Row>, plan: seq<(string, Json)>): Option<seq<Row>>
  {
    if plan == [] then Some(rows)
    else
      match ApplyPlan(rows, plan[..|plan| - 1])
      case None => None
      case Some(r) => ApplyPlanEntry(r, plan[|plan| - 1])
  }

  /** Once a prefix of the remediations raises, the whole list does. */
  lemma {:induction false} RemediationsFailFromPrefix(controls: Json, remediations: seq<Json>, k: nat)
    requires k <= |remediations| && ApplyRemediations(controls, remediations[..k]).None?
    ensures ApplyRemediations(controls, remediations).None?
  {
    if k < |remediations| {
      var init := remediations[..|remediations| - 1];
      assert init[..k] == remediations[..k];
      RemediationsFailFromPrefix(controls, init, k);
    } else {
      assert remediations[..k] == remediations;
    }
  }

  /** Once a prefix of the plan raises, the whole plan does. */
  lemma {:induction false} PlanFailsFromPrefix(rows: seq<Row>, plan: seq<(string, Json)>, k: nat)
    requires k <= |plan| && ApplyPlan(rows, plan[..k]).None?
    ensures ApplyPlan(rows, plan).None?
  {
    if k < |plan| {
      var init := plan[..|plan| - 1];
      assert init[..k] == plan[..k];
      PlanFailsFromPrefix(rows, init, k);
    } else {
      assert plan[..k] == plan;
    }
  }

  /**
   * A remediation changes at most one control of its family: the first
   * match, in its base_score only; the other controls and the other fields
   * of that control keep their values.
   */
  lemma OnlyFirstMatchChanges(controls: seq<Json>, remediation: map<string, Json>)
    requires ApplyRemediation(JArr(controls), JObj(remediation)).Some?
    ensures ApplyRemediation(JArr(controls), JObj(remediation)).value.JArr?
    ensures |ApplyRemediation(JArr(controls), JObj(remediation)).value.items| == |controls|
    ensures FirstMatch(controls, Get(remediation, "control", JNull)).NotFound? ==>
      ApplyRemediation(JArr(controls), JObj(remediation)).value == JArr(controls)
    ensures FirstMatch(controls, Get(remediation, "control", JNull)).Found? ==>
      var i := FirstMatch(controls, Get(remediation, "control", JNull)).index;
      && (forall k :: 0 <= k < |controls| && k != i ==> ApplyRemediation(JArr(controls), JObj(remediation)).value.items[k] == controls[k])
      && ApplyRemediation(JArr(controls), JObj(remediation)).value.items[i].fields["base_score"] == Get(remediation, "new_score", JNull)
      && (forall key :: key in controls[i].fields && key != "base_score" ==>
            key in ApplyRemediation(JArr(controls), JObj(remediation)).value.items[i].fields &&
            ApplyRemediation(JArr(controls), JObj(remediation)).value.items[i].fields[key] == controls[i].fields[key])
  {
  }

  /** A plan item for a family that is not in the table changes nothing. */
  lemma AbsentFamilyIgnored(rows: seq<Row>, plan: seq<(string, Json)>, entry: (string, Json))
    requires forall k :: 0 <= k < |rows| ==> rows[k].familyId != entry.0
    requires ApplyPlan(rows, plan).Some?
    ensures ApplyPlan(rows, plan + [entry]) == ApplyPlan(rows, plan)
  {
    assert (plan + [entry])[..|plan|] == plan;
    ApplyPlanKeepsIds(rows, plan);
  }

  /** The plan never adds, drops or reorders families. */
  lemma {:induction false} ApplyPlanKeepsIds(rows: seq<Row>, plan: seq<(string, Json)>)
    requires ApplyPlan(rows, plan).Some?
    ensures |ApplyPlan(rows, plan).value| == |rows|
    ensures forall k :: 0 <= k < |rows| ==> ApplyPlan(rows, plan).value[k].familyId == rows[k].familyId
  {
    if plan != [] {
      ApplyPlanKeepsIds(rows, plan[..|plan| - 1]);
    }
  }

  /** A remediation whose target matches no control leaves the family as it was. */
  lemma UnmatchedTargetNoEffect(controls: Json, remediation: map<string, Json>)
    requires Items(controls).Some?
    requires forall k :: 0 <= k < |Items(controls).value| ==>
      MatchesTarget(Items(controls).value[k], Get(remediation, "control", JNull)) == Some(false)
    ensures ApplyRemediation(controls, JObj(remediation)) == Some(controls)
  {
  }

  // -----------------------------------------------------------------------
  // The script's update: every match, in every family

  /**
   * One control of the script's loop: when control['control_id'] is a key
   * of the plan, its base_score becomes the entry's 'new_base_score'.
   */
  function SimulatedControl(control: Json, plan: map<string, Json>): Option<Json>
  {
    if !(control.JObj? && "control_id" in control.fields) then None
    else
      var id := control.fields["control_id"];
      if id.JArr? || id.JObj? then None
      else if id.JStr? && id.s in plan then
        var entry := plan[id.s];
        if entry.JObj? && "new_base_score" in entry.fields then Some(WithBaseScore(control.fields, entry.fields["new_base_score"]))
        else None
      else Some(control)
  }

  /** The script's inner loop over one family's controls. */
  function SimulatedControls(controls: seq<Json>, plan: map<string, Json>): (r: Option<seq<Json>>)
    ensures r.Some? ==> |r.value| == |controls|
    ensures r.Some? <==> forall k :: 0 <= k < |controls| ==> SimulatedControl(controls[k], plan).Some?
    ensures r.Some? ==> forall k :: 0 <= k < |controls| ==> r.value[k] == SimulatedControl(controls[k], plan).value
  {
    if controls == [] then Some([])
    else
      match SimulatedControls(controls[..|controls| - 1], plan)
      case None => None
      case Some(init) =>
        match SimulatedControl(controls[|controls| - 1], plan)
        case None => None
        case Some(c) => Some(init + [c])
  }

  /** A family's value after the script's loop. */
  function SimulatedRow(controls: Json, plan: map<string, Json>): Option<Json>
  {
    match Items(controls)
    case None => None
    case Some(items) =>
      match SimulatedControls(items, plan)
      case None => None
      case Some(updated) => Some(if controls.JArr? then JArr(updated) else controls)
  }

  /** The table after the script's loop. */
  function SimulatedRows(rows: seq<Row>, plan: map<string, Json>): (r: Option<seq<Row>>)
    ensures r.Some? ==> |r.value| == |rows|
  {
    if rows == [] then Some([])
    else
      match SimulatedRows(rows[..|rows| - 1], plan)
      case None => None
      case Some(init) =>
        var last := rows[|rows| - 1];
        match SimulatedRow(last.controls, plan)
        case None => None
        case Some(c) => Some(init + [Row(last.familyId, c)])
  }

  /**
   * The script's loop succeeds exactly when every family's value can be
   * processed, and then every family keeps its id and gets its updated value.
   */
  lemma {:induction false} SimulatedRowsEffect(rows: seq<Row>, plan: map<string, Json>)
    ensures SimulatedRows(rows, plan).Some? <==> forall k :: 0 <= k < |rows| ==> SimulatedRow(rows[k].controls, plan).Some?
    ensures SimulatedRows(rows, plan).Some? ==> forall k :: 0 <= k < |rows| ==>
      SimulatedRows(rows, plan).value[k] == Row(rows[k].familyId, SimulatedRow(rows[k].controls, plan).value)
  {
    if rows != [] {
      var init := rows[..|rows| - 1];
      SimulatedRowsEffect(init, plan);
      assert forall k :: 0 <= k < |init| ==> init[k] == rows[k];
    }
  }

  /**
   * Every control whose control_id is a key of the plan gets that key's
   * new_base_score, in every family; every other control, and every field
   * other than base_score, is unchanged.
   */
  lemma SimulatedControlEffect(control: map<string, Json>, plan: map<string, Json>)
    requires SimulatedControl(JObj(control), plan).Some?
    ensures "control_id" in control
    ensures control["control_id"].JStr? && control["control_id"].s in plan ==>
      SimulatedControl(JObj(control), plan).value.fields["base_score"] == plan[control["control_id"].s].fields["new_base_score"]
    ensures !(control["control_id"].JStr? && control["control_id"].s in plan) ==>
      SimulatedControl(JObj(control), plan).value == JObj(control)
    ensures forall key :: key in control && key != "base_score" ==>
      key in SimulatedControl(JObj(control), plan).value.fields &&
      SimulatedControl(JObj(control), plan).value.fields[key] == control[key]
  {
  }

  // -----------------------------------------------------------------------
  // The table object and its two update loops

  class AssessmentTable {
    var rows: seq<Row>

    /** A table holding the given items (a fresh deep copy of them). */
    constructor(items: seq<Row>)
      ensures rows == items
    {
      rows := items;
    }

    /**
     * The remediation loop of predictive_modeling: for each plan item whose
     * family is in the table, each remediation overwrites the base_score of
     * the first matching control.  False when Python raises; the table is
     * then left part-way.
     */
    method ApplyRemediationPlan(plan: seq<(string, Json)>) returns (ok: bool)
      modifies this
      ensures ok <==> ApplyPlan(old(rows), plan).Some?
      ensures ok ==> rows == ApplyPlan(old(rows), plan).value
    {
      var p := 0;
      while p < |plan|
        invariant 0 <= p <= |plan|
        invariant ApplyPlan(old(rows), plan[..p]) == Some(rows)
      {
        assert plan[..p + 1][..p] == plan[..p];
        var family := plan[p].0;
        var idx := RowIndex(rows, family);
        if idx >= 0 {
          var remediations := Items(plan[p].1);
          if remediations.None? {
            PlanFailsFromPrefix(old(rows), plan, p + 1);
            return false;
          }
          var updated := RemediateFamily(rows[idx].controls, remediations.value);
          if updated.None? {
            PlanFailsFromPrefix(old(rows), plan, p + 1);
            return false;
          }
          rows := rows[idx := Row(rows[idx].familyId, updated.value)];
        }
        p := p + 1;
      }
      assert plan[..|plan|] == plan;
      return true;
    }

    /**
     * The loop of the predictive simulation script: every control whose
     * control_id is a key of the plan takes its new_base_score.  False when
     * Python raises; the table is then left part-way.
     */
    method ApplyToEveryMatch(plan: map<string, Json>) returns (ok: bool)
      modifies this
      ensures ok <==> SimulatedRows(old(rows), plan).Some?
      ensures ok ==> rows == SimulatedRows(old(rows), plan).value
    {
      var table := rows;
      ghost var done: seq<Row> := [];
      var f := 0;
      while f < |table|
        invariant 0 <= f <= |table| == |old(rows)|
        invariant |done| == f
        invariant forall k :: 0 <= k < f ==> table[k] == done[k]
        invariant forall k :: f <= k < |table| ==> table[k] == old(rows)[k]
        invariant SimulatedRows(old(rows)[..f], plan) == Some(done)
      {
        var row := table[f];
        assert row == old(rows)[f];
        var newValue := SimulateRow(row.controls, plan);
        if newValue.None? {
          SimulationFailsAt(old(rows), plan, f);
          return false;
        }
        SimulatedRowsStep(old(rows), plan, f, done);
        table := table[f := Row(row.familyId, newValue.value)];
        done := done + [Row(row.familyId, newValue.value)];
        f := f + 1;
      }
      assert old(rows)[..|table|] == old(rows);
      assert table == done;
      rows := table;
      return true;
    }
  }

  /** The script's inner loop on one family's value. */
  method SimulateRow(controls: Json, plan: map<string, Json>) returns (updated: Option<Json>)
    ensures updated == SimulatedRow(controls, plan)
  {
    var items := Items(controls);
    if items.None? {
      return None;
    }
    var done := SimulateFamily(items.value, plan);
    if done.None? {
      return None;
    }
    return Some(if controls.JArr? then JArr(done.value) else controls);
  }

  /** The script's inner loop over one family's controls. */
  method SimulateFamily(controls: seq<Json>, plan: map<string, Json>) returns (updated: Option<seq<Json>>)
    ensures updated == SimulatedControls(controls, plan)
  {
    var done: seq<Json> := [];
    var c := 0;
    while c < |controls|
      invariant 0 <= c <= |controls|
      invariant SimulatedControls(controls[..c], plan) == Some(done)
    {
      assert controls[..c + 1][..c] == controls[..c];
      var control := SimulatedControl(controls[c], plan);
      if control.None? {
        return None;
      }
      done := done + [control.value];
      c := c + 1;
    }
    assert controls[..|controls|] == controls;
    return Some(done);
  }

  /** The inner remediation loop of predictive_modeling for one family. */
  method RemediateFamily(controls: Json, remediations: seq<Json>) returns (updated: Option<Json>)
    ensures updated == ApplyRemediations(controls, remediations)
  {
    var current := controls;
    var r := 0;
    while r < |remediations|
      invariant 0 <= r <= |remediations|
      invariant ApplyRemediations(controls, remediations[..r]) == Some(current)
    {
      assert remediations[..r + 1][..r] == remediations[..r];
      var remediation := remediations[r];
      if !remediation.JObj? {
        RemediationsFailFromPrefix(controls, remediations, r + 1);
        return None;
      }
      var target := Get(remediation.fields, "control", JNull);
      var newScore := Get(remediation.fields, "new_score", JNull);
      var items := Items(current);
      if items.None? {
        RemediationsFailFromPrefix(controls, remediations, r + 1);
        return None;
      }
      var search := FindFirstMatch(items.value, target);
      if search.Raised? {
        RemediationsFailFromPrefix(controls, remediations, r + 1);
        return None;
      }
      if search.Found? {
        var i := search.index;
        current := JArr(items.value[i := WithBaseScore(items.value[i].fields, newScore)]);
      }
      r := r + 1;
    }
    assert remediations[..|remediations|] == remediations;
    return Some(current);
  }

  /** The script's loop extended by one family. */
  lemma SimulatedRowsStep(rows: seq<Row>, plan: map<string, Json>, f: nat, done: seq<Row>)
    requires f < |rows| && SimulatedRows(rows[..f], plan) == Some(done)
    requires SimulatedRow(rows[f].controls, plan).Some?
    ensures SimulatedRows(rows[..f + 1], plan) == Some(done + [Row(rows[f].familyId, SimulatedRow(rows[f].controls, plan).value)])
  {
    assert rows[..f + 1][..f] == rows[..f];
  }

  /** The script's loop raises at a family whose value the loop cannot process. */
  lemma SimulationFailsAt(rows: seq<Row>, plan: map<string, Json>, f: nat)
    requires f < |rows| && SimulatedRow(rows[f].controls, plan).None?
    ensures SimulatedRows(rows, plan).None?
  {
    SimulatedRowsEffect(rows, plan);
  }

  /**
   * The script's prediction: a deep copy of the baseline with the plan
   * applied to every match; the baseline table is not touched.
   */
  method PredictScores(baseline: AssessmentTable, plan: map<string, Json>) returns (predicted: AssessmentTable, ok: bool)
    ensures fresh(predicted)
    ensures baseline.rows == old(baseline.rows)
    ensures ok <==> SimulatedRows(baseline.rows, plan).Some?
    ensures ok ==> predicted.rows == SimulatedRows(baseline.rows, plan).value
  {
    predicted := new AssessmentTable(baseline.rows);
    ok := predicted.ApplyToEveryMatch(plan);
  }

  // -----------------------------------------------------------------------
  // Reports of a table

  /**
   * (c['base_score'], c['enhancement']) of one control, checked the way
   * calculate_control_score uses them: None when a key is missing, the
   * control is not a dict, the enhancement cannot be hashed or the base
   * score is not a number.  An enhancement that is not a string is never a
   * key of the multiplier table, like "".
   */
  function ControlInputOf(c: Json): (r: Option<ControlInput>)
    ensures r.Some? ==> c.JObj? && "base_score" in c.fields && "enhancement" in c.fields
    ensures r.Some? ==> AsNumber(c.fields["base_score"]) == Some(r.value.baseScore)
  {
    if !(c.JObj? && "base_score" in c.fields && "enhancement" in c.fields) then None
    else
      var base := AsNumber(c.fields["base_score"]);
      var level := c.fields["enhancement"];
      if base.None? || level.JArr? || level.JObj? then None
      else Some(ControlInput(base.value, if level.JStr? then level.s else ""))
  }

  /** The controls of one family as scoring inputs. */
  function ControlInputs(items: seq<Json>): (r: Option<seq<ControlInput>>)
    ensures r.Some? ==> |r.value| == |items|
    ensures r.Some? ==> forall k :: 0 <= k < |items| ==> ControlInputOf(items[k]) == Some(r.value[k])
  {
    if items == [] then Some([])
    else
      match ControlInputs(items[..|items| - 1])
      case None => None
      case Some(init) =>
        match ControlInputOf(items[|items| - 1])
        case None => None
        case Some(c) => Some(init + [c])
  }

  /** The scoring input of one family's value. */
  function FamilyInputs(controls: Json): Option<seq<ControlInput>>
  {
    match Items(controls)
    case None => None
    case Some(items) => ControlInputs(items)
  }

  /** The scoring input of the table: the known families only, in table order. */
  function AssessmentData(families: FamilyTable, rows: seq<Row>): (r: Option<seq<FamilyControls>>)
    ensures r.Some? ==> forall k :: 0 <= k < |r.value| ==> r.value[k].familyId in families
  {
    if rows == [] then Some([])
    else
      match AssessmentData(families, rows[..|rows| - 1])
      case None => None
      case Some(init) =>
        var last := rows[|rows| - 1];
        if last.familyId !in families then Some(init)
        else
          match FamilyInputs(last.controls)
          case None => None
          case Some(cs) => Some(init + [FamilyControls(last.familyId, cs)])
  }

  /** generate_assessment_report of the ai_analyzer module on a table, None when it raises. */
  function TableReport(rows: seq<Row>): Option<Report>
  {
    match AssessmentData(ControlFamilies, rows)
    case None => None
    case Some(data) => Some(AssessmentReport(ControlFamilies, RecommendationWording, data, AiAnalyzer.DetermineMaturityLevel))
  }

  /** Families outside the scoring table never make the report fail. */
  lemma UnknownFamiliesIgnored(families: FamilyTable, rows: seq<Row>, row: Row)
    requires row.familyId !in families
    ensures AssessmentData(families, rows + [row]) == AssessmentData(families, rows)
  {
    assert (rows + [row])[..|rows|] == rows;
  }

  /**
   * When every family of the table is known and its controls can be scored,
   * the scoring input lists every family, in table order, with its controls.
   */
  lemma {:induction false} AssessmentDataAllKnown(families: FamilyTable, rows: seq<Row>)
    requires forall k :: 0 <= k < |rows| ==> rows[k].familyId in families && FamilyInputs(rows[k].controls).Some?
    ensures AssessmentData(families, rows).Some?
    ensures |AssessmentData(families, rows).value| == |rows|
    ensures forall k :: 0 <= k < |rows| ==>
      AssessmentData(families, rows).value[k] == FamilyControls(rows[k].familyId, FamilyInputs(rows[k].controls).value)
  {
    if rows != [] {
      var init := rows[..|rows| - 1];
      AssessmentDataAllKnown(families, init);
      assert forall k :: 0 <= k < |init| ==> init[k] == rows[k];
    }
  }
}
