/**
 * The AISecurityAssessment of the plain assessment module.  Its scoring is
 * the shared ScoreCard arithmetic; what is its own is determine_maturity_level,
 * which looks the score up in a table of inclusive (min, max) ranges with
 * integer bounds, so scores between two ranges match none of them.
 */
module Assessment {
  import opened ScoreCard

  /** One entry of maturity_levels: level and inclusive bounds. */
  datatype LevelRange = LevelRange(level: Maturity, lo: real, hi: real)

  /** maturity_levels, in insertion order. */
  const MaturityLevels: seq<LevelRange> := [
    LevelRange(Basic, 0.0, 50.0),
    LevelRange(Developing, 51.0, 70.0),
    LevelRange(Mature, 71.0, 85.0),
    LevelRange(Advanced, 86.0, 100.0)]

  predicate InRange(r: LevelRange, s: real)
  {
    r.lo <= s <= r.hi
  }

  /** The level of the first range that holds s, 'Unknown' when none does. */
  function FirstMatchingLevel(levels: seq<LevelRange>, s: real): Maturity
  {
    if levels == [] then Unknown
    else if InRange(levels[0], s) then levels[0].level
    else FirstMatchingLevel(levels[1..], s)
  }

  /** The search finds the first range holding s, or reports that no range does. */
  lemma {:induction false} FirstMatchingLevelIsFirst(levels: seq<LevelRange>, s: real)
    requires forall k :: 0 <= k < |levels| ==> levels[k].level != Unknown
    ensures FirstMatchingLevel(levels, s) == Unknown <==> forall k :: 0 <= k < |levels| ==> !InRange(levels[k], s)
    ensures FirstMatchingLevel(levels, s) != Unknown ==>
      exists k :: 0 <= k < |levels| && InRange(levels[k], s) && levels[k].level == FirstMatchingLevel(levels, s)
        && forall j :: 0 <= j < k ==> !InRange(levels[j], s)
  {
    if levels != [] && !InRange(levels[0], s) {
      var rest := levels[1..];
      assert forall k :: 0 <= k < |rest| ==> rest[k] == levels[k + 1];
      FirstMatchingLevelIsFirst(rest, s);
      if FirstMatchingLevel(rest, s) != Unknown {
        var k :| 0 <= k < |rest| && InRange(rest[k], s) && rest[k].level == FirstMatchingLevel(rest, s)
          && forall j :: 0 <= j < k ==> !InRange(rest[j], s);
        assert InRange(levels[k + 1], s) && forall j :: 0 <= j < k + 1 ==> !InRange(levels[j], s);
      } else {
        assert forall k :: 0 <= k < |levels| ==> !InRange(levels[k], s) by {
          forall k | 0 <= k < |levels| ensures !InRange(levels[k], s) {
            if k > 0 { assert levels[k] == rest[k - 1]; }
          }
        }
      }
    } else if levels != [] {
      assert InRange(levels[0], s);
    }
  }

  /**
   * determine_maturity_level: inclusive ranges [0, 50], [51, 70], [71, 85]
   * and [86, 100]; scores in the gaps between them, below 0 or above 100 are
   * 'Unknown'.
   */
  function DetermineMaturityLevel(s: real): (m: Maturity)
    ensures m == Basic <==> 0.0 <= s <= 50.0
    ensures m == Developing <==> 51.0 <= s <= 70.0
    ensures m == Mature <==> 71.0 <= s <= 85.0
    ensures m == Advanced <==> 86.0 <= s <= 100.0
    ensures m == Unknown <==> s < 0.0 || 50.0 < s < 51.0 || 70.0 < s < 71.0 || 85.0 < s < 86.0 || 100.0 < s
  {
    MaturityLevelsSearch(s);
    FirstMatchingLevel(MaturityLevels, s)
  }

  /** The search over the four ranges, one range at a time. */
  lemma MaturityLevelsSearch(s: real)
    ensures FirstMatchingLevel(MaturityLevels, s) ==
      if 0.0 <= s <= 50.0 then Basic
      else if 51.0 <= s <= 70.0 then Developing
      else if 71.0 <= s <= 85.0 then Mature
      else if 86.0 <= s <= 100.0 then Advanced
      else Unknown
  {
    var l0 := MaturityLevels;
    var l1, l2, l3 := l0[1..], l0[2..], l0[3..];
    assert l1[1..] == l2 && l2[1..] == l3 && l3[1..] == [];
    assert FirstMatchingLevel(l3, s) == if 86.0 <= s <= 100.0 then Advanced else Unknown;
    assert FirstMatchingLevel(l2, s) == if 71.0 <= s <= 85.0 then Mature else FirstMatchingLevel(l3, s);
    assert FirstMatchingLevel(l1, s) == if 51.0 <= s <= 70.0 then Developing else FirstMatchingLevel(l2, s);
  }

  /** The projected score of the predictive simulation, 85.43, falls in the gap above 85. */
  lemma GapScoresAreUnknown()
    ensures DetermineMaturityLevel(85.43) == Unknown
    ensures DetermineMaturityLevel(50.5) == Unknown && DetermineMaturityLevel(70.01) == Unknown
    ensures DetermineMaturityLevel(50.0) == Basic && DetermineMaturityLevel(51.0) == Developing
    ensures DetermineMaturityLevel(100.0) == Advanced && DetermineMaturityLevel(100.5) == Unknown
  {
  }

  /** Whenever a level is found, it is the one the recommendation tier names. */
  lemma {:induction false} LevelAgreesWithTier(s: real)
    requires DetermineMaturityLevel(s) != Unknown
    ensures DetermineMaturityLevel(s) == [Basic, Developing, Mature, Advanced][Tier(s)]
  {
  }

  /** generate_assessment_report with this module's maturity rule. */
  method GenerateAssessmentReport(data: seq<FamilyControls>) returns (report: Report)
    ensures report == AssessmentReport(ControlFamilies, RecommendationWording, data, DetermineMaturityLevel)
    ensures report.maturityLevel == DetermineMaturityLevel(OverallScore(ControlFamilies, FamilyScoresOf(ControlFamilies, data)))
  {
    report := ScoreCard.GenerateAssessmentReport(ControlFamilies, RecommendationWording, data, DetermineMaturityLevel);
  }
}
