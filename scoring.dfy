/**
 * The scoring arithmetic shared by both AISecurityAssessment classes
 * (the plain assessment module and the copy inside the AI analyzer):
 * NIST SP 800-53 control families with their weights, enhancement
 * multipliers, capped control scores, family means, the weighted overall
 * score, and the recommendation list with its low-scoring focus areas.
 * The two copies differ only in how a score maps to a maturity level,
 * which lives with each copy.
 *
 * The control_families dictionary is passed as a parameter `families`
 * (the object's attribute, fixed in __init__); ControlFamilies is the table
 * both classes install.
 */
module ScoreCard {
  import opened Common
  import opened PyBuiltins

  /** One value of control_families: weight and display name. */
  datatype Family = Family(weight: real, name: string)

  /** control_families: family id to weight and name. */
  type FamilyTable = map<string, Family>

  /** A (base_score, enhancement) pair as calculate_family_score receives it. */
  datatype ControlInput = ControlInput(baseScore: real, enhancement: string)

  /** An (id, score) entry of a family_scores dictionary, in insertion order. */
  datatype FamilyScoreEntry = FamilyScoreEntry(familyId: string, score: real)

  /** A family of assessment_data and its controls, in insertion order. */
  datatype FamilyControls = FamilyControls(familyId: string, controls: seq<ControlInput>)

  // -----------------------------------------------------------------------
  // Families

  /** The seventeen families of NIST SP 800-53 Rev. 5 with the weights both classes use. */
  const ControlFamilies: FamilyTable := map[
    "AC" := Family(0.08, "Access Control"),
    "AU" := Family(0.07, "Audit and Accountability"),
    "AT" := Family(0.03, "Awareness and Training"),
    "CA" := Family(0.06, "Assessment, Authorization, and Monitoring"),
    "CM" := Family(0.05, "Configuration Management"),
    "CP" := Family(0.04, "Contingency Planning"),
    "IA" := Family(0.08, "Identification and Authentication"),
    "IR" := Family(0.06, "Incident Response"),
    "MA" := Family(0.03, "Maintenance"),
    "MP" := Family(0.04, "Media Protection"),
    "PE" := Family(0.03, "Physical and Environmental Protection"),
    "PL" := Family(0.04, "Planning"),
    "PS" := Family(0.04, "Personnel Security"),
    "RA" := Family(0.06, "Risk Assessment"),
    "SA" := Family(0.04, "System and Services Acquisition"),
    "SC" := Family(0.09, "System and Communications Protection"),
    "SI" := Family(0.07, "System and Information Integrity")]

  /** Every family carries a positive weight. */
  predicate PositiveWeights(families: FamilyTable)
  {
    forall id :: id in families ==> families[id].weight > 0.0
  }

  /** The installed table: positive weights, and three of its rows. */
  lemma ControlFamiliesFacts()
    ensures PositiveWeights(ControlFamilies)
    ensures "AC" in ControlFamilies && ControlFamilies["AC"] == Family(0.08, "Access Control")
    ensures "SC" in ControlFamilies && ControlFamilies["SC"] == Family(0.09, "System and Communications Protection")
    ensures "ZZ" !in ControlFamilies
  {
  }

  // -----------------------------------------------------------------------
  // Control and family scores

  /** enhancement_multipliers.get(level, 1.0). */
  function Multiplier(level: string): (m: real)
    ensures 1.0 <= m <= 1.5
    ensures level !in {"none", "moderate", "significant", "transformational"} ==> m == 1.0
  {
    if level == "none" then 1.0
    else if level == "moderate" then 1.1
    else if level == "significant" then 1.25
    else if level == "transformational" then 1.5
    else 1.0
  }

  /** calculate_control_score: the enhanced score, capped at 100. */
  function ControlScore(baseScore: real, level: string): (r: real)
    ensures r <= 100.0
    ensures baseScore * Multiplier(level) <= 100.0 ==> r == baseScore * Multiplier(level)
    ensures baseScore * Multiplier(level) > 100.0 ==> r == 100.0
  {
    MinReal(baseScore * Multiplier(level), 100.0)
  }

  /** An enhancement never lowers a base score in [0, 100]. */
  lemma ControlScoreAtLeastBase(baseScore: real, level: string)
    requires 0.0 <= baseScore <= 100.0
    ensures baseScore <= ControlScore(baseScore, level) <= 100.0
  {
  }

  /** The multipliers of the table, and the cap. */
  lemma ControlScoreExamples()
    ensures ControlScore(80.0, "moderate") == 88.0
    ensures ControlScore(80.0, "transformational") == 100.0
    ensures ControlScore(60.0, "significant") == 75.0
    ensures ControlScore(60.0, "bogus") == 60.0
  {
  }

  /** The enhanced score of every control, in order. */
  function ControlScores(cs: seq<ControlInput>): (r: seq<real>)
    ensures |r| == |cs|
    ensures forall k :: 0 <= k < |cs| ==> r[k] == ControlScore(cs[k].baseScore, cs[k].enhancement)
  {
    seq(|cs|, k requires 0 <= k < |cs| => ControlScore(cs[k].baseScore, cs[k].enhancement))
  }

  /** calculate_family_score: the mean control score, 0.0 for no controls. */
  function FamilyScore(cs: seq<ControlInput>): real
  {
    Mean(ControlScores(cs))
  }

  /** A family's score lies between any bounds of its control scores. */
  lemma {:induction false} FamilyScoreBetween(cs: seq<ControlInput>, lo: real, hi: real)
    requires cs != []
    requires forall k :: 0 <= k < |cs| ==> lo <= ControlScore(cs[k].baseScore, cs[k].enhancement) <= hi
    ensures lo <= FamilyScore(cs) <= hi
  {
    MeanBetween(ControlScores(cs), lo, hi);
  }

  /** Scores of controls with bases in [0, 100] average into [0, 100]. */
  lemma {:induction false} FamilyScoreInRange(cs: seq<ControlInput>)
    requires forall k :: 0 <= k < |cs| ==> 0.0 <= cs[k].baseScore <= 100.0
    ensures 0.0 <= FamilyScore(cs) <= 100.0
  {
    if cs != [] {
      forall k | 0 <= k < |cs|
        ensures 0.0 <= ControlScore(cs[k].baseScore, cs[k].enhancement) <= 100.0
      {
        ControlScoreAtLeastBase(cs[k].baseScore, cs[k].enhancement);
      }
      FamilyScoreBetween(cs, 0.0, 100.0);
    }
  }

  // -----------------------------------------------------------------------
  // Overall score

  /** Weight of a family id, 0 for an id outside the table. */
  function WeightOf(families: FamilyTable, id: string): real
  {
    if id in families then families[id].weight else 0.0
  }

  /** The weight of each entry, 0 for ids outside the table. */
  function Weights(families: FamilyTable, fs: seq<FamilyScoreEntry>): (ws: seq<real>)
    ensures |ws| == |fs|
    ensures forall k :: 0 <= k < |fs| ==> ws[k] == WeightOf(families, fs[k].familyId)
  {
    seq(|fs|, k requires 0 <= k < |fs| => WeightOf(families, fs[k].familyId))
  }

  /** score * weight of each entry. */
  function WeightedScores(families: FamilyTable, fs: seq<FamilyScoreEntry>): (ps: seq<real>)
    ensures |ps| == |fs|
    ensures forall k :: 0 <= k < |fs| ==> ps[k] == fs[k].score * WeightOf(families, fs[k].familyId)
  {
    seq(|fs|, k requires 0 <= k < |fs| => fs[k].score * WeightOf(families, fs[k].familyId))
  }

  /** calculate_overall_score: the weight-normalised mean over known families, 0 when there are none. */
  function OverallScore(families: FamilyTable, fs: seq<FamilyScoreEntry>): real
  {
    var totalWeight := Sum(Weights(families, fs));
    if totalWeight > 0.0 then Sum(WeightedScores(families, fs)) / totalWeight else 0.0
  }

  /** The accumulation loop of calculate_overall_score. */
  method CalculateOverallScore(families: FamilyTable, fs: seq<FamilyScoreEntry>) returns (overall: real)
    ensures overall == OverallScore(families, fs)
  {
    ghost var ps, ws := WeightedScores(families, fs), Weights(families, fs);
    var totalWeightedScore := 0.0;
    var totalWeight := 0.0;
    var i := 0;
    while i < |fs|
      invariant 0 <= i <= |fs|
      invariant totalWeightedScore == Sum(ps[..i])
      invariant totalWeight == Sum(ws[..i])
    {
      assert ps[..i + 1][..i] == ps[..i] && ws[..i + 1][..i] == ws[..i];
      var familyId := fs[i].familyId;
      if familyId in families {
        var weight := families[familyId].weight;
        totalWeightedScore := totalWeightedScore + fs[i].score * weight;
        totalWeight := totalWeight + weight;
      } else {
        assert ps[i] == 0.0 && ws[i] == 0.0;
      }
      i := i + 1;
    }
    assert ps[..|fs|] == ps && ws[..|fs|] == ws;
    overall := if totalWeight > 0.0 then totalWeightedScore / totalWeight else 0.0;
  }

  /** With positive weights, the total weight is positive exactly when some entry names a known family. */
  lemma {:induction false} TotalWeightPositive(families: FamilyTable, fs: seq<FamilyScoreEntry>)
    requires PositiveWeights(families)
    ensures Sum(Weights(families, fs)) >= 0.0
    ensures Sum(Weights(families, fs)) > 0.0 <==> exists k :: 0 <= k < |fs| && fs[k].familyId in families
  {
    var ws := Weights(families, fs);
    SumPositive(ws);
    if exists k :: 0 <= k < |fs| && fs[k].familyId in families {
      var k :| 0 <= k < |fs| && fs[k].familyId in families;
      assert ws[k] > 0.0;
    }
  }

  /** With no known family the overall score is 0. */
  lemma {:induction false} OverallScoreNoKnownFamily(families: FamilyTable, fs: seq<FamilyScoreEntry>)
    requires forall k :: 0 <= k < |fs| ==> fs[k].familyId !in families
    ensures OverallScore(families, fs) == 0.0
  {
    var ws := Weights(families, fs);
    SumPositive(ws);
  }

  /** A weighted score p == s * w with weight w >= 0 lies between lo * w and hi * w when s has to. */
  lemma WeightedBounds(lo: real, hi: real, s: real, w: real, p: real)
    requires p == s * w && w >= 0.0
    requires w > 0.0 ==> lo <= s <= hi
    ensures lo * w <= p <= hi * w
  {
    if w > 0.0 {
      MulBounds(lo, s, hi, w);
    } else {
      assert w == 0.0;
    }
  }

  /** Each weighted score lies between lo and hi times its weight when the known scores do. */
  lemma {:induction false} WeightedScoresDominated(families: FamilyTable, fs: seq<FamilyScoreEntry>, lo: real, hi: real)
    requires PositiveWeights(families)
    requires forall k :: 0 <= k < |fs| && fs[k].familyId in families ==> lo <= fs[k].score <= hi
    ensures forall k :: 0 <= k < |fs| ==>
      lo * Weights(families, fs)[k] <= WeightedScores(families, fs)[k] <= hi * Weights(families, fs)[k]
  {
    var ps, ws := WeightedScores(families, fs), Weights(families, fs);
    forall k | 0 <= k < |fs| ensures lo * ws[k] <= ps[k] <= hi * ws[k] {
      WeightedBounds(lo, hi, fs[k].score, ws[k], ps[k]);
    }
  }

  /** The overall score stays within any bounds of the known families' scores. */
  lemma {:induction false} OverallScoreBetween(families: FamilyTable, fs: seq<FamilyScoreEntry>, lo: real, hi: real)
    requires PositiveWeights(families)
    requires exists k :: 0 <= k < |fs| && fs[k].familyId in families
    requires forall k :: 0 <= k < |fs| && fs[k].familyId in families ==> lo <= fs[k].score <= hi
    ensures lo <= OverallScore(families, fs) <= hi
  {
    var ps, ws := WeightedScores(families, fs), Weights(families, fs);
    assert Sum(ws) > 0.0 by {
      TotalWeightPositive(families, fs);
    }
    assert lo * Sum(ws) <= Sum(ps) <= hi * Sum(ws) by {
      WeightedScoresDominated(families, fs, lo, hi);
      SumDominated(ps, ws, lo, hi);
    }
    RatioBounds(lo, hi, Sum(ps), Sum(ws));
  }

  /** Family scores in [0, 100] give an overall score in [0, 100], with or without known families. */
  lemma {:induction false} OverallScoreInRange(families: FamilyTable, fs: seq<FamilyScoreEntry>)
    requires PositiveWeights(families)
    requires forall k :: 0 <= k < |fs| ==> 0.0 <= fs[k].score <= 100.0
    ensures 0.0 <= OverallScore(families, fs) <= 100.0
  {
    if exists k :: 0 <= k < |fs| && fs[k].familyId in families {
      OverallScoreBetween(families, fs, 0.0, 100.0);
    } else {
      OverallScoreNoKnownFamily(families, fs);
    }
  }

  /** Scores under ids outside the table do not move the overall score. */
  lemma {:induction false} OverallScoreIgnoresUnknown(families: FamilyTable, fs: seq<FamilyScoreEntry>, e: FamilyScoreEntry)
    requires e.familyId !in families
    ensures OverallScore(families, fs + [e]) == OverallScore(families, fs)
  {
    var ps, ws := WeightedScores(families, fs + [e]), Weights(families, fs + [e]);
    forall k | 0 <= k < |fs|
      ensures ps[k] == WeightedScores(families, fs)[k] && ws[k] == Weights(families, fs)[k]
    {
      assert (fs + [e])[k] == fs[k];
    }
    assert (fs + [e])[|fs|] == e && WeightOf(families, e.familyId) == 0.0;
    assert ps[..|fs|] == WeightedScores(families, fs) && ps[|fs|] == 0.0;
    assert ws[..|fs|] == Weights(families, fs) && ws[|fs|] == 0.0;
    assert Sum(ps) == Sum(ps[..|fs|]) + ps[|fs|];
    assert Sum(ws) == Sum(ws[..|fs|]) + ws[|fs|];
  }

  // -----------------------------------------------------------------------
  // Family scores of an assessment

  /** The keys of a dictionary are distinct. */
  predicate DistinctFamilyIds(data: seq<FamilyControls>)
  {
    forall i, j :: 0 <= i < j < |data| ==> data[i].familyId != data[j].familyId
  }

  /** The family_scores dictionary of generate_assessment_report: known families only, in order. */
  function FamilyScoresOf(families: FamilyTable, data: seq<FamilyControls>): (fs: seq<FamilyScoreEntry>)
    ensures |fs| <= |data|
    ensures forall k :: 0 <= k < |fs| ==> fs[k].familyId in families
  {
    if data == [] then []
    else
      var init := FamilyScoresOf(families, data[..|data| - 1]);
      var last := data[|data| - 1];
      if last.familyId in families then init + [FamilyScoreEntry(last.familyId, FamilyScore(last.controls))] else init
  }

  /** The first loop of generate_assessment_report. */
  method CollectFamilyScores(families: FamilyTable, data: seq<FamilyControls>) returns (familyScores: seq<FamilyScoreEntry>)
    ensures familyScores == FamilyScoresOf(families, data)
  {
    familyScores := [];
    var i := 0;
    while i < |data|
      invariant 0 <= i <= |data|
      invariant familyScores == FamilyScoresOf(families, data[..i])
    {
      assert data[..i + 1][..i] == data[..i];
      var family := data[i];
      if family.familyId in families {
        var controlScores := family.controls;
        familyScores := familyScores + [FamilyScoreEntry(family.familyId, FamilyScore(controlScores))];
      }
      i := i + 1;
    }
    assert data[..|data|] == data;
  }

  /** Some family of the data has this id. */
  predicate HasFamily(data: seq<FamilyControls>, id: string)
  {
    exists j :: 0 <= j < |data| && data[j].familyId == id
  }

  /** Some entry of the scores has this id. */
  predicate HasScore(fs: seq<FamilyScoreEntry>, id: string)
  {
    exists k :: 0 <= k < |fs| && fs[k].familyId == id
  }

  /** An id is scored exactly when it is a known family and occurs in the data. */
  lemma {:induction false} FamilyScoresOfIds(families: FamilyTable, data: seq<FamilyControls>, id: string)
    ensures HasScore(FamilyScoresOf(families, data), id) <==> id in families && HasFamily(data, id)
  {
    if data != [] {
      var init, last := data[..|data| - 1], data[|data| - 1];
      assert forall j :: 0 <= j < |init| ==> init[j] == data[j];
      FamilyScoresOfIds(families, init, id);
      var fi, fs := FamilyScoresOf(families, init), FamilyScoresOf(families, data);
      assert forall k :: 0 <= k < |fi| ==> fs[k] == fi[k];
      if HasScore(fs, id) {
        var k :| 0 <= k < |fs| && fs[k].familyId == id;
        if k < |fi| {
          assert HasScore(fi, id);
          var j :| 0 <= j < |init| && init[j].familyId == id;
          assert data[j].familyId == id;
        } else {
          assert data[|data| - 1].familyId == id;
        }
      }
      if id in families && HasFamily(data, id) {
        var j :| 0 <= j < |data| && data[j].familyId == id;
        if j < |init| {
          assert HasFamily(init, id);
          var k :| 0 <= k < |fi| && fi[k].familyId == id;
          assert fs[k].familyId == id;
        } else {
          assert fs[|fs| - 1].familyId == id;
        }
      }
    }
  }

  /** With distinct ids, each scored entry carries the mean of its own family's controls. */
  lemma {:induction false} FamilyScoreOfEntry(families: FamilyTable, data: seq<FamilyControls>, k: int, j: int)
    requires DistinctFamilyIds(data)
    requires 0 <= k < |FamilyScoresOf(families, data)| && 0 <= j < |data|
    requires FamilyScoresOf(families, data)[k].familyId == data[j].familyId
    ensures FamilyScoresOf(families, data)[k].score == FamilyScore(data[j].controls)
  {
    var init, last := data[..|data| - 1], data[|data| - 1];
    assert forall i :: 0 <= i < |init| ==> init[i] == data[i];
    var fi, fs := FamilyScoresOf(families, init), FamilyScoresOf(families, data);
    assert forall m :: 0 <= m < |fi| ==> fs[m] == fi[m];
    if k < |fi| {
      if j < |init| {
        assert DistinctFamilyIds(init);
        FamilyScoreOfEntry(families, init, k, j);
      } else {
        assert HasScore(fi, last.familyId);
        FamilyScoresOfIds(families, init, last.familyId);
        assert false;
      }
    } else {
      assert fs[k].familyId == last.familyId;
      if j < |init| {
        assert false;
      }
    }
  }

  // -----------------------------------------------------------------------
  // Recommendations

  const LowScoreThreshold: real := 75.0

  /**
   * The fixed wording of generate_recommendations: the three-line block of
   * each tier and the header above the focus areas. The operations take it as
   * a parameter; RecommendationWording holds the texts of assessment.py.
   */
  datatype Wording = Wording(
    foundational: seq<string>,
    developing: seq<string>,
    mature: seq<string>,
    advanced: seq<string>,
    focusHeader: string)

  const RecommendationWording: Wording := Wording(
    [ "Priority: Foundational. Focus on basic security controls.",
      "-> Deploy Quantum-Resistant Cryptography for core systems.",
      "-> Establish basic Explainable AI (XAI) for critical decisions."],
    [ "Priority: Developing. Focus on fixing core weaknesses and optimizing controls.",
      "-> Integrate Homomorphic Encryption for privacy-preserving analytics.",
      "-> Activate the Self-Healing Policy Synthesis Engine."],
    [ "Priority: Mature. Focus on continuous improvement and optimization.",
      "-> Enhance automated monitoring and incident response capabilities.",
      "-> Implement advanced threat detection and analysis."],
    [ "Priority: Advanced. Maintain leadership through innovation.",
      "-> Contribute to industry best practices and security standards.",
      "-> Prepare for next-generation regulatory requirements."],
    "\nSpecific Focus Areas (Scores < 75%):")

  /** Every block of the source's wording is three lines, the first naming its tier. */
  lemma RecommendationWordingFacts()
    ensures var w := RecommendationWording;
      && |w.foundational| == 3 && |w.developing| == 3 && |w.mature| == 3 && |w.advanced| == 3
      && w.foundational[0] == "Priority: Foundational. Focus on basic security controls."
      && w.advanced[0] == "Priority: Advanced. Maintain leadership through innovation."
      && w.focusHeader == "\nSpecific Focus Areas (Scores < 75%):"
  {
  }

  /** The four recommendation tiers, 0 (Foundational) to 3 (Advanced). */
  function Tier(s: real): (t: nat)
    ensures t <= 3
    ensures t == 0 <==> s <= 50.0
    ensures t == 1 <==> 50.0 < s <= 70.0
    ensures t == 2 <==> 70.0 < s <= 85.0
    ensures t == 3 <==> 85.0 < s
  {
    if s <= 50.0 then 0 else if s <= 70.0 then 1 else if s <= 85.0 then 2 else 3
  }

  /** The maturity-based block, chosen by s <= 50, <= 70, <= 85, else. */
  function TierBlock(w: Wording, s: real): (r: seq<string>)
    ensures Tier(s) == 0 ==> r == w.foundational
    ensures Tier(s) == 1 ==> r == w.developing
    ensures Tier(s) == 2 ==> r == w.mature
    ensures Tier(s) == 3 ==> r == w.advanced
  {
    if s <= 50.0 then w.foundational
    else if s <= 70.0 then w.developing
    else if s <= 85.0 then w.mature
    else w.advanced
  }

  /** The entries scoring below 75, in their dictionary order. */
  function LowScoring(fs: seq<FamilyScoreEntry>): (r: seq<FamilyScoreEntry>)
    ensures |r| <= |fs|
    ensures forall k :: 0 <= k < |r| ==> r[k].score < LowScoreThreshold
    ensures multiset(r) <= multiset(fs)
  {
    if fs == [] then []
    else
      var rest := LowScoring(fs[1..]);
      assert fs == [fs[0]] + fs[1..];
      if fs[0].score < LowScoreThreshold then [fs[0]] + rest else rest
  }

  lemma {:induction false} LowScoringComplete(fs: seq<FamilyScoreEntry>)
    ensures forall e :: e in fs && e.score < LowScoreThreshold ==> e in LowScoring(fs)
  {
    if fs != [] {
      LowScoringComplete(fs[1..]);
    }
  }

  /** With no entry below 75 nothing is selected. */
  lemma {:induction false} LowScoringNone(fs: seq<FamilyScoreEntry>)
    requires forall k :: 0 <= k < |fs| ==> fs[k].score >= LowScoreThreshold
    ensures LowScoring(fs) == []
  {
    if fs != [] {
      assert forall k :: 0 <= k < |fs| - 1 ==> fs[1..][k] == fs[k + 1];
      LowScoringNone(fs[1..]);
    }
  }

  predicate SortedByScore(xs: seq<FamilyScoreEntry>)
  {
    forall i, j :: 0 <= i < j < |xs| ==> xs[i].score <= xs[j].score
  }

  /** Insert e after every entry whose score is not greater: a stable insertion. */
  function InsertByScore(e: FamilyScoreEntry, xs: seq<FamilyScoreEntry>): (r: seq<FamilyScoreEntry>)
    requires SortedByScore(xs)
    ensures SortedByScore(r)
    ensures multiset(r) == multiset(xs) + multiset{e}
    ensures r[0] == (if xs != [] && xs[0].score <= e.score then xs[0] else e)
  {
    if xs == [] then [e]
    else if e.score < xs[0].score then [e] + xs
    else
      var rest := InsertByScore(e, xs[1..]);
      assert xs == [xs[0]] + xs[1..];
      SortedCons(xs[0], rest);
      [xs[0]] + rest
  }

  /** An entry no greater than the head of a sorted list can go in front of it. */
  lemma SortedCons(x: FamilyScoreEntry, xs: seq<FamilyScoreEntry>)
    requires SortedByScore(xs)
    requires xs != [] ==> x.score <= xs[0].score
    ensures SortedByScore([x] + xs)
  {
    assert forall k :: 0 <= k < |xs| ==> x.score <= xs[k].score;
    assert forall k :: 0 < k < |[x] + xs| ==> ([x] + xs)[k] == xs[k - 1];
  }

  /** sorted(xs, key=score): stable ascending order by score. */
  function SortByScore(xs: seq<FamilyScoreEntry>): (r: seq<FamilyScoreEntry>)
    ensures SortedByScore(r)
    ensures multiset(r) == multiset(xs)
  {
    if xs == [] then []
    else
      var init, last := xs[..|xs| - 1], xs[|xs| - 1];
      assert xs == init + [last];
      assert multiset(xs) == multiset(init) + multiset{last};
      InsertByScore(last, SortByScore(init))
  }

  /** Runs of equal score keep their original order. */
  lemma SortByScoreStableExample()
    ensures SortByScore([FamilyScoreEntry("CP", 60.0), FamilyScoreEntry("AC", 40.0), FamilyScoreEntry("MA", 60.0)])
      == [FamilyScoreEntry("AC", 40.0), FamilyScoreEntry("CP", 60.0), FamilyScoreEntry("MA", 60.0)]
  {
    var a, b, c := FamilyScoreEntry("CP", 60.0), FamilyScoreEntry("AC", 40.0), FamilyScoreEntry("MA", 60.0);
    assert [a, b, c][..2] == [a, b];
    assert [a, b][..1] == [a];
    assert [a][..0] == [];
    assert InsertByScore(a, []) == [a];
    assert SortByScore([a]) == [a];
    assert InsertByScore(b, [a]) == [b, a];
    assert SortByScore([a, b]) == [b, a];
    assert InsertByScore(c, []) == [c];
    assert InsertByScore(c, [a]) == [a, c];
    assert InsertByScore(c, [b, a]) == [b, a, c];
  }

  /** The entries of xs whose score is exactly s, in their order in xs. */
  function WithScore(xs: seq<FamilyScoreEntry>, s: real): (r: seq<FamilyScoreEntry>)
    ensures |r| <= |xs|
  {
    if xs == [] then []
    else (if xs[0].score == s then [xs[0]] else []) + WithScore(xs[1..], s)
  }

  /** Selecting by score distributes over one more entry at the end. */
  lemma {:induction false} WithScoreSnoc(xs: seq<FamilyScoreEntry>, x: FamilyScoreEntry, s: real)
    ensures WithScore(xs + [x], s) == WithScore(xs, s) + (if x.score == s then [x] else [])
  {
    if xs != [] {
      assert (xs + [x])[1..] == xs[1..] + [x];
      WithScoreSnoc(xs[1..], x, s);
    }
  }

  /** A sorted list whose head scores above s holds no entry of score s. */
  lemma {:induction false} WithScoreAboveHead(xs: seq<FamilyScoreEntry>, s: real)
    requires SortedByScore(xs) && xs != [] && s < xs[0].score
    ensures WithScore(xs, s) == []
  {
    if |xs| > 1 {
      WithScoreAboveHead(xs[1..], s);
    }
  }

  /** An entry placed in front of a sorted list whose head scores higher comes last among its score. */
  lemma InsertFrontStable(e: FamilyScoreEntry, xs: seq<FamilyScoreEntry>, s: real)
    requires SortedByScore(xs) && xs != [] && e.score < xs[0].score
    ensures WithScore([e] + xs, s) == WithScore(xs, s) + (if e.score == s then [e] else [])
  {
    assert ([e] + xs)[1..] == xs;
    if e.score == s {
      WithScoreAboveHead(xs, s);
    }
  }

  /** Putting the same head in front of two lists whose selections differ by a suffix keeps that difference. */
  lemma ConsStable(x: FamilyScoreEntry, rest: seq<FamilyScoreEntry>, tail: seq<FamilyScoreEntry>, own: seq<FamilyScoreEntry>, s: real)
    requires WithScore(rest, s) == WithScore(tail, s) + own
    ensures WithScore([x] + rest, s) == WithScore([x] + tail, s) + own
  {
    assert ([x] + rest)[1..] == rest;
    assert ([x] + tail)[1..] == tail;
    var head := if x.score == s then [x] else [];
    assert head + (WithScore(tail, s) + own) == (head + WithScore(tail, s)) + own;
  }

  /** Inserting e places it after every entry of the same score already there. */
  lemma {:induction false} InsertByScoreStable(e: FamilyScoreEntry, xs: seq<FamilyScoreEntry>, s: real)
    requires SortedByScore(xs)
    ensures WithScore(InsertByScore(e, xs), s) == WithScore(xs, s) + (if e.score == s then [e] else [])
  {
    if xs == [] {
      assert InsertByScore(e, xs) == [e];
    } else if e.score < xs[0].score {
      assert InsertByScore(e, xs) == [e] + xs;
      InsertFrontStable(e, xs, s);
    } else {
      var rest := InsertByScore(e, xs[1..]);
      assert InsertByScore(e, xs) == [xs[0]] + rest;
      InsertByScoreStable(e, xs[1..], s);
      ConsStable(xs[0], rest, xs[1..], if e.score == s then [e] else [], s);
      assert [xs[0]] + xs[1..] == xs;
    }
  }

  /** sorted() is stable: for every score, the entries with that score keep their input order. */
  lemma {:induction false} SortByScoreStable(xs: seq<FamilyScoreEntry>, s: real)
    ensures WithScore(SortByScore(xs), s) == WithScore(xs, s)
  {
    if xs != [] {
      var init, last := xs[..|xs| - 1], xs[|xs| - 1];
      assert xs == init + [last];
      SortByScoreStable(init, s);
      InsertByScoreStable(last, SortByScore(init), s);
      WithScoreSnoc(init, last, s);
    }
  }

  /** The focus-area line for one family with its display name. */
  function FocusLine(name: string, e: FamilyScoreEntry): string
  {
    "- " + name + " (" + e.familyId + "): " + FormatFixed1(e.score) + "% - Requires immediate attention."
  }

  /**
   * The focus-area lines, front to back; the KeyError of the first id that
   * control_families lacks (its message is the quoted id).
   */
  function FocusLines(families: FamilyTable, low: seq<FamilyScoreEntry>): (r: Result<seq<string>, string>)
    ensures r.Ok? <==> forall k :: 0 <= k < |low| ==> low[k].familyId in families
    ensures r.Ok? ==> |r.value| == |low|
  {
    if low == [] then Ok([])
    else
      var init, last := low[..|low| - 1], low[|low| - 1];
      assert forall k :: 0 <= k < |init| ==> init[k] == low[k];
      match FocusLines(families, init)
      case Err(msg) => Err(msg)
      case Ok(lines) =>
        if last.familyId !in families then Err(KeyError(last.familyId))
        else Ok(lines + [FocusLine(families[last.familyId].name, last)])
  }

  /** Line k is the focus line of entry k, under its family's display name. */
  lemma {:induction false} FocusLinesContent(families: FamilyTable, low: seq<FamilyScoreEntry>)
    requires FocusLines(families, low).Ok?
    ensures forall k :: 0 <= k < |low| ==> FocusLines(families, low).value[k] == FocusLine(families[low[k].familyId].name, low[k])
  {
    if low != [] {
      var init := low[..|low| - 1];
      assert forall k :: 0 <= k < |init| ==> init[k] == low[k];
      FocusLinesContent(families, init);
    }
  }

  /** str() of the KeyError raised for a missing dictionary key. */
  function KeyError(key: string): string
  {
    "'" + key + "'"
  }

  /** The error is the KeyError of the first unknown id. */
  lemma {:induction false} FocusLinesFirstUnknown(families: FamilyTable, low: seq<FamilyScoreEntry>, k: int)
    requires 0 <= k < |low| && low[k].familyId !in families
    requires forall m :: 0 <= m < k ==> low[m].familyId in families
    ensures FocusLines(families, low) == Err(KeyError(low[k].familyId))
  {
    var init := low[..|low| - 1];
    assert forall m :: 0 <= m < |init| ==> init[m] == low[m];
    if k < |init| {
      FocusLinesFirstUnknown(families, init, k);
    } else {
      assert forall m :: 0 <= m < |init| ==> init[m].familyId in families;
    }
  }

  /** The families needing attention, lowest score first. */
  function FocusAreas(fs: seq<FamilyScoreEntry>): seq<FamilyScoreEntry>
  {
    SortByScore(LowScoring(fs))
  }

  /** generate_recommendations as a value. */
  function Recommendations(families: FamilyTable, w: Wording, fs: seq<FamilyScoreEntry>, overall: real): Result<seq<string>, string>
  {
    Focused(families, w, FocusAreas(fs), overall)
  }

  /** The recommendations for a given list of focus areas, in that order. */
  function Focused(families: FamilyTable, w: Wording, low: seq<FamilyScoreEntry>, overall: real): Result<seq<string>, string>
  {
    if low == [] then Ok(TierBlock(w, overall))
    else
      match FocusLines(families, low)
      case Err(msg) => Err(msg)
      case Ok(lines) => Ok(TierBlock(w, overall) + [w.focusHeader] + lines)
  }

  /**
   * generate_recommendations: the tier block, then, when some family is below
   * 75, the header and one line per such family in ascending score order.
   */
  method GenerateRecommendations(families: FamilyTable, w: Wording, fs: seq<FamilyScoreEntry>, overall: real) returns (r: Result<seq<string>, string>)
    ensures r == Recommendations(families, w, fs, overall)
  {
    var recommendations := TierBlock(w, overall);
    var lowScoringFamilies := FocusAreas(fs);
    if lowScoringFamilies != [] {
      recommendations := recommendations + [w.focusHeader];
      var lines := FocusAreaLines(families, lowScoringFamilies);
      if lines.Err? {
        return Err(lines.error);
      }
      recommendations := recommendations + lines.value;
    }
    r := Ok(recommendations);
  }

  /**
   * The loop of generate_recommendations over the focus areas: one line per
   * family with its display name, or the KeyError of the first unknown id.
   */
  method FocusAreaLines(families: FamilyTable, low: seq<FamilyScoreEntry>) returns (r: Result<seq<string>, string>)
    ensures r == FocusLines(families, low)
  {
    var lines: seq<string> := [];
    var i := 0;
    while i < |low|
      invariant 0 <= i <= |low|
      invariant forall m :: 0 <= m < i ==> low[m].familyId in families
      invariant |lines| == i
      invariant forall m :: 0 <= m < i ==> lines[m] == FocusLine(families[low[m].familyId].name, low[m])
    {
      var e := low[i];
      if e.familyId !in families {
        FocusLinesFirstUnknown(families, low, i);
        return Err(KeyError(e.familyId));
      }
      var familyName := families[e.familyId].name;
      var line := FocusLine(familyName, e);
      FocusLinesStep(families, low, lines, line);
      lines := lines + [line];
      i := i + 1;
    }
    FocusLinesValue(families, low, lines);
    r := Ok(lines);
  }

  /** Appending the focus line of the next entry extends a correct prefix of the lines. */
  lemma {:induction false} FocusLinesStep(families: FamilyTable, low: seq<FamilyScoreEntry>, lines: seq<string>, line: string)
    requires |lines| < |low| && forall m :: 0 <= m <= |lines| ==> low[m].familyId in families
    requires forall m :: 0 <= m < |lines| ==> lines[m] == FocusLine(families[low[m].familyId].name, low[m])
    requires line == FocusLine(families[low[|lines|].familyId].name, low[|lines|])
    ensures forall m :: 0 <= m <= |lines| ==> (lines + [line])[m] == FocusLine(families[low[m].familyId].name, low[m])
  {
    assert forall m :: 0 <= m < |lines| ==> (lines + [line])[m] == lines[m];
  }

  /** The focus lines are the lines, one per entry, that FocusLine gives. */
  lemma {:induction false} FocusLinesValue(families: FamilyTable, low: seq<FamilyScoreEntry>, lines: seq<string>)
    requires forall k :: 0 <= k < |low| ==> low[k].familyId in families
    requires |lines| == |low|
    requires forall k :: 0 <= k < |low| ==> lines[k] == FocusLine(families[low[k].familyId].name, low[k])
    ensures FocusLines(families, low) == Ok(lines)
  {
    FocusLinesContent(families, low);
    assert FocusLines(families, low).value == lines;
  }

  /** The focus areas are exactly the entries below 75, each once, sorted ascending by score. */
  lemma {:induction false} FocusAreasAreLowScoring(fs: seq<FamilyScoreEntry>)
    ensures SortedByScore(FocusAreas(fs))
    ensures multiset(FocusAreas(fs)) <= multiset(fs)
    ensures forall e :: e in FocusAreas(fs) <==> e in fs && e.score < LowScoreThreshold
  {
    var low := FocusAreas(fs);
    LowScoringComplete(fs);
    forall e | e in low ensures e in fs && e.score < LowScoreThreshold {
      assert e in multiset(low);
      assert e in multiset(LowScoring(fs));
      assert e in LowScoring(fs);
      assert e in multiset(fs);
    }
    forall e | e in fs && e.score < LowScoreThreshold ensures e in low {
      assert e in LowScoring(fs);
      assert e in multiset(LowScoring(fs));
      assert e in multiset(low);
    }
  }

  /** With every id a known family, generate_recommendations cannot fail. */
  lemma RecommendationsOk(families: FamilyTable, w: Wording, fs: seq<FamilyScoreEntry>, overall: real)
    requires forall k :: 0 <= k < |fs| ==> fs[k].familyId in families
    ensures Recommendations(families, w, fs, overall).Ok?
  {
    FocusAreasKnown(families, fs);
    FocusedLayout(families, w, FocusAreas(fs), overall);
  }

  /**
   * With every focus area a known family, the list is the tier block, and,
   * when there are focus areas, the header and one focus line for each.
   */
  lemma {:induction false} FocusedLayout(families: FamilyTable, w: Wording, low: seq<FamilyScoreEntry>, overall: real)
    requires forall k :: 0 <= k < |low| ==> low[k].familyId in families
    ensures Focused(families, w, low, overall).Ok?
    ensures low == [] ==> Focused(families, w, low, overall).value == TierBlock(w, overall)
    ensures low != [] ==>
      && |Focused(families, w, low, overall).value| == |TierBlock(w, overall)| + 1 + |low|
      && Focused(families, w, low, overall).value[..|TierBlock(w, overall)|] == TierBlock(w, overall)
      && Focused(families, w, low, overall).value[|TierBlock(w, overall)|] == w.focusHeader
    ensures forall k :: 0 <= k < |low| ==>
      Focused(families, w, low, overall).value[|TierBlock(w, overall)| + 1 + k]
        == FocusLine(families[low[k].familyId].name, low[k])
  {
    if low != [] {
      var lines := FocusLines(families, low).value;
      FocusLinesContent(families, low);
      var block := TierBlock(w, overall);
      var r := block + [w.focusHeader] + lines;
      assert Focused(families, w, low, overall) == Ok(r);
      assert r[..|block|] == block;
      forall k | 0 <= k < |low|
        ensures r[|block| + 1 + k] == FocusLine(families[low[k].familyId].name, low[k])
      {
        assert r[|block| + 1 + k] == lines[k];
      }
    }
  }

  /** Every focus area comes from the family scores, so it is known when they all are. */
  lemma {:induction false} FocusAreasKnown(families: FamilyTable, fs: seq<FamilyScoreEntry>)
    requires forall k :: 0 <= k < |fs| ==> fs[k].familyId in families
    ensures forall k :: 0 <= k < |FocusAreas(fs)| ==> FocusAreas(fs)[k].familyId in families
  {
    var low := FocusAreas(fs);
    FocusAreasAreLowScoring(fs);
    forall k | 0 <= k < |low| ensures low[k].familyId in families {
      assert low[k] in low;
      assert low[k] in fs;
      var j :| 0 <= j < |fs| && fs[j] == low[k];
    }
  }

  /** With every family at 75 or above the list is the tier block alone. */
  lemma {:induction false} NoLowFamiliesOnlyTier(families: FamilyTable, w: Wording, fs: seq<FamilyScoreEntry>, overall: real)
    requires forall k :: 0 <= k < |fs| ==> fs[k].score >= LowScoreThreshold
    ensures Recommendations(families, w, fs, overall) == Ok(TierBlock(w, overall))
  {
    LowScoringNone(fs);
  }

  // -----------------------------------------------------------------------
  // Maturity levels and the assessment report

  /** The values determine_maturity_level returns. */
  datatype Maturity = Basic | Developing | Mature | Advanced | Unknown

  /** The label of each maturity level. */
  function MaturityName(m: Maturity): string
  {
    match m
    case Basic => "Level 1 - Basic"
    case Developing => "Level 2 - Developing"
    case Mature => "Level 3 - Mature"
    case Advanced => "Level 4 - Advanced"
    case Unknown => "Unknown"
  }

  /** A family_scores entry of the report: display name and rounded score. */
  datatype NamedScore = NamedScore(name: string, score: real)

  /** The report of generate_assessment_report, without its assessment_date. */
  datatype Report = Report(
    overallScore: real,
    maturityLevel: Maturity,
    familyScores: seq<NamedScore>,
    recommendations: seq<string>)

  /** Index of the entry with this name, or -1. */
  function IndexOfName(entries: seq<NamedScore>, name: string): (r: int)
    ensures -1 <= r < |entries|
    ensures r >= 0 ==> entries[r].name == name
    ensures r == -1 <==> forall k :: 0 <= k < |entries| ==> entries[k].name != name
  {
    if entries == [] then -1
    else if entries[|entries| - 1].name == name then |entries| - 1
    else IndexOfName(entries[..|entries| - 1], name)
  }

  /** d[name] = score on a dictionary: overwrite in place, or add at the end. */
  function PutScore(entries: seq<NamedScore>, name: string, score: real): (r: seq<NamedScore>)
  {
    var k := IndexOfName(entries, name);
    if k >= 0 then entries[k := NamedScore(name, score)] else entries + [NamedScore(name, score)]
  }

  /** {control_families[k]['name']: round(v, 2) for k, v in family_scores.items()}. */
  function NamedScores(families: FamilyTable, fs: seq<FamilyScoreEntry>): seq<NamedScore>
    requires forall k :: 0 <= k < |fs| ==> fs[k].familyId in families
  {
    if fs == [] then []
    else
      var last := fs[|fs| - 1];
      PutScore(NamedScores(families, fs[..|fs| - 1]), families[last.familyId].name, Round2(last.score))
  }

  /** No two families share a display name. */
  predicate DistinctNames(families: FamilyTable)
  {
    forall a, b :: a in families && b in families && a != b ==> families[a].name != families[b].name
  }

  /** No two entries share a family id. */
  predicate DistinctScoreIds(fs: seq<FamilyScoreEntry>)
  {
    forall i, j :: 0 <= i < j < |fs| ==> fs[i].familyId != fs[j].familyId
  }

  /**
   * With distinct display names and distinct ids, the name-keyed dictionary
   * has one entry per family, in the same order, holding the rounded score.
   */
  lemma {:induction false} NamedScoresRenameKeys(families: FamilyTable, fs: seq<FamilyScoreEntry>)
    requires forall k :: 0 <= k < |fs| ==> fs[k].familyId in families
    requires DistinctNames(families) && DistinctScoreIds(fs)
    ensures |NamedScores(families, fs)| == |fs|
    ensures forall k :: 0 <= k < |fs| ==>
      NamedScores(families, fs)[k] == NamedScore(families[fs[k].familyId].name, Round2(fs[k].score))
  {
    if fs != [] {
      var init, last := fs[..|fs| - 1], fs[|fs| - 1];
      assert forall k :: 0 <= k < |init| ==> init[k] == fs[k];
      NamedScoresRenameKeys(families, init);
      var prev := NamedScores(families, init);
      var name := families[last.familyId].name;
      forall k | 0 <= k < |prev| ensures prev[k].name != name {
        assert fs[k].familyId != last.familyId;
      }
      assert IndexOfName(prev, name) == -1;
    }
  }

  /** With every id known, the recommendation list of a report is always produced. */
  function ReportRecommendations(families: FamilyTable, w: Wording, fs: seq<FamilyScoreEntry>, overall: real): (r: seq<string>)
    requires forall k :: 0 <= k < |fs| ==> fs[k].familyId in families
    ensures Recommendations(families, w, fs, overall) == Ok(r)
  {
    RecommendationsOk(families, w, fs, overall);
    Recommendations(families, w, fs, overall).value
  }

  /**
   * generate_assessment_report as a value, for a given score-to-maturity
   * rule: the overall score is rounded for the report, but the maturity
   * level and the recommendations see the unrounded score.
   */
  function AssessmentReport(families: FamilyTable, w: Wording, data: seq<FamilyControls>, maturityOf: real -> Maturity): Report
  {
    var fs := FamilyScoresOf(families, data);
    var overall := OverallScore(families, fs);
    Report(Round2(overall), maturityOf(overall), NamedScores(families, fs), ReportRecommendations(families, w, fs, overall))
  }

  /** The statements of generate_assessment_report. */
  method GenerateAssessmentReport(families: FamilyTable, w: Wording, data: seq<FamilyControls>, maturityOf: real -> Maturity)
    returns (report: Report)
    ensures report == AssessmentReport(families, w, data, maturityOf)
  {
    var familyScores := CollectFamilyScores(families, data);
    var overallScore := CalculateOverallScore(families, familyScores);
    var maturityLevel := maturityOf(overallScore);
    var recommendations := GenerateRecommendations(families, w, familyScores, overallScore);
    RecommendationsOk(families, w, familyScores, overallScore);
    report := Report(Round2(overallScore), maturityLevel, NamedScores(families, familyScores), recommendations.value);
  }

  /** Every control base score in [0, 100] gives a reported overall score in [0, 100]. */
  lemma {:induction false} ReportOverallInRange(families: FamilyTable, w: Wording, data: seq<FamilyControls>, maturityOf: real -> Maturity)
    requires PositiveWeights(families)
    requires forall i, k :: 0 <= i < |data| && 0 <= k < |data[i].controls| ==> 0.0 <= data[i].controls[k].baseScore <= 100.0
    ensures 0.0 <= AssessmentReport(families, w, data, maturityOf).overallScore <= 100.0
  {
    var fs := FamilyScoresOf(families, data);
    forall k | 0 <= k < |fs| ensures 0.0 <= fs[k].score <= 100.0 {
      FamilyScoresInRange(families, data, k);
    }
    OverallScoreInRange(families, fs);
    var overall := OverallScore(families, fs);
    Round2Monotone(0.0, overall);
    Round2Monotone(overall, 100.0);
    Round2OfCents(0);
    Round2OfCents(10000);
  }

  /** Each entry of FamilyScoresOf is the mean of controls whose bases lie in [0, 100]. */
  lemma {:induction false} FamilyScoresInRange(families: FamilyTable, data: seq<FamilyControls>, k: int)
    requires forall i, m :: 0 <= i < |data| && 0 <= m < |data[i].controls| ==> 0.0 <= data[i].controls[m].baseScore <= 100.0
    requires 0 <= k < |FamilyScoresOf(families, data)|
    ensures 0.0 <= FamilyScoresOf(families, data)[k].score <= 100.0
  {
    var init, last := data[..|data| - 1], data[|data| - 1];
    assert forall i :: 0 <= i < |init| ==> init[i] == data[i];
    var fi := FamilyScoresOf(families, init);
    if k < |fi| {
      FamilyScoresInRange(families, init, k);
    } else {
      FamilyScoreInRange(last.controls);
    }
  }

  /** Distinct family ids in the data give distinct ids in the scores. */
  lemma {:induction false} FamilyScoresDistinct(families: FamilyTable, data: seq<FamilyControls>)
    requires DistinctFamilyIds(data)
    ensures DistinctScoreIds(FamilyScoresOf(families, data))
  {
    if data != [] {
      var init, last := data[..|data| - 1], data[|data| - 1];
      assert forall i :: 0 <= i < |init| ==> init[i] == data[i];
      FamilyScoresDistinct(families, init);
      var fi := FamilyScoresOf(families, init);
      if last.familyId in families {
        assert !HasFamily(init, last.familyId);
        FamilyScoresOfIds(families, init, last.familyId);
        assert !HasScore(fi, last.familyId);
      }
    }
  }
}
