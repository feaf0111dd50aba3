# Cricket swing analysis and AuditPilot scoring, modelled in Dafny

The repository holds two back ends.

**Cricket batting analyser** (`backend/main.py`, `backend/app.py`). The analyser reads
a video frame by frame. It calibrates a pixels-per-metre scale from the first trusted
stump detection, and keeps three ten-sample trajectory histories (bat, left wrist,
right wrist). It detects bat-ball impacts under a 15-frame cooldown and rates each hit
by its peak swing speed. At the end it reports totals, the mean and maximum speed, and
a power category. The upload service checks the file name and builds the two saved
file names.

**AuditPilot compliance scorecard.** It has two copies of `AISecurityAssessment` that
differ only in their maturity rule. Both compute enhanced control scores, family means,
a weighted overall score, a maturity level and recommendations. `AIComplianceAnalyzer`
builds a few-shot prompt and turns the model's answer into a `base_score` and a
`justification`, with a fallback dictionary for every failure. The evidence collector
structures raw inputs into a fixed evidence dictionary. Three web endpoints validate
their JSON bodies and combine these parts:
- `analyze_and_score`;
- `predictive_modeling`, which applies a remediation plan to a copy of the scores and
  reports before and after;
- `behavioral_analysis`.

A script runs the same prediction on a fixed four-family example.

Modules, one per source unit:

| file | module | models |
|---|---|---|
| `common.dfy` | `Common` | Option/Result, sums and bounds of real sequences |
| `py_builtins.dfy` | `PyBuiltins` | `str.lower`, `strip`, `in` on strings, `replace`, `rsplit`, `round(x, 2)`, `str(int)` |
| `json.dfy` | `Json` | decoded JSON values, `dict.get`, the `in` operator, Python's numeric view |
| `cricket_analysis.dfy` | `CricketAnalysis` | `main.py`: categories, histories, peak speed, calibration, the impact check, the frame loop (class `Session`) |
| `video_upload.dfy` | `VideoUpload` | `backend/app.py`: `allowed_file` and the upload checks |
| `scoring.dfy` | `ScoreCard` | the scoring both `AISecurityAssessment` copies share |
| `assessment.dfy` | `Assessment` | `assessment.py`: the range-table maturity rule |
| `ai_analyzer.dfy` | `AiAnalyzer` | `ai_analyzer.py`: the threshold maturity rule, `_build_prompt`, `analyze_control_evidence` |
| `evidence_collector.dfy` | `EvidenceCollector` | `evidence_collector.py` |
| `remediation.dfy` | `Remediation` | the remediation loops of the endpoint and of the script (class `AssessmentTable`) |
| `audit_api.dfy` | `AuditApi` | the three endpoints of the AuditPilot `app.py` |
| `predictive_example.dfy` | `PredictiveExample` | `predictive_simulation_example.py` with its data |

Python floats are modelled as exact reals; `round(x, 2)` is round-half-even on the
exact value. Python `int` and `float` stay apart where Python's behaviour tells them
apart (`JInt`/`JFloat`).

### Edge behaviour the model follows

- A history's frame indices are non-decreasing. Several bat boxes of one frame are
  pushed with the same frame index (`main.py:243-247`). The pair speed skips a pair
  whose frame gap is not positive (`main.py:85-86`).
- `detect_impact` returns before the cooldown check when either detection list is
  empty (`main.py:156-161`).
- `get_power_hit_category` uses `>= 15` for "Timing Shot" (`main.py:63`), so a speed of
  exactly 15 is a "Timing Shot". The comparisons are strict, so a maximum of exactly
  80.0 is a "Timing Shot" too (`main.py:61`).
- `assessment.py` keeps a table of closed integer ranges (`assessment.py:45-50`,
  `78-83`). Scores strictly between 50 and 51, 70 and 71, 85 and 86, and above 100,
  are "Unknown" there (see Findings).

## Model

| member | source | states |
|---|---|---|
| CricketAnalysis.PowerHitCategory | backend/main.py:55-65 | each category holds exactly on its speed band: > 150, (120, 150], (80, 120], [15, 80], < 15 |
| CricketAnalysis.CategoryNamesDistinct | backend/main.py:55-65 | the five labels are pairwise different |
| CricketAnalysis.CategoryMonotone | backend/main.py:55-65 | a faster speed never gets a lower category |
| CricketAnalysis.CategoryBoundaries | backend/main.py:57-64 | 150, 120 and 80 fall to the lower category; 15 is a Timing Shot; sample speeds |
| CricketAnalysis.LastN | backend/main.py:39-42 | the kept suffix has length min(\|xs\|, n) |
| CricketAnalysis.Append | backend/main.py:39-42 | `append` on a maxlen-10 deque keeps the last ten of history plus the new sample |
| CricketAnalysis.AppendAll | backend/main.py:243-247 | successive appends never exceed the capacity |
| CricketAnalysis.LastNOfLastN | backend/main.py:39-42 | truncating first and then appending gives the same last n as appending first |
| CricketAnalysis.AppendAllKeepsLast | backend/main.py:39-42 | after any number of appends the history is the last ten of everything pushed |
| CricketAnalysis.ElevenPushesKeepLastTen | backend/main.py:39-42 | eleven pushes into an empty history evict exactly the first |
| CricketAnalysis.AppendKeepsHistoryOk | backend/main.py:247 | pushing a sample of the current frame keeps frames ordered, bounded by the counter, and within capacity |
| CricketAnalysis.AppendAllKeepsHistoryOk | backend/main.py:243-247 | pushing all of a frame's samples keeps the history invariant |
| CricketAnalysis.AppendAllSnoc | backend/main.py:243-247 | pushing one more sample is one more deque append |
| CricketAnalysis.PeakPrefixIsMaximum | backend/main.py:79-99 | the running maximum bounds every pair speed so far, is non-negative, and is attained or 0 |
| CricketAnalysis.CalculatePeakSpeed | backend/main.py:71-101 | result is the peak-speed function: 0 for < 2 samples or no scale, otherwise the maximum pair speed over pairs with a positive frame gap (attained, or 0); how that value scales is stated by PeakSpeedScales and PeakSpeedDoubles |
| CricketAnalysis.PairSpeedScales | backend/main.py:84-96 | doubling a pair's displacement doubles its km/h speed |
| CricketAnalysis.PairSpeedNonNegative | backend/main.py:84-96 | a pair with a positive frame gap has a speed, and it is never negative |
| CricketAnalysis.PeakSpeedScales | backend/main.py:71-101 | the peak speed of a two-sample history doubles when the displacement between the samples doubles |
| CricketAnalysis.DistanceDoubles | backend/main.py:67-69 | moving both points twice as far from the origin doubles their Euclidean distance |
| CricketAnalysis.EuclideanDoublesWithScale | backend/main.py:67-69 | the Euclidean distance doubles for every pair of points scaled by two |
| CricketAnalysis.PairSpeedDoubles | backend/main.py:84-96 | scaling both samples of a pair by two doubles its speed and keeps a skipped pair skipped |
| CricketAnalysis.PeakPrefixDoubles | backend/main.py:79-99 | scaling every sample by two doubles the running maximum after any number of pairs |
| CricketAnalysis.PeakSpeedDoubles | backend/main.py:71-101 | scaling every position of any history by two, frames and scale unchanged, doubles the peak speed |
| CricketAnalysis.DoubledDisplacement | backend/main.py:67-69 | the Euclidean distance of a doubled displacement is twice the distance |
| CricketAnalysis.SpeedFormulaScales | backend/main.py:94-96 | the px/s to km/h conversion is linear in the distance |
| CricketAnalysis.PeakSpeedExample | backend/main.py:71-101 | 10 px in one frame at 30 fps and 10 px/m is 108 km/h |
| CricketAnalysis.FirstStumpFrame | backend/main.py:116-125 | the found frame is the first within 150 frames with a stump taller than 20 px; None means there is none |
| CricketAnalysis.ScaleFromStumps | backend/main.py:113-128 | the scale the stump readings give is always positive |
| CricketAnalysis.SetupScalingFactor | backend/main.py:113-128 | scale is height / 0.711 of the first trusted stump in the first 150 frames, else 100.0; always positive |
| CricketAnalysis.ScaleIgnoresLateFrames | backend/main.py:116 | frames after the 150th never affect the scale |
| CricketAnalysis.NoStumpGivesDefault | backend/main.py:126-128 | no stump reading gives the default 100 px/m |
| CricketAnalysis.StumpHeights | backend/main.py:116-120 | the per-frame stump readings, in order |
| CricketAnalysis.ClosestScan | backend/main.py:163-170 | once any pair has been visited the loop holds a best pair |
| CricketAnalysis.ClosestPair | backend/main.py:163-170 | a best pair exists exactly when there are bats and balls |
| CricketAnalysis.NoBallsNoPair | backend/main.py:165-166 | with no ball the double loop never records a pair |
| CricketAnalysis.ClosestScanFirst | backend/main.py:163-170 | the loop's best so far is the distance and bat centre of a visited pair no farther than any visited pair and strictly nearer than every earlier one |
| CricketAnalysis.ClosestPairIsFirst | backend/main.py:163-170 | the pair the whole loop reports is the first pair, in loop order, at the smallest bat-ball distance |
| CricketAnalysis.ClosestBatToBall | backend/main.py:163-170 | the loop computes ClosestPair: the minimum distance over all bat-ball pairs and the bat centre of the first pair reaching it |
| CricketAnalysis.WristCandidate | backend/main.py:273-280 | the left wrist when confident, else the right wrist when confident, else none |
| CricketAnalysis.NearestPerson | backend/main.py:267-284 | the index settled on after n people is -1 or one of them with a confident wrist |
| CricketAnalysis.SelectBatsman | backend/main.py:267-284 | the loop computes NearestPerson: -1 iff nobody has a confident wrist; otherwise the first person at the smallest wrist-to-bat distance |
| CricketAnalysis.MaxSpeed | backend/main.py:337 | an upper bound of the logged speeds that one of them attains |
| CricketAnalysis.FinalStatistics | backend/main.py:328-340 | totals always; average, max and category exactly when a shot exists; max is round(max, 2); the category is taken from the rounded max |
| CricketAnalysis.SumSpeedsBounded | backend/main.py:336 | the sum of speeds lies between n·lo and n·hi |
| CricketAnalysis.StatisticsExample | backend/main.py:334-338 | speeds 50, 80, 65 give average 65, max 80, category Timing Shot |
| CricketAnalysis.SpacedPairwise | backend/main.py:160-161 | logged impacts are 15·(j-i) frames apart, for any pair |
| CricketAnalysis.SpacedAll | backend/main.py:160-161 | any two logged impacts are at least the 15-frame cooldown apart |
| CricketAnalysis.BatSamples | backend/main.py:243-247 | one sample per bat centre, all with the current frame index |
| CricketAnalysis.StartTracker | backend/main.py:211-229 | the state the frame loop starts in: the calibrated scale, empty histories and log, frame 0 |
| CricketAnalysis.ImpactCheck | backend/main.py:153-204 | detect_impact on a state: no hit leaves it unchanged; a hit appends one event (this frame, round(speed, 2), its category, the closest pair's bat centre), restarts the cooldown, counts the shot and clears the three histories |
| CricketAnalysis.Batsman | backend/main.py:265-284 | no bat centre means no batsman; otherwise an index into the people or -1 |
| CricketAnalysis.PushBats | backend/main.py:242-247 | the bat loop keeps every history within the deque capacity |
| CricketAnalysis.PushBatsmanWrists | backend/main.py:286-297 | pushing the batsman's confident wrists keeps every history within the deque capacity |
| CricketAnalysis.FramePushes | backend/main.py:236-297 | the pushes of a frame advance the counter by one and leave scale, log and cooldown marker alone |
| CricketAnalysis.FrameStep | backend/main.py:231-300 | one loop iteration advances the counter by one and keeps the scale and the history bounds |
| CricketAnalysis.RunFrames | backend/main.py:231-318 | the loop over n frames advances the counter by n and keeps the scale and the history bounds |
| CricketAnalysis.Analysis | backend/main.py:206-318 | the analysis of a video counts exactly its frames |
| CricketAnalysis.RunFramesPrefix | backend/main.py:231-300 | one more frame of the video is one more loop iteration |
| CricketAnalysis.FrameWithoutBall | backend/main.py:156-157 | a frame without a ball logs nothing; a frame only ever appends to the log, at most one event |
| CricketAnalysis.NoBallNoImpact | backend/main.py:156-157 | a video in which no ball is ever seen logs no impact |
| CricketAnalysis.RunFramesImpactFrames | backend/main.py:184-195 | the loop only appends to the log, and each new event carries a frame number within the frames processed |
| CricketAnalysis.Session.constructor | backend/main.py:33-50 | the reset state: no scale, empty histories, cooldown marker -16, no impacts |
| CricketAnalysis.Session.ResetAnalysisState | backend/main.py:33-47 | re-establishes the reset state |
| CricketAnalysis.Session.State | backend/main.py:155 | a valid session's fields form a state within the deque capacity, with a positive scale once one is set |
| CricketAnalysis.Session.CurrentImpactSpeed | backend/main.py:174-180 | the largest of the two wrist peak speeds and the bat peak speed (TrackerSpeed), never negative |
| CricketAnalysis.Session.RecordImpact | backend/main.py:183-201 | logs the event with round(speed, 2) and its category, starts the cooldown, counts the shot, clears all three histories |
| CricketAnalysis.Session.RecordedImpactInRange | backend/main.py:182-192 | an accepted speed rounds into [15, 250] and is never "N/A" |
| CricketAnalysis.Session.DetectImpact | backend/main.py:153-204 | the new state is ImpactCheck of the old; a hit is reported iff ImpactHit: bats and balls present, cooldown elapsed, closest pair under the threshold and 15 < speed < 250; skipped calls return no distance, others the first closest pair's distance |
| CricketAnalysis.Session.PushBatCenters | backend/main.py:242-247 | the new state is PushBats of the old: the bat history is the deque after appending every bat centre of the frame |
| CricketAnalysis.Session.TrackBatsmanWrists | backend/main.py:265-297 | the chosen batsman is Batsman (nearest person to the first bat, -1 without a bat), at the smallest wrist distance; the new state is PushBatsmanWrists of the old |
| CricketAnalysis.Session.PushWrists | backend/main.py:287-297 | each wrist history grows by the wrist when it is confident; nothing else changes |
| CricketAnalysis.Session.PushFrame | backend/main.py:236-297 | the new state is FramePushes of the old: counter +1, bat centres and the batsman's confident wrists pushed |
| CricketAnalysis.Session.ProcessFrame | backend/main.py:231-300 | the new state is FrameStep of the old; an impact is reported iff ImpactHit holds after this frame's pushes |
| CricketAnalysis.Session.ProcessFrames | backend/main.py:231-318 | the new state is RunFrames of the old over every frame in order |
| CricketAnalysis.Session.AnalyzeVideo | backend/main.py:206-340 | the final state, impact log and histories included, is Analysis of the frames; the statistics are those of the log; logged impacts pairwise ≥ 15 frames apart and within the video |
| VideoUpload.AllowedFile | backend/app.py:21-22 | true iff a '.' exists and the lower-cased text after the last '.' is mp4, avi, mov or mkv |
| VideoUpload.LastDotUnique | backend/app.py:22 | `rsplit('.', 1)` splits at the only index that can hold the last dot |
| VideoUpload.AllowedFileAccepts | backend/app.py:11-22 | upper-case extensions and names with several dots are accepted |
| VideoUpload.AllowedFileRejects | backend/app.py:11-22 | another extension after the last dot, a trailing dot and a name without a dot are rejected |
| VideoUpload.UploadNames | backend/app.py:27-42 | "No video file provided", "No selected file" or "Unsupported file type" in that order; names only for an allowed file name |
| VideoUpload.SavedNamesShape | backend/app.py:39-42 | both names start with the timestamp, the output adds "processed_", the two differ |
| PyBuiltins.Lower | backend/app.py:22 | `str.lower`: same length, each character lowered (ASCII letters and the Kelvin sign) |
| PyBuiltins.Round2 | auditpilot_BACKEND/backend/auditpilot/core/ai_analyzer.py:118 | round(x, 2) is within half a cent of x |
| PyBuiltins.Round2Monotone | auditpilot_BACKEND/backend/auditpilot/core/ai_analyzer.py:118 | rounding preserves order |
| PyBuiltins.Round2OfCents | auditpilot_BACKEND/backend/auditpilot/core/ai_analyzer.py:118 | a value already in cents is unchanged |
| PyBuiltins.Round2Idempotent | auditpilot_BACKEND/backend/auditpilot/core/ai_analyzer.py:118 | rounding twice is rounding once |
| Json.Get | auditpilot_BACKEND/backend/app.py:179-180 | `dict.get`: the stored value when the key is present, else the default |
| Json.PyIn | auditpilot_BACKEND/backend/app.py:167 | `in` on a dict is key membership; on a number or None it raises |
| ScoreCard.ControlFamiliesFacts | auditpilot_BACKEND/backend/auditpilot/core/assessment.py:20-38 | every weight is positive; AC and SC carry their weights and names |
| ScoreCard.Multiplier | auditpilot_BACKEND/backend/auditpilot/core/assessment.py:39-44 | between 1.0 and 1.5; 1.0 for any unlisted level |
| ScoreCard.ControlScore | auditpilot_BACKEND/backend/auditpilot/core/assessment.py:52-55 | base × multiplier when that is ≤ 100, else 100 |
| ScoreCard.ControlScoreAtLeastBase | auditpilot_BACKEND/backend/auditpilot/core/assessment.py:52-55 | an enhancement never lowers a base in [0, 100] and never exceeds 100 |
| ScoreCard.ControlScoreExamples | auditpilot_BACKEND/backend/auditpilot/core/assessment.py:39-55 | 80 moderate is 88, 80 transformational capped at 100, 60 significant is 75, unknown level is 1.0 |
| ScoreCard.ControlScores | auditpilot_BACKEND/backend/auditpilot/core/assessment.py:61 | the enhanced score of every control, in order |
| ScoreCard.FamilyScoreBetween | auditpilot_BACKEND/backend/auditpilot/core/assessment.py:57-62 | the family mean lies within any bounds of its control scores |
| ScoreCard.FamilyScoreInRange | auditpilot_BACKEND/backend/auditpilot/core/assessment.py:57-62 | bases in [0, 100] give a family score in [0, 100] |
| ScoreCard.Weights | auditpilot_BACKEND/backend/auditpilot/core/assessment.py:68-72 | each entry's weight, 0 for an unknown family |
| ScoreCard.WeightedScores | auditpilot_BACKEND/backend/auditpilot/core/assessment.py:68-72 | score × weight of each entry |
| ScoreCard.CalculateOverallScore | auditpilot_BACKEND/backend/auditpilot/core/assessment.py:64-75 | the loop computes the weight-normalised mean over known families, 0 with none |
| ScoreCard.TotalWeightPositive | auditpilot_BACKEND/backend/auditpilot/core/assessment.py:75 | the total weight is positive iff some entry names a known family |
| ScoreCard.OverallScoreNoKnownFamily | auditpilot_BACKEND/backend/auditpilot/core/assessment.py:75 | no known family gives 0 |
| ScoreCard.WeightedScoresDominated | auditpilot_BACKEND/backend/auditpilot/core/assessment.py:68-72 | each weighted score lies between lo and hi times its weight |
| ScoreCard.OverallScoreBetween | auditpilot_BACKEND/backend/auditpilot/core/assessment.py:64-75 | the overall score lies within any bounds of the known family scores |
| ScoreCard.OverallScoreInRange | auditpilot_BACKEND/backend/auditpilot/core/assessment.py:64-75 | family scores in [0, 100] give an overall score in [0, 100] |
| ScoreCard.OverallScoreIgnoresUnknown | auditpilot_BACKEND/backend/auditpilot/core/assessment.py:69 | an entry for an unknown family does not change the overall score |
| ScoreCard.FamilyScoresOf | auditpilot_BACKEND/backend/auditpilot/core/assessment.py:87-91 | only known families are scored, never more entries than families |
| ScoreCard.CollectFamilyScores | auditpilot_BACKEND/backend/auditpilot/core/assessment.py:87-91 | the loop builds exactly the family scores |
| ScoreCard.FamilyScoresOfIds | auditpilot_BACKEND/backend/auditpilot/core/assessment.py:88-91 | an id is scored iff it is a known family present in the data |
| ScoreCard.FamilyScoreOfEntry | auditpilot_BACKEND/backend/auditpilot/core/assessment.py:90-91 | each scored entry is the mean of its own family's controls |
| ScoreCard.FamilyScoresDistinct | auditpilot_BACKEND/backend/auditpilot/core/assessment.py:87-91 | distinct family ids give distinct scored ids |
| ScoreCard.FamilyScoresInRange | auditpilot_BACKEND/backend/auditpilot/core/assessment.py:87-91 | bases in [0, 100] give family scores in [0, 100] |
| ScoreCard.RecommendationWordingFacts | auditpilot_BACKEND/backend/auditpilot/core/assessment.py:109-124 | each tier's block is three lines; the Foundational and Advanced headings and the focus header are the source's texts |
| ScoreCard.Tier | auditpilot_BACKEND/backend/auditpilot/core/assessment.py:109-124 | tier 0..3 exactly on ≤ 50, (50, 70], (70, 85], > 85 |
| ScoreCard.TierBlock | auditpilot_BACKEND/backend/auditpilot/core/assessment.py:109-124 | the block of the score's tier |
| ScoreCard.LowScoring | auditpilot_BACKEND/backend/auditpilot/core/assessment.py:128 | a sub-multiset of the entries, all below 75 |
| ScoreCard.LowScoringComplete | auditpilot_BACKEND/backend/auditpilot/core/assessment.py:128 | every entry below 75 is selected |
| ScoreCard.LowScoringNone | auditpilot_BACKEND/backend/auditpilot/core/assessment.py:128 | no entry below 75 selects nothing |
| ScoreCard.InsertByScore | auditpilot_BACKEND/backend/auditpilot/core/assessment.py:127-130 | stable insertion keeps the list sorted and adds exactly e |
| ScoreCard.SortByScore | auditpilot_BACKEND/backend/auditpilot/core/assessment.py:127-130 | sorted ascending by score and a permutation of the input |
| ScoreCard.InsertByScoreStable | auditpilot_BACKEND/backend/auditpilot/core/assessment.py:127-130 | an inserted entry goes after the entries of its score already present, which keep their order |
| ScoreCard.SortByScoreStable | auditpilot_BACKEND/backend/auditpilot/core/assessment.py:127-130 | sorted() is stable: for every score, the entries with that score keep their input order |
| ScoreCard.SortByScoreStableExample | auditpilot_BACKEND/backend/auditpilot/core/assessment.py:127-130 | entries with equal scores keep their order |
| ScoreCard.FocusLines | auditpilot_BACKEND/backend/auditpilot/core/assessment.py:134-136 | one line per entry; fails iff some id is not a known family |
| ScoreCard.FocusLinesContent | auditpilot_BACKEND/backend/auditpilot/core/assessment.py:135-136 | line k names family k's display name, id and score |
| ScoreCard.FocusLinesFirstUnknown | auditpilot_BACKEND/backend/auditpilot/core/assessment.py:135 | the error is the KeyError of the first unknown id |
| ScoreCard.FocusLinesStep | auditpilot_BACKEND/backend/auditpilot/core/assessment.py:134-136 | appending the next line extends a correct prefix |
| ScoreCard.FocusLinesValue | auditpilot_BACKEND/backend/auditpilot/core/assessment.py:134-136 | lines equal to FocusLine per entry are the result |
| ScoreCard.GenerateRecommendations | auditpilot_BACKEND/backend/auditpilot/core/assessment.py:104-138 | the tier block, then the focus header and the focus lines when some family is below 75; the KeyError of an unknown family otherwise |
| ScoreCard.FocusAreaLines | auditpilot_BACKEND/backend/auditpilot/core/assessment.py:133-136 | the loop gives FocusLines: one line per focus area, or the KeyError of the first unknown id |
| ScoreCard.FocusAreasAreLowScoring | auditpilot_BACKEND/backend/auditpilot/core/assessment.py:127-130 | focus areas are sorted, drawn from the scores, and exactly the entries below 75 |
| ScoreCard.FocusAreasKnown | auditpilot_BACKEND/backend/auditpilot/core/assessment.py:127-135 | focus areas of known families are known |
| ScoreCard.RecommendationsOk | auditpilot_BACKEND/backend/auditpilot/core/assessment.py:104-138 | with known families the recommendations never raise |
| ScoreCard.FocusedLayout | auditpilot_BACKEND/backend/auditpilot/core/assessment.py:104-138 | the tier block, then the focus header and one line per focus area when there is one |
| ScoreCard.NoLowFamiliesOnlyTier | auditpilot_BACKEND/backend/auditpilot/core/assessment.py:132 | no family below 75 gives the tier block alone |
| ScoreCard.IndexOfName | auditpilot_BACKEND/backend/auditpilot/core/assessment.py:100 | index of a display name, -1 iff absent |
| ScoreCard.NamedScoresRenameKeys | auditpilot_BACKEND/backend/auditpilot/core/assessment.py:100 | with distinct names, entry k is family k's display name with round(score, 2) |
| ScoreCard.ReportRecommendations | auditpilot_BACKEND/backend/auditpilot/core/assessment.py:101 | the report's recommendations are what generate_recommendations returns |
| ScoreCard.GenerateAssessmentReport | auditpilot_BACKEND/backend/auditpilot/core/assessment.py:85-102 | the report built from the family scores, their weighted overall score, its maturity level and the recommendations |
| ScoreCard.ReportOverallInRange | auditpilot_BACKEND/backend/auditpilot/core/assessment.py:93-98 | bases in [0, 100] give a reported overall score in [0, 100] |
| Assessment.FirstMatchingLevelIsFirst | auditpilot_BACKEND/backend/auditpilot/core/assessment.py:80-83 | "Unknown" iff no range holds the score; otherwise the first range that does |
| Assessment.DetermineMaturityLevel | auditpilot_BACKEND/backend/auditpilot/core/assessment.py:78-83 | each level exactly on its closed range; "Unknown" below 0, in the three gaps and above 100 |
| Assessment.MaturityLevelsSearch | auditpilot_BACKEND/backend/auditpilot/core/assessment.py:45-50 | the search over the table, range by range |
| Assessment.GapScoresAreUnknown | auditpilot_BACKEND/backend/auditpilot/core/assessment.py:78-83 | 85.43, 50.5, 70.01 and 100.5 are "Unknown"; 50, 51 and 100 are not |
| Assessment.LevelAgreesWithTier | auditpilot_BACKEND/backend/auditpilot/core/assessment.py:78-124 | a found level agrees with the recommendation tier |
| Assessment.GenerateAssessmentReport | auditpilot_BACKEND/backend/auditpilot/core/assessment.py:85-102 | the report with the range-table level of the unrounded score |
| AiAnalyzer.DetermineMaturityLevel | auditpilot_BACKEND/backend/auditpilot/core/ai_analyzer.py:93-103 | Advanced > 85, Mature (70, 85], Developing (50, 70], Basic [0, 50], Unknown < 0 |
| AiAnalyzer.LevelAgreesWithTier | auditpilot_BACKEND/backend/auditpilot/core/ai_analyzer.py:93-144 | every non-negative score has a level, and it is the recommendation tier |
| AiAnalyzer.MaturityRulesCompared | auditpilot_BACKEND/backend/auditpilot/core/ai_analyzer.py:93-103 | the two rules agree wherever the range table finds a level; they differ exactly on the gaps and above 100 |
| AiAnalyzer.GenerateAssessmentReport | auditpilot_BACKEND/backend/auditpilot/core/ai_analyzer.py:105-122 | the report with the threshold level of the unrounded score |
| AiAnalyzer.ExampleObjects | auditpilot_BACKEND/backend/auditpilot/core/ai_analyzer.py:208-220 | a list of dicts yields those dicts in order |
| AiAnalyzer.ObjectItems | auditpilot_BACKEND/backend/auditpilot/core/ai_analyzer.py:219-220 | succeeds iff every item is a dict, keeping order |
| AiAnalyzer.ExamplesParts | auditpilot_BACKEND/backend/auditpilot/core/ai_analyzer.py:219-228 | four lines per example |
| AiAnalyzer.ExamplesPartsAt | auditpilot_BACKEND/backend/auditpilot/core/ai_analyzer.py:225-228 | example k's block sits at lines 4k .. 4k+3 |
| AiAnalyzer.BuildPrompt | auditpilot_BACKEND/backend/auditpilot/core/ai_analyzer.py:199-237 | the header, the numbered example blocks and the footer joined by newlines; the ValueError or TypeError of a missing, empty or unhashable control |
| AiAnalyzer.AppendExamples | auditpilot_BACKEND/backend/auditpilot/core/ai_analyzer.py:218-228 | the loop appends exactly one numbered four-line block per example, in file order |
| AiAnalyzer.PromptPartsOf | auditpilot_BACKEND/backend/auditpilot/core/ai_analyzer.py:199-237 | for a found control the parts are header, example blocks and footer |
| AiAnalyzer.HeaderFooterShape | auditpilot_BACKEND/backend/auditpilot/core/ai_analyzer.py:210-237 | six header lines with the control id in the third; four footer lines with the quoted evidence in the third |
| AiAnalyzer.ExampleQuotesEvidence | auditpilot_BACKEND/backend/auditpilot/core/ai_analyzer.py:220-226 | when str() of a string is that string, the line after example k's heading is `Evidence: "<evidence>"` for a string evidence |
| AiAnalyzer.ExampleHeads | auditpilot_BACKEND/backend/auditpilot/core/ai_analyzer.py:222-224 | after a six-line header, example k's block opens with "EXAMPLE k+1:" at line 6 + 4k |
| AiAnalyzer.PromptLayout | auditpilot_BACKEND/backend/auditpilot/core/ai_analyzer.py:210-237 | 10 + 4·n lines, the control id on line 3, "EXAMPLE i:" headers, the quoted evidence next to last |
| AiAnalyzer.UnknownControlRejected | auditpilot_BACKEND/backend/auditpilot/core/ai_analyzer.py:203-205 | a missing or empty control is the ValueError naming it |
| AiAnalyzer.PromptQuotesEvidence | auditpilot_BACKEND/backend/auditpilot/core/ai_analyzer.py:233 | the prompt contains the evidence in double quotes |
| AiAnalyzer.ErrorResult | auditpilot_BACKEND/backend/auditpilot/core/ai_analyzer.py:280-283 | a dict of exactly base_score 0 and justification |
| AiAnalyzer.AnalyzeControlEvidence | auditpilot_BACKEND/backend/auditpilot/core/ai_analyzer.py:239-283 | raises iff the evidence is not a non-blank string; otherwise the error dict or an answer holding both keys |
| AiAnalyzer.UnknownControlFallsBack | auditpilot_BACKEND/backend/auditpilot/core/ai_analyzer.py:255-283 | an unknown control returns the error dict with the ValueError text |
| AiAnalyzer.UnparsableResponseFallsBack | auditpilot_BACKEND/backend/auditpilot/core/ai_analyzer.py:265-283 | an unparsable answer returns the error dict |
| AiAnalyzer.MissingKeyFallsBack | auditpilot_BACKEND/backend/auditpilot/core/ai_analyzer.py:272-273 | an answer lacking a key returns the "missing required keys" error dict |
| AiAnalyzer.WellFormedAnswerReturned | auditpilot_BACKEND/backend/auditpilot/core/ai_analyzer.py:268-275 | a parsed dict with both keys is returned unchanged |
| AiAnalyzer.LeadingTicks | auditpilot_BACKEND/backend/auditpilot/core/ai_analyzer.py:265 | the length of the leading run of backticks |
| AiAnalyzer.TicksFence | auditpilot_BACKEND/backend/auditpilot/core/ai_analyzer.py:265 | a text starts with a fence iff it has at least three leading backticks |
| AiAnalyzer.RemoveFencesTicks | auditpilot_BACKEND/backend/auditpilot/core/ai_analyzer.py:265 | removing fences leaves the leading backticks modulo 3 |
| AiAnalyzer.RemoveFencesLeavesNone | auditpilot_BACKEND/backend/auditpilot/core/ai_analyzer.py:265 | after `replace("```", "")` no fence remains anywhere |
| AiAnalyzer.NoFenceAfterCleanup | auditpilot_BACKEND/backend/auditpilot/core/ai_analyzer.py:265 | the cleaned answer contains no fence |
| EvidenceCollector.WeightTimes | auditpilot_BACKEND/backend/auditpilot/core/evidence_collector.py:154 | weight × value for a number, TypeError otherwise |
| EvidenceCollector.Clamp | auditpilot_BACKEND/backend/auditpilot/core/evidence_collector.py:156 | int 0 below 0, int 1 above 1, the value itself in [0, 1] |
| EvidenceCollector.AssessDocumentQuality | auditpilot_BACKEND/backend/auditpilot/core/evidence_collector.py:141-156 | 0 for falsy details, else the clamped weighted sum of the three factors, or the TypeError of a non-numeric factor |
| EvidenceCollector.SumFactors | auditpilot_BACKEND/backend/auditpilot/core/evidence_collector.py:152-154 | the loop gives the weighted sum over the factors, or the first factor's TypeError |
| EvidenceCollector.QualityFailsFrom | auditpilot_BACKEND/backend/auditpilot/core/evidence_collector.py:152-154 | a factor that raises makes the whole sum raise with its error |
| EvidenceCollector.QualityInRange | auditpilot_BACKEND/backend/auditpilot/core/evidence_collector.py:156 | a reported quality is a number in [0, 1] |
| EvidenceCollector.QualityFormula | auditpilot_BACKEND/backend/auditpilot/core/evidence_collector.py:146-156 | numeric factors give clamp(0.4c + 0.3a + 0.3u) |
| EvidenceCollector.EmptyDetailsScoreZero | auditpilot_BACKEND/backend/auditpilot/core/evidence_collector.py:143-144 | falsy details score 0 |
| EvidenceCollector.SeveritiesJson | auditpilot_BACKEND/backend/auditpilot/core/evidence_collector.py:184 | a dict with exactly the keys high, medium, low |
| EvidenceCollector.TallyAddsOne | auditpilot_BACKEND/backend/auditpilot/core/evidence_collector.py:187-188 | the total grows by one iff the severity is high, medium or low |
| EvidenceCollector.CalculateSeverityDistribution | auditpilot_BACKEND/backend/auditpilot/core/evidence_collector.py:182-189 | the per-severity tally of the incidents, or the error of the first incident without `.get` |
| EvidenceCollector.TallyFailsFrom | auditpilot_BACKEND/backend/auditpilot/core/evidence_collector.py:185-188 | an incident that raises makes the whole tally raise with its error |
| EvidenceCollector.TallyAllCounts | auditpilot_BACKEND/backend/auditpilot/core/evidence_collector.py:185-188 | at most one count per incident, exactly one when every severity is known |
| EvidenceCollector.TallyAllOk | auditpilot_BACKEND/backend/auditpilot/core/evidence_collector.py:185-186 | succeeds iff every incident's severity can be read |
| EvidenceCollector.SeverityExamples | auditpilot_BACKEND/backend/auditpilot/core/evidence_collector.py:186-188 | "HIGH" counts as high, a missing severity as low, "critical" not at all |
| EvidenceCollector.DocumentEntries | auditpilot_BACKEND/backend/auditpilot/core/evidence_collector.py:42-81 | the keys are the five document sections |
| EvidenceCollector.DocumentationDefaults | auditpilot_BACKEND/backend/auditpilot/core/evidence_collector.py:47-51 | exists defaults to False, last_updated to None |
| EvidenceCollector.ControlAssessmentDefaults | auditpilot_BACKEND/backend/auditpilot/core/evidence_collector.py:158-180 | succeeds iff the details are a dict (else the AttributeError of .get); exactly effectiveness, validation_evidence and testing_results, each the input's value, else 0, False and False |
| EvidenceCollector.ImplementationOk | auditpilot_BACKEND/backend/auditpilot/core/evidence_collector.py:83-95 | succeeds iff each of technical, administrative and physical is absent or a dict |
| EvidenceCollector.ImplementationKeys | auditpilot_BACKEND/backend/auditpilot/core/evidence_collector.py:83-95 | exactly the eight implementation keys |
| EvidenceCollector.ImplementationSections | auditpilot_BACKEND/backend/auditpilot/core/evidence_collector.py:86-88 | the three control entries are the assessments of their sections, an absent section assessed as {} |
| EvidenceCollector.ImplementationDefaults | auditpilot_BACKEND/backend/auditpilot/core/evidence_collector.py:89-93 | the five counters are the input's values, each defaulting to 0 |
| EvidenceCollector.AutomationDefaults | auditpilot_BACKEND/backend/auditpilot/core/evidence_collector.py:107-115 | exactly the five automation keys, each {'level': v} with v the input's value, else 0 |
| EvidenceCollector.MonitoringDefaults | auditpilot_BACKEND/backend/auditpilot/core/evidence_collector.py:117-123 | exactly coverage, alerting and response_time, each the input's value, else 0 |
| EvidenceCollector.UpdateDefaults | auditpilot_BACKEND/backend/auditpilot/core/evidence_collector.py:133-139 | exactly frequency, coverage and validation, each the input's value, else 0 |
| EvidenceCollector.RiskDefaults | auditpilot_BACKEND/backend/auditpilot/core/evidence_collector.py:97-105 | exactly the five risk fields; each is the input's value when given, else 0.5 for threat level, vulnerability score and impact rating, None for the last assessment and "unknown" for the assessor |
| EvidenceCollector.IncidentCount | auditpilot_BACKEND/backend/auditpilot/core/evidence_collector.py:125-131 | history is the incident list, total_count its length, a three-key distribution |
| EvidenceCollector.KindListed | auditpilot_BACKEND/backend/auditpilot/core/evidence_collector.py:10-18 | every evidence type is in the table |
| EvidenceCollector.KindNamesDistinct | auditpilot_BACKEND/backend/auditpilot/core/evidence_collector.py:10-18 | type names are distinct and none is "metadata" |
| EvidenceCollector.EmptyEvidence | auditpilot_BACKEND/backend/auditpilot/core/evidence_collector.py:191-202 | a dict; {} for any type without a template |
| EvidenceCollector.CollectControlEvidence | auditpilot_BACKEND/backend/auditpilot/core/evidence_collector.py:20-40 | each type's collector result or template in table order, plus the metadata; the first collector error otherwise |
| EvidenceCollector.CollectEntries | auditpilot_BACKEND/backend/auditpilot/core/evidence_collector.py:27-31 | the loop gives one entry per type, collector when present and template otherwise, or the first collector error |
| EvidenceCollector.EntriesFailFrom | auditpilot_BACKEND/backend/auditpilot/core/evidence_collector.py:27-31 | a collector that raises makes the whole collection raise with its error |
| EvidenceCollector.EntriesKeys | auditpilot_BACKEND/backend/auditpilot/core/evidence_collector.py:27-31 | the entries' keys are the collected type names |
| EvidenceCollector.EntriesValues | auditpilot_BACKEND/backend/auditpilot/core/evidence_collector.py:27-31 | each type's entry is its collector's or its template's |
| EvidenceCollector.EntriesFail | auditpilot_BACKEND/backend/auditpilot/core/evidence_collector.py:27-31 | collection fails iff some present type's collector raises |
| EvidenceCollector.CollectedKeys | auditpilot_BACKEND/backend/auditpilot/core/evidence_collector.py:20-40 | the keys are the seven types plus metadata, carrying the control id |
| EvidenceCollector.MissingTypeGetsTemplate | auditpilot_BACKEND/backend/auditpilot/core/evidence_collector.py:30-31 | an absent type gets its empty template |
| EvidenceCollector.NoInputsNeverFail | auditpilot_BACKEND/backend/auditpilot/core/evidence_collector.py:27-31 | no type present means no failure |
| Remediation.RowIndex | auditpilot_BACKEND/backend/app.py:216 | the family's position, -1 iff absent |
| Remediation.Items | auditpilot_BACKEND/backend/app.py:221 | a non-empty iteration comes from a list |
| Remediation.WithBaseScore | auditpilot_BACKEND/backend/app.py:222 | sets base_score and keeps every other key |
| Remediation.FirstMatch | auditpilot_BACKEND/backend/app.py:221-223 | the first control comparing equal, every earlier one unequal; NotFound iff all unequal |
| Remediation.FindFirstMatch | auditpilot_BACKEND/backend/app.py:221-223 | the loop with `break` finds FirstMatch |
| Remediation.FirstMatchAt | auditpilot_BACKEND/backend/app.py:221-223 | the search stops at the first control not comparing unequal |
| Remediation.RemediationsFailFromPrefix | auditpilot_BACKEND/backend/app.py:217-223 | once a prefix of the remediations raises, the family raises |
| Remediation.PlanFailsFromPrefix | auditpilot_BACKEND/backend/app.py:215-223 | once a prefix of the plan raises, the plan raises |
| Remediation.OnlyFirstMatchChanges | auditpilot_BACKEND/backend/app.py:219-223 | only the first matching control changes, taking new_score |
| Remediation.AbsentFamilyIgnored | auditpilot_BACKEND/backend/app.py:216 | a plan item for an absent family has no effect |
| Remediation.ApplyPlanKeepsIds | auditpilot_BACKEND/backend/app.py:214-223 | the plan never adds, drops or reorders families |
| Remediation.UnmatchedTargetNoEffect | auditpilot_BACKEND/backend/app.py:221-223 | a target matching no control leaves the family unchanged |
| Remediation.SimulatedControls | auditpilot_BACKEND/backend/examples/predictive_simulation_example.py:56-59 | succeeds iff every control succeeds; each control is updated pointwise |
| Remediation.SimulatedRows | auditpilot_BACKEND/backend/examples/predictive_simulation_example.py:55-59 | keeps the number of families |
| Remediation.SimulatedRowsEffect | auditpilot_BACKEND/backend/examples/predictive_simulation_example.py:55-59 | succeeds iff every family succeeds; each family keeps its id and takes its updated value |
| Remediation.SimulatedControlEffect | auditpilot_BACKEND/backend/examples/predictive_simulation_example.py:57-59 | a planned id takes new_base_score, any other control is kept; other keys unchanged |
| Remediation.SimulatedRowsStep | auditpilot_BACKEND/backend/examples/predictive_simulation_example.py:55-59 | the loop extended by one family |
| Remediation.SimulationFailsAt | auditpilot_BACKEND/backend/examples/predictive_simulation_example.py:55-59 | the loop raises at a family it cannot process |
| Remediation.AssessmentTable.constructor | auditpilot_BACKEND/backend/examples/predictive_simulation_example.py:53 | the table holds the given items |
| Remediation.AssessmentTable.ApplyRemediationPlan | auditpilot_BACKEND/backend/app.py:215-223 | succeeds iff the plan applies; the rows become the applied plan |
| Remediation.AssessmentTable.ApplyToEveryMatch | auditpilot_BACKEND/backend/examples/predictive_simulation_example.py:55-59 | succeeds iff the simulation does; the rows become the simulated table |
| Remediation.SimulateRow | auditpilot_BACKEND/backend/examples/predictive_simulation_example.py:56-59 | the loop on one family gives its simulated value |
| Remediation.SimulateFamily | auditpilot_BACKEND/backend/examples/predictive_simulation_example.py:56-59 | the loop on one family's controls gives their simulated list |
| Remediation.RemediateFamily | auditpilot_BACKEND/backend/app.py:217-223 | the loop on one family applies its remediations in order |
| Remediation.PredictScores | auditpilot_BACKEND/backend/examples/predictive_simulation_example.py:53-59 | a fresh copy is updated and the baseline is left unchanged |
| Remediation.ControlInputOf | auditpilot_BACKEND/backend/auditpilot/core/ai_analyzer.py:110 | a control dict with both keys gives its numeric base_score |
| Remediation.ControlInputs | auditpilot_BACKEND/backend/auditpilot/core/ai_analyzer.py:110 | every control converts, pointwise, or the family raises |
| Remediation.AssessmentData | auditpilot_BACKEND/backend/auditpilot/core/ai_analyzer.py:108-111 | only known families reach the scorer |
| Remediation.UnknownFamiliesIgnored | auditpilot_BACKEND/backend/auditpilot/core/ai_analyzer.py:109 | an unknown family is skipped, even when malformed |
| Remediation.AssessmentDataAllKnown | auditpilot_BACKEND/backend/auditpilot/core/ai_analyzer.py:108-111 | known, well-formed families all reach the scorer in order |
| AuditApi.KeysMissing | auditpilot_BACKEND/backend/app.py:167 | on a dict: true iff some required key is absent |
| AuditApi.Rejected | auditpilot_BACKEND/backend/app.py:167-168 | an empty body is rejected; a dict is rejected iff a required key is absent |
| AuditApi.MultiplierOf | auditpilot_BACKEND/backend/auditpilot/core/ai_analyzer.py:69 | raises iff the level is unhashable; a string level gets its multiplier |
| AuditApi.FinalScore | auditpilot_BACKEND/backend/auditpilot/core/ai_analyzer.py:67-70 | defined iff base is a number and the level hashable; value min(base × multiplier, 100) |
| AuditApi.FinalScoreIsControlScore | auditpilot_BACKEND/backend/app.py:183 | the endpoint's final score is the control score, at most 100 |
| AuditApi.AnalyzeAndScore | auditpilot_BACKEND/backend/app.py:159-195 | 400 and 500 carry the endpoint's fixed messages |
| AuditApi.ScoreKeysPresent | auditpilot_BACKEND/backend/app.py:167-168 | a dict holding the three keys passes validation |
| AuditApi.ScoreRequestValidated | auditpilot_BACKEND/backend/app.py:167-168 | an empty body or a missing key is a 400 |
| AuditApi.InvalidEvidenceIsServerError | auditpilot_BACKEND/backend/app.py:175-195 | invalid evidence is a 500 |
| AuditApi.ScoredAnswer | auditpilot_BACKEND/backend/app.py:175-190 | a 200 with the three keys; base_score from the answer; final_score the control score |
| AuditApi.FallbackScoresZero | auditpilot_BACKEND/backend/app.py:175-190 | the analyzer's error dict scores base 0 and final 0.0 |
| AuditApi.BehavioralAnalysis | auditpilot_BACKEND/backend/app.py:244-266 | fixed 400/500 messages; a 200 carries the analysis of log_evidence against BA-1 |
| AuditApi.BehavioralRequestValidated | auditpilot_BACKEND/backend/app.py:251-252 | an empty body, or a dict lacking log_evidence, is a 400 with the endpoint's message |
| AuditApi.BehavioralOutcomes | auditpilot_BACKEND/backend/app.py:251-262 | 400 iff log_evidence is missing; 500 iff it is not a non-blank string |
| AuditApi.ModelRequestValidated | auditpilot_BACKEND/backend/app.py:204-205 | an empty body, or a dict lacking baseline_scores or remediation_plan, is a 400 with the endpoint's message |
| AuditApi.ModelKeysPresent | auditpilot_BACKEND/backend/app.py:204-205 | a dict holding both keys passes validation and is never answered with a 400 |
| AuditApi.PredictiveModelingOf | auditpilot_BACKEND/backend/app.py:197-241 | 400 and 500 carry the endpoint's fixed messages |
| AuditApi.PredictiveModeling | auditpilot_BACKEND/backend/app.py:197-241 | the handler's statements on a copied table give the reply value |
| AuditApi.ModelingReportsBothTables | auditpilot_BACKEND/backend/app.py:211-237 | a 200 reports the baseline and the plan-applied table |
| AuditApi.UnmatchedPlanChangesNothing | auditpilot_BACKEND/backend/app.py:215-216 | a plan naming no family of the table leaves it unchanged |
| AuditApi.UnmatchedPlanSameSummaries | auditpilot_BACKEND/backend/app.py:211-237 | such a plan reports identical before and after summaries |
| PredictiveExample.ControlRecord | auditpilot_BACKEND/backend/examples/predictive_simulation_example.py:27-30 | a control dict has exactly control_id, base_score, enhancement |
| PredictiveExample.PlannedRecord | auditpilot_BACKEND/backend/examples/predictive_simulation_example.py:57-59 | a planned control takes the new base score |
| PredictiveExample.UnplannedRecord | auditpilot_BACKEND/backend/examples/predictive_simulation_example.py:57-58 | an unplanned control is kept |
| PredictiveExample.OneControlSimulated | auditpilot_BACKEND/backend/examples/predictive_simulation_example.py:56-59 | the loop on a one-control family |
| PredictiveExample.PlannedFamily | auditpilot_BACKEND/backend/examples/predictive_simulation_example.py:56-59 | a one-control family with a planned id is updated |
| PredictiveExample.UnplannedFamily | auditpilot_BACKEND/backend/examples/predictive_simulation_example.py:56-59 | a one-control family with an unplanned id is kept |
| PredictiveExample.FourFamiliesSimulated | auditpilot_BACKEND/backend/examples/predictive_simulation_example.py:55-59 | the loop on four families |
| PredictiveExample.PlanEntries | auditpilot_BACKEND/backend/examples/predictive_simulation_example.py:38-42 | the plan has the three entries |
| PredictiveExample.TableSimulated | auditpilot_BACKEND/backend/examples/predictive_simulation_example.py:53-59 | 20/90/15/30 becomes 85/90/70/75 |
| PredictiveExample.PlanApplied | auditpilot_BACKEND/backend/examples/predictive_simulation_example.py:26-59 | the baseline becomes the predicted table |
| PredictiveExample.ExampleFamiliesKnown | auditpilot_BACKEND/backend/auditpilot/core/ai_analyzer.py:36-52 | AC, IA, SI and AU are known with their weights |
| PredictiveExample.RecordInput | auditpilot_BACKEND/backend/auditpilot/core/ai_analyzer.py:110 | a control dict reaches the scorer as its numbers |
| PredictiveExample.FourFamiliesInputs | auditpilot_BACKEND/backend/auditpilot/core/ai_analyzer.py:108-111 | four known families reach the scorer in order |
| PredictiveExample.TableInputs | auditpilot_BACKEND/backend/auditpilot/core/ai_analyzer.py:108-111 | the example table's scoring input |
| PredictiveExample.OneControlFamilyScore | auditpilot_BACKEND/backend/auditpilot/core/ai_analyzer.py:72-77 | one control's family score is its control score |
| PredictiveExample.FamilyScoresAllKnown | auditpilot_BACKEND/backend/auditpilot/core/ai_analyzer.py:108-111 | all-known data is scored family by family |
| PredictiveExample.ExampleFamilyScores | auditpilot_BACKEND/backend/auditpilot/core/ai_analyzer.py:67-77 | AC × 1.1; IA 112.5 capped at 100; SI and AU unchanged |
| PredictiveExample.ExampleOverall | auditpilot_BACKEND/backend/auditpilot/core/ai_analyzer.py:79-90 | the weighted mean over a total weight of 0.30 |
| PredictiveExample.ExampleScores | auditpilot_BACKEND/backend/examples/predictive_simulation_example.py:48-62 | unrounded overall 1291/30 before, 2563/30 after |
| PredictiveExample.ExampleRounding | auditpilot_BACKEND/backend/auditpilot/core/ai_analyzer.py:118 | these round to 43.03 and 85.43 |
| PredictiveExample.BeforeReport | auditpilot_BACKEND/backend/examples/predictive_simulation_example.py:48 | 43.03, Level 1 - Basic |
| PredictiveExample.AfterReport | auditpilot_BACKEND/backend/examples/predictive_simulation_example.py:62 | 85.43, Level 4 - Advanced |
| PredictiveExample.PredictiveSimulation | auditpilot_BACKEND/backend/examples/predictive_simulation_example.py:11-84 | the plan is applied; the reports are 43.03/Basic and 85.43/Advanced; the improvement is 42.40; the range table would say Unknown |

## Left out

- Video decoding and writing, the YOLO detectors, drawing the overlay, printing and the
  `cv2` window (`main.py:1-19`, `103-111`, `130-151`, `215-224`, `302-325`). Each
  frame's detections are an input (`FrameDetections`). `detect_stumps` is a per-frame
  stump height.
- `math.sqrt`: the distance function is a parameter of the session. `IsEuclidean`
  pins it down where a proof needs it.
- The upload service's file saving, the call to the analyser, the existence check and
  the URL (`backend/app.py:44-85`). The timestamp and `secure_filename` are parameters.
- Flask, CORS, logging and `request.get_json`: a handler takes the decoded body.
- The "details" text of a 500 reply: a 500 carries only its fixed error message.
- `AuditApi.PredictiveModeling` takes the two dictionaries' items as sequences tied
  to the body by its preconditions. A JSON dictionary's key order is the order of the
  text, which a decoded map does not keep.
- The Gemini client, `json.loads`, `json.dumps` and `str()` are parameters of the
  analyzer. Loading `controls.json` is left out: the analyzer is given the loaded
  object.
- `datetime.now()` in the reports, the evidence metadata and the upload names: a
  report leaves out its `assessment_date`; the evidence metadata and the upload names
  take the time as a parameter.
- Floating point: scores are exact reals, so float rounding error (e.g. 0.1 + 0.2) is
  not modelled. `round(x, 2)` is round-half-even on the exact value.
- The text of exceptions raised inside the remediation loops. A failure is `None`, and
  the endpoint answers 500 whatever the text is.
- Remediation.AssessmentTable.ApplyRemediationPlan: a failing plan leaves the table in
  an unspecified state. The endpoint then answers 500 and never reads it.
- Remediation.PyEq: numbers compare by value only at the top level. Inside lists and
  dicts the model compares structurally, so `[1] == [1.0]`, true in Python, is false
  in the model.
- Remediation.PredictScores: `copy.deepcopy` is a fresh table of the same rows. The
  endpoint's shallow `copy()` shares control dicts with the baseline; both copies are
  modelled as a fresh table, since the "before" report is computed before any update.
- `AuditApi.Summary` reports an empty table's overall score as the int 0
  (`ai_analyzer.py:90`) and every other score as a float.
- `behavioral_analysis_example.py`, `compliance_assessment_example.py`,
  `full_assessment_example.py`, `test_analyzer.py` and `test_assessment.py` are not
  part of this model.

## Findings

| source | as written | input that shows it | evidently intended | confidence | as-written member | corrected member |
|---|---|---|---|---|---|---|
| auditpilot_BACKEND/backend/auditpilot/core/assessment.py:45-50 | maturity levels are closed integer ranges 0-50, 51-70, 71-85, 86-100 checked with `min <= s <= max` | an overall score of 85.43 (the example script's prediction), 50.5, 70.01 or 100.5 gives "Unknown" | every score in [0, 100] gets the level of its recommendation tier, as the threshold version in ai_analyzer.py:93-103 does ("corrected, inclusive ranges") | high, not executed | Assessment.GapScoresAreUnknown | AiAnalyzer.LevelAgreesWithTier |
