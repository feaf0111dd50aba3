/**
 * Swing-speed and impact engine of the cricket batting analyser.
 *
 * Per-frame detections (bat centres, ball centres, pose keypoints and the
 * stump height seen by the reference detector) are inputs; the detectors
 * and the video I/O are not part of the model.  A Session owns the state
 * the analyser keeps in module globals: the pixels-per-metre scale, three
 * bounded trajectory histories, the frame counter, the cooldown marker and
 * the impact log.
 *
 * Euclidean distance needs a square root, which has no executable form on
 * `real`; the session is therefore given its distance function `dist`, and
 * IsEuclidean says what that function must be where a proof needs it.
 */
module CricketAnalysis {
  import opened Common
  import opened PyBuiltins

  const StumpHeightMeters: real := 0.711
  const ImpactCooldownFrames: int := 15
  const MinSpeedThreshold: real := 15.0
  const MaxSpeedThreshold: real := 250.0
  /** maxlen of every trajectory deque. */
  const HistoryCapacity: nat := 10
  /** Calibration looks at no more than this many frames. */
  const CalibrationFrames: nat := 150
  /** A stump detection must be taller than this (pixels) to set the scale. */
  const MinStumpHeight: real := 20.0
  const DefaultPixelsPerMeter: real := 100.0
  /** A pose keypoint counts only above this confidence. */
  const WristConfidence: real := 0.5
  const LeftWristIndex: nat := 9
  const RightWristIndex: nat := 10

  datatype Point = Point(x: real, y: real)

  /** One (frame index, position) entry of a trajectory history. */
  datatype Sample = Sample(frame: int, pos: Point)

  /** A pose landmark: position and confidence. */
  datatype Keypoint = Keypoint(pos: Point, conf: real)

  /** One entry of processing_stats['impacts']; the category label is CategoryName(category). */
  datatype ImpactEvent = ImpactEvent(frame: int, speedKmh: real, category: Category, location: Point)

  /** The dictionary analyze_video returns; the last three keys are optional. */
  datatype FinalStats = FinalStats(
    totalFrames: int,
    totalShots: int,
    impacts: seq<ImpactEvent>,
    averageSpeedKmh: Option<real>,
    maxSpeedKmh: Option<real>,
    powerHitCategory: Option<Category>)

  /** What the detectors report for one frame of the video. */
  datatype FrameDetections = FrameDetections(
    stumpHeight: Option<real>,
    batCenters: seq<Point>,
    ballCenters: seq<Point>,
    people: seq<seq<Keypoint>>)

  type Metric = (Point, Point) -> real

  /** dist is the Euclidean distance: non-negative, and its square is dx^2 + dy^2. */
  ghost predicate IsEuclidean(dist: Metric)
  {
    forall p, q :: dist(p, q) >= 0.0 && dist(p, q) * dist(p, q) == (p.x - q.x) * (p.x - q.x) + (p.y - q.y) * (p.y - q.y)
  }

  // -----------------------------------------------------------------------
  // Power category

  /** The five power-hit categories, weakest first. */
  datatype Category = NotApplicable | TimingShot | WellTimedPower | Excellent | BrutalPower

  /** The label get_power_hit_category returns for each category. */
  function CategoryName(c: Category): string
  {
    match c
    case BrutalPower => "Brutal Power"
    case Excellent => "Excellent"
    case WellTimedPower => "Well-Timed Power"
    case TimingShot => "Timing Shot"
    case NotApplicable => "N/A"
  }

  /** Different categories carry different labels, so the label identifies the category. */
  lemma CategoryNamesDistinct(c: Category, d: Category)
    requires c != d
    ensures CategoryName(c) != CategoryName(d)
  {
  }

  /** get_power_hit_category: five tiers, strict above 80, 120 and 150, inclusive at 15. */
  function PowerHitCategory(speedKmh: real): (c: Category)
    ensures c == BrutalPower <==> speedKmh > 150.0
    ensures c == Excellent <==> 120.0 < speedKmh <= 150.0
    ensures c == WellTimedPower <==> 80.0 < speedKmh <= 120.0
    ensures c == TimingShot <==> MinSpeedThreshold <= speedKmh <= 80.0
    ensures c == NotApplicable <==> speedKmh < MinSpeedThreshold
  {
    if speedKmh > 150.0 then BrutalPower
    else if speedKmh > 120.0 then Excellent
    else if speedKmh > 80.0 then WellTimedPower
    else if speedKmh >= MinSpeedThreshold then TimingShot
    else NotApplicable
  }

  /** Position of a category in the tier order, "N/A" lowest. */
  function CategoryRank(c: Category): nat
  {
    match c
    case BrutalPower => 4
    case Excellent => 3
    case WellTimedPower => 2
    case TimingShot => 1
    case NotApplicable => 0
  }

  /** A faster hit never gets a lower tier. */
  lemma CategoryMonotone(s: real, t: real)
    requires s <= t
    ensures CategoryRank(PowerHitCategory(s)) <= CategoryRank(PowerHitCategory(t))
  {
  }

  /** The thresholds themselves fall to the lower tier, except 15 which is a Timing Shot. */
  lemma CategoryBoundaries()
    ensures PowerHitCategory(160.0) == BrutalPower && PowerHitCategory(150.0) == Excellent
    ensures PowerHitCategory(130.0) == Excellent && PowerHitCategory(120.0) == WellTimedPower
    ensures PowerHitCategory(90.0) == WellTimedPower && PowerHitCategory(80.0) == TimingShot
    ensures PowerHitCategory(16.0) == TimingShot && PowerHitCategory(15.0) == TimingShot
    ensures PowerHitCategory(5.0) == NotApplicable
  {
  }

  // -----------------------------------------------------------------------
  // Trajectory histories: deque(maxlen=10)

  /** The last n elements of xs (all of xs when it is shorter). */
  function LastN<T>(xs: seq<T>, n: nat): (r: seq<T>)
    ensures |r| == if |xs| <= n then |xs| else n
  {
    if |xs| <= n then xs else xs[|xs| - n..]
  }

  /** deque.append on a full-capacity deque: append, then evict the oldest. */
  function Append(h: seq<Sample>, s: Sample): (r: seq<Sample>)
    requires |h| <= HistoryCapacity
    ensures r == LastN(h + [s], HistoryCapacity)
  {
    if |h| < HistoryCapacity then h + [s] else h[1..] + [s]
  }

  /** Appending the samples ss one after the other. */
  function AppendAll(h: seq<Sample>, ss: seq<Sample>): (r: seq<Sample>)
    requires |h| <= HistoryCapacity
    ensures |r| <= HistoryCapacity
    decreases |ss|
  {
    if ss == [] then h else AppendAll(Append(h, ss[0]), ss[1..])
  }

  lemma {:induction false} LastNOfLastN<T>(xs: seq<T>, ys: seq<T>, n: nat)
    ensures LastN(LastN(xs, n) + ys, n) == LastN(xs + ys, n)
  {
    if |xs| > n {
      var k := |xs| - n;
      assert xs + ys == xs[..k] + (xs[k..] + ys);
    }
  }

  /** However many samples are pushed, the history is the last ten of everything pushed. */
  lemma {:induction false} AppendAllKeepsLast(h: seq<Sample>, ss: seq<Sample>)
    requires |h| <= HistoryCapacity
    ensures AppendAll(h, ss) == LastN(h + ss, HistoryCapacity)
    decreases |ss|
  {
    if ss == [] {
      assert h + ss == h;
    } else {
      var h1 := Append(h, ss[0]);
      assert AppendAll(h, ss) == AppendAll(h1, ss[1..]);
      AppendAllKeepsLast(h1, ss[1..]);
      LastNOfLastN(h + [ss[0]], ss[1..], HistoryCapacity);
      assert h + [ss[0]] + ss[1..] == h + ss;
    }
  }

  /** Pushing eleven samples into an empty history keeps the last ten, oldest evicted. */
  lemma {:induction false} ElevenPushesKeepLastTen(ss: seq<Sample>)
    requires |ss| == 11
    ensures AppendAll([], ss) == ss[1..]
  {
    AppendAllKeepsLast([], ss);
    assert [] + ss == ss;
  }

  /** Frame indices in the history never decrease. */
  ghost predicate FramesOrdered(h: seq<Sample>)
  {
    forall i, j :: 0 <= i < j < |h| ==> h[i].frame <= h[j].frame
  }

  /** No sample is later than frame f. */
  ghost predicate FramesUpTo(h: seq<Sample>, f: int)
  {
    forall i :: 0 <= i < |h| ==> h[i].frame <= f
  }

  /** Invariant of each of the three histories at frame counter f. */
  ghost predicate HistoryOk(h: seq<Sample>, f: int)
  {
    |h| <= HistoryCapacity && FramesOrdered(h) && FramesUpTo(h, f)
  }

  /** Pushing a sample of the current frame keeps a history well-formed. */
  lemma {:induction false} AppendKeepsHistoryOk(h: seq<Sample>, s: Sample, f: int)
    requires HistoryOk(h, f) && s.frame == f
    ensures HistoryOk(Append(h, s), f)
  {
  }

  // -----------------------------------------------------------------------
  // Peak speed

  /**
   * Speed in km/h between two consecutive samples; None for a pair whose
   * frame gap is not positive (several bat boxes in one frame share its index).
   */
  function PairSpeed(a: Sample, b: Sample, fps: real, ppm: real, dist: Metric): Option<real>
    requires fps > 0.0 && ppm > 0.0
  {
    var frameDiff := b.frame - a.frame;
    if frameDiff <= 0 then None
    else
      var timeInterval := frameDiff as real / fps;
      var pixelSpeedPerSec := dist(a.pos, b.pos) / timeInterval;
      var meterSpeedPerSec := pixelSpeedPerSec / ppm;
      Some(meterSpeedPerSec * 3.6)
  }

  /** The running maximum after the first k consecutive pairs of h. */
  function PeakPrefix(h: seq<Sample>, k: nat, fps: real, ppm: real, dist: Metric): real
    requires fps > 0.0 && ppm > 0.0 && k < |h|
  {
    if k == 0 then 0.0
    else
      var best := PeakPrefix(h, k - 1, fps, ppm, dist);
      var v := PairSpeed(h[k - 1], h[k], fps, ppm, dist);
      if v.Some? && v.value > best then v.value else best
  }

  /** calculate_peak_speed as a value: 0 for short histories or an unset scale. */
  function PeakSpeed(h: seq<Sample>, fps: real, ppm: Option<real>, dist: Metric): real
    requires fps > 0.0 && (ppm.Some? ==> ppm.value > 0.0)
  {
    if |h| < 2 || ppm.None? then 0.0 else PeakPrefix(h, |h| - 1, fps, ppm.value, dist)
  }

  /** The pair speed of pair i, or 0 when that pair is skipped. */
  function PairSpeedOrZero(h: seq<Sample>, i: nat, fps: real, ppm: real, dist: Metric): real
    requires fps > 0.0 && ppm > 0.0 && i + 1 < |h|
  {
    var v := PairSpeed(h[i], h[i + 1], fps, ppm, dist);
    if v.Some? then v.value else 0.0
  }

  /** The running maximum is the maximum seen so far: an upper bound that is attained or 0. */
  lemma {:induction false} PeakPrefixIsMaximum(h: seq<Sample>, k: nat, fps: real, ppm: real, dist: Metric)
    requires fps > 0.0 && ppm > 0.0 && k < |h|
    ensures PeakPrefix(h, k, fps, ppm, dist) >= 0.0
    ensures forall i :: 0 <= i < k ==> PairSpeedOrZero(h, i, fps, ppm, dist) <= PeakPrefix(h, k, fps, ppm, dist)
    ensures PeakPrefix(h, k, fps, ppm, dist) == 0.0
         || exists i :: 0 <= i < k && PairSpeedOrZero(h, i, fps, ppm, dist) == PeakPrefix(h, k, fps, ppm, dist)
  {
    if k > 0 {
      PeakPrefixIsMaximum(h, k - 1, fps, ppm, dist);
      var best := PeakPrefix(h, k - 1, fps, ppm, dist);
      var last := PairSpeedOrZero(h, k - 1, fps, ppm, dist);
      assert PeakPrefix(h, k, fps, ppm, dist) == MaxReal(best, last);
      if last > best {
        assert PairSpeedOrZero(h, k - 1, fps, ppm, dist) == PeakPrefix(h, k, fps, ppm, dist);
      }
    }
  }

  /**
   * calculate_peak_speed: the largest km/h value over consecutive pairs with a
   * positive frame gap, 0 for fewer than two samples or an unset scale.
   */
  method CalculatePeakSpeed(history: seq<Sample>, fps: real, ppm: Option<real>, dist: Metric) returns (maxSpeed: real)
    requires fps > 0.0 && (ppm.Some? ==> ppm.value > 0.0)
    ensures maxSpeed == PeakSpeed(history, fps, ppm, dist)
    ensures maxSpeed >= 0.0
    ensures (|history| < 2 || ppm.None?) ==> maxSpeed == 0.0
    ensures ppm.Some? ==> forall i :: 0 <= i < |history| - 1 ==> PairSpeedOrZero(history, i, fps, ppm.value, dist) <= maxSpeed
    ensures ppm.Some? && maxSpeed != 0.0 ==>
      exists i :: 0 <= i < |history| - 1 && PairSpeedOrZero(history, i, fps, ppm.value, dist) == maxSpeed
  {
    if |history| < 2 || ppm.None? {
      return 0.0;
    }
    var pixelsPerMeter := ppm.value;
    maxSpeed := 0.0;
    var i := 0;
    while i < |history| - 1
      invariant 0 <= i <= |history| - 1
      invariant maxSpeed == PeakPrefix(history, i, fps, pixelsPerMeter, dist)
    {
      var frameDiff := history[i + 1].frame - history[i].frame;
      if frameDiff > 0 {
        var timeInterval := frameDiff as real / fps;
        var pixelSpeedPerSec := dist(history[i].pos, history[i + 1].pos) / timeInterval;
        var meterSpeedPerSec := pixelSpeedPerSec / pixelsPerMeter;
        var kmh := meterSpeedPerSec * 3.6;
        if kmh > maxSpeed {
          maxSpeed := kmh;
        }
      }
      i := i + 1;
    }
    PeakPrefixIsMaximum(history, |history| - 1, fps, pixelsPerMeter, dist);
  }

  lemma ProductPositive(a: real, b: real)
    requires a > 0.0 && b > 0.0
    ensures a * b > 0.0
  {
  }

  /** Two non-negative numbers with the same square are equal. */
  lemma SquareRootUnique(d: real, r: real)
    requires d >= 0.0 && r >= 0.0 && d * d == r * r
    ensures d == r
  {
    if d != r {
      var lo, hi := if d < r then d else r, if d < r then r else d;
      assert (hi - lo) * (hi + lo) == hi * hi - lo * lo;
      ProductPositive(hi - lo, hi + lo);
    }
  }

  /** Doubling the displacement of a pair, with the same frames and scale, doubles its speed. */
  lemma PairSpeedScales(dist: Metric, f1: int, f2: int, p: Point, q: Point, fps: real, ppm: real)
    requires IsEuclidean(dist) && fps > 0.0 && ppm > 0.0 && f2 > f1
    ensures var q2 := Point(p.x + 2.0 * (q.x - p.x), p.y + 2.0 * (q.y - p.y));
      PairSpeed(Sample(f1, p), Sample(f2, q2), fps, ppm, dist).value
        == 2.0 * PairSpeed(Sample(f1, p), Sample(f2, q), fps, ppm, dist).value
  {
    DoubledDisplacement(dist, p, q);
    var t := (f2 - f1) as real / fps;
    assert t > 0.0;
    SpeedFormulaScales(dist(p, q), t, ppm);
  }

  /** Doubling a displacement doubles the Euclidean distance. */
  lemma DoubledDisplacement(dist: Metric, p: Point, q: Point)
    requires IsEuclidean(dist)
    ensures dist(p, Point(p.x + 2.0 * (q.x - p.x), p.y + 2.0 * (q.y - p.y))) == 2.0 * dist(p, q)
  {
    var q2 := Point(p.x + 2.0 * (q.x - p.x), p.y + 2.0 * (q.y - p.y));
    var d, d2 := dist(p, q), dist(p, q2);
    var dx, dy := p.x - q.x, p.y - q.y;
    assert d * d == dx * dx + dy * dy && d >= 0.0;
    assert d2 * d2 == (2.0 * dx) * (2.0 * dx) + (2.0 * dy) * (2.0 * dy) && d2 >= 0.0;
    SquaresDoubled(d, dx, dy);
    SquareRootUnique(d2, 2.0 * d);
  }

  lemma SquaresDoubled(d: real, dx: real, dy: real)
    requires d * d == dx * dx + dy * dy
    ensures (2.0 * d) * (2.0 * d) == (2.0 * dx) * (2.0 * dx) + (2.0 * dy) * (2.0 * dy)
  {
  }

  lemma SpeedFormulaScales(d: real, t: real, ppm: real)
    requires t > 0.0 && ppm > 0.0
    ensures (2.0 * d) / t / ppm * 3.6 == 2.0 * (d / t / ppm * 3.6)
  {
    assert (2.0 * d) / t == 2.0 * (d / t);
    assert 2.0 * (d / t) / ppm == 2.0 * (d / t / ppm);
  }

  /** A pair with a positive frame gap under a Euclidean metric has a non-negative speed. */
  lemma PairSpeedNonNegative(a: Sample, b: Sample, fps: real, ppm: real, dist: Metric)
    requires IsEuclidean(dist) && fps > 0.0 && ppm > 0.0 && b.frame > a.frame
    ensures PairSpeed(a, b, fps, ppm, dist).Some? && PairSpeed(a, b, fps, ppm, dist).value >= 0.0
  {
    var t := (b.frame - a.frame) as real / fps;
    assert t > 0.0;
    assert dist(a.pos, b.pos) >= 0.0;
    assert dist(a.pos, b.pos) / t >= 0.0;
    assert dist(a.pos, b.pos) / t / ppm >= 0.0;
  }

  /**
   * The peak speed of a two-sample history: doubling the displacement between
   * the samples doubles the reported peak.
   */
  lemma PeakSpeedScales(dist: Metric, f1: int, f2: int, p: Point, q: Point, fps: real, ppm: real)
    requires IsEuclidean(dist) && fps > 0.0 && ppm > 0.0 && f2 > f1
    ensures var q2 := Point(p.x + 2.0 * (q.x - p.x), p.y + 2.0 * (q.y - p.y));
      PeakSpeed([Sample(f1, p), Sample(f2, q2)], fps, Some(ppm), dist)
        == 2.0 * PeakSpeed([Sample(f1, p), Sample(f2, q)], fps, Some(ppm), dist)
  {
    var q2 := Point(p.x + 2.0 * (q.x - p.x), p.y + 2.0 * (q.y - p.y));
    var h, h2 := [Sample(f1, p), Sample(f2, q)], [Sample(f1, p), Sample(f2, q2)];
    PairSpeedScales(dist, f1, f2, p, q, fps, ppm);
    PairSpeedNonNegative(h[0], h[1], fps, ppm, dist);
    PairSpeedNonNegative(h2[0], h2[1], fps, ppm, dist);
    assert PeakPrefix(h, 0, fps, ppm, dist) == 0.0 && PeakPrefix(h2, 0, fps, ppm, dist) == 0.0;
    assert PeakSpeed(h, fps, Some(ppm), dist) == PairSpeed(h[0], h[1], fps, ppm, dist).value;
    assert PeakSpeed(h2, fps, Some(ppm), dist) == PairSpeed(h2[0], h2[1], fps, ppm, dist).value;
  }

  /** Every position of a history moved twice as far from the origin, frames unchanged. */
  function Doubled(h: seq<Sample>): (r: seq<Sample>)
    ensures |r| == |h|
    ensures forall i :: 0 <= i < |h| ==> r[i].frame == h[i].frame
  {
    seq(|h|, i requires 0 <= i < |h| => Sample(h[i].frame, Twice(h[i].pos)))
  }

  /** Scaling both points by two about the origin doubles their Euclidean distance. */
  lemma DistanceDoubles(dist: Metric, p: Point, q: Point)
    requires IsEuclidean(dist)
    ensures dist(Point(2.0 * p.x, 2.0 * p.y), Point(2.0 * q.x, 2.0 * q.y)) == 2.0 * dist(p, q)
  {
    var d, d2 := dist(p, q), dist(Point(2.0 * p.x, 2.0 * p.y), Point(2.0 * q.x, 2.0 * q.y));
    var dx, dy := p.x - q.x, p.y - q.y;
    assert d * d == dx * dx + dy * dy && d >= 0.0;
    assert 2.0 * p.x - 2.0 * q.x == 2.0 * dx && 2.0 * p.y - 2.0 * q.y == 2.0 * dy;
    assert d2 * d2 == (2.0 * dx) * (2.0 * dx) + (2.0 * dy) * (2.0 * dy) && d2 >= 0.0;
    SquaresDoubled(d, dx, dy);
    SquareRootUnique(d2, 2.0 * d);
  }

  /** A metric under which scaling both points by two about the origin doubles their distance. */
  ghost predicate DoublesWithScale(dist: Metric)
  {
    forall p: Point, q: Point {:trigger dist(Twice(p), Twice(q))} :: dist(Twice(p), Twice(q)) == 2.0 * dist(p, q)
  }

  /** A point moved twice as far from the origin. */
  function Twice(p: Point): Point
  {
    Point(2.0 * p.x, 2.0 * p.y)
  }

  /** The Euclidean distance scales with its points. */
  lemma EuclideanDoublesWithScale(dist: Metric)
    requires IsEuclidean(dist)
    ensures DoublesWithScale(dist)
  {
    forall p: Point, q: Point
      ensures dist(Twice(p), Twice(q)) == 2.0 * dist(p, q)
    {
      DistanceDoubles(dist, p, q);
    }
  }

  /** Doubling both positions of a pair about the origin doubles its speed, and keeps a skipped pair skipped. */
  lemma PairSpeedDoubles(a: Sample, b: Sample, fps: real, ppm: real, dist: Metric)
    requires DoublesWithScale(dist) && fps > 0.0 && ppm > 0.0
    ensures var v := PairSpeed(a, b, fps, ppm, dist);
      var v2 := PairSpeed(Sample(a.frame, Twice(a.pos)), Sample(b.frame, Twice(b.pos)), fps, ppm, dist);
      v2.Some? == v.Some? && (v.Some? ==> v2.value == 2.0 * v.value)
  {
    if b.frame > a.frame {
      assert dist(Twice(a.pos), Twice(b.pos)) == 2.0 * dist(a.pos, b.pos);
      SpeedFormulaScales(dist(a.pos, b.pos), (b.frame - a.frame) as real / fps, ppm);
    }
  }

  /** Doubling every displacement of a history doubles each running maximum. */
  lemma {:induction false} PeakPrefixDoubles(h: seq<Sample>, k: nat, fps: real, ppm: real, dist: Metric)
    requires DoublesWithScale(dist) && fps > 0.0 && ppm > 0.0 && k < |h|
    ensures PeakPrefix(Doubled(h), k, fps, ppm, dist) == 2.0 * PeakPrefix(h, k, fps, ppm, dist)
  {
    if k > 0 {
      PeakPrefixDoubles(h, k - 1, fps, ppm, dist);
      var h2 := Doubled(h);
      assert h2[k - 1] == Sample(h[k - 1].frame, Twice(h[k - 1].pos));
      assert h2[k] == Sample(h[k].frame, Twice(h[k].pos));
      PairSpeedDoubles(h[k - 1], h[k], fps, ppm, dist);
      RunningMaxDoubles(PeakPrefix(h, k - 1, fps, ppm, dist), PeakPrefix(h2, k - 1, fps, ppm, dist),
        PairSpeed(h[k - 1], h[k], fps, ppm, dist), PairSpeed(h2[k - 1], h2[k], fps, ppm, dist));
    }
  }

  /** One step of the running maximum commutes with doubling. */
  lemma RunningMaxDoubles(best: real, best2: real, v: Option<real>, v2: Option<real>)
    requires best2 == 2.0 * best && v2.Some? == v.Some? && (v.Some? ==> v2.value == 2.0 * v.value)
    ensures (if v2.Some? && v2.value > best2 then v2.value else best2)
      == 2.0 * (if v.Some? && v.value > best then v.value else best)
  {
  }

  /**
   * Doubling every displacement of any history, frames and scale unchanged,
   * doubles the peak speed that calculate_peak_speed reports, under any metric
   * that scales with its points (a Euclidean one does, EuclideanDoublesWithScale).
   */
  lemma PeakSpeedDoubles(h: seq<Sample>, fps: real, ppm: real, dist: Metric)
    requires DoublesWithScale(dist) && fps > 0.0 && ppm > 0.0
    ensures PeakSpeed(Doubled(h), fps, Some(ppm), dist) == 2.0 * PeakSpeed(h, fps, Some(ppm), dist)
  {
    if |h| >= 2 {
      PeakPrefixDoubles(h, |h| - 1, fps, ppm, dist);
    }
  }

  /** The worked example: 10 px in one frame at 30 fps and 10 px/m is 108 km/h. */
  lemma PeakSpeedExample(dist: Metric)
    requires IsEuclidean(dist)
    ensures PeakSpeed([Sample(0, Point(0.0, 0.0)), Sample(1, Point(10.0, 0.0))], 30.0, Some(10.0), dist) == 108.0
  {
    var d := dist(Point(0.0, 0.0), Point(10.0, 0.0));
    assert d >= 0.0 && d * d == 10.0 * 10.0;
    SquareRootUnique(d, 10.0);
  }

  // -----------------------------------------------------------------------
  // Calibration

  /** A stump detection that is tall enough to trust. */
  predicate IsStumpReading(height: Option<real>)
  {
    height.Some? && height.value > MinStumpHeight
  }

  /** Index of the first trusted stump reading at or after i, within the first 150 frames. */
  function FirstStumpFrame(heights: seq<Option<real>>, i: nat): (r: Option<nat>)
    ensures r.Some? ==>
      && i <= r.value < |heights| && r.value < CalibrationFrames
      && IsStumpReading(heights[r.value])
      && forall j :: i <= j < r.value ==> !IsStumpReading(heights[j])
    ensures r.None? ==> forall j :: i <= j < |heights| && j < CalibrationFrames ==> !IsStumpReading(heights[j])
    decreases |heights| - i
  {
    if i >= |heights| || i >= CalibrationFrames then None
    else if IsStumpReading(heights[i]) then Some(i)
    else FirstStumpFrame(heights, i + 1)
  }

  /** The scale setup_scaling_factor settles on for the stump heights of the frames it reads. */
  function ScaleFromStumps(heights: seq<Option<real>>): (ppm: real)
    ensures ppm > 0.0
  {
    match FirstStumpFrame(heights, 0)
    case Some(k) => heights[k].value / StumpHeightMeters
    case None => DefaultPixelsPerMeter
  }

  /**
   * setup_scaling_factor: scan at most 150 frames (fewer when the video ends)
   * and take height / 0.711 from the first stump taller than 20 px, else 100.
   */
  method SetupScalingFactor(heights: seq<Option<real>>) returns (ppm: real)
    ensures ppm == ScaleFromStumps(heights)
    ensures ppm > 0.0
    ensures (forall j :: 0 <= j < |heights| && j < CalibrationFrames ==> !IsStumpReading(heights[j])) ==> ppm == DefaultPixelsPerMeter
    ensures forall k ::
      (0 <= k < |heights| && k < CalibrationFrames && IsStumpReading(heights[k])
       && (forall j :: 0 <= j < k ==> !IsStumpReading(heights[j]))) ==> ppm == heights[k].value / StumpHeightMeters
  {
    var i := 0;
    while i < CalibrationFrames
      invariant 0 <= i <= CalibrationFrames
      invariant forall j :: 0 <= j < i && j < |heights| ==> !IsStumpReading(heights[j])
      invariant FirstStumpFrame(heights, 0) == FirstStumpFrame(heights, i)
    {
      if i >= |heights| {
        break;  // the frame could not be read
      }
      var stumpHeight := heights[i];
      if stumpHeight.Some? && stumpHeight.value > MinStumpHeight {
        ppm := stumpHeight.value / StumpHeightMeters;
        return;
      }
      i := i + 1;
    }
    ppm := DefaultPixelsPerMeter;
  }

  /** Only the first 150 frames can influence the scale. */
  lemma {:induction false} ScaleIgnoresLateFrames(heights: seq<Option<real>>, later: seq<Option<real>>, i: nat)
    requires |heights| >= CalibrationFrames
    ensures FirstStumpFrame(heights, i) == FirstStumpFrame(heights[..CalibrationFrames] + later, i)
    decreases CalibrationFrames - i
  {
    var other := heights[..CalibrationFrames] + later;
    if i < CalibrationFrames {
      assert other[i] == heights[i];
      ScaleIgnoresLateFrames(heights, later, i + 1);
    }
  }

  /** With no usable stump in the search horizon the default scale is used. */
  lemma NoStumpGivesDefault(n: nat)
    ensures ScaleFromStumps(seq(n, _ => None)) == DefaultPixelsPerMeter
  {
    var hs: seq<Option<real>> := seq(n, _ => None);
    assert forall j :: 0 <= j < |hs| ==> !IsStumpReading(hs[j]);
  }

  // -----------------------------------------------------------------------
  // Nearest bat-ball pair and batsman association

  /** (i, j) is the first bat-ball pair, in loop order, at the smallest distance. */
  ghost predicate IsFirstClosestPair(bats: seq<Point>, balls: seq<Point>, dist: Metric, i: int, j: int)
  {
    && 0 <= i < |bats| && 0 <= j < |balls|
    && (forall a, b :: 0 <= a < |bats| && 0 <= b < |balls| ==> dist(bats[i], balls[j]) <= dist(bats[a], balls[b]))
    && (forall a, b :: 0 <= a < |bats| && 0 <= b < |balls| && (a < i || (a == i && b < j)) ==>
          dist(bats[a], balls[b]) > dist(bats[i], balls[j]))
  }

  /** The best pair the double loop of detect_impact has found: its distance and its bat centre. */
  datatype Closest = Closest(distance: real, location: Point)

  /**
   * The double loop of detect_impact once it has visited, in row order, the
   * bats before i and the first j balls of bat i; None before the first pair.
   */
  function ClosestScan(bats: seq<Point>, balls: seq<Point>, dist: Metric, i: nat, j: nat): (r: Option<Closest>)
    requires i <= |bats| && j <= |balls| && (j > 0 ==> i < |bats|)
    ensures j > 0 ==> r.Some?
    decreases i, j
  {
    if j > 0 then
      var best := ClosestScan(bats, balls, dist, i, j - 1);
      var d := dist(bats[i], balls[j - 1]);
      if best.None? || d < best.value.distance then Some(Closest(d, bats[i])) else best
    else if i > 0 then ClosestScan(bats, balls, dist, i - 1, |balls|)
    else None
  }

  /** The result of the whole double loop; None when there are no bats or no balls. */
  function ClosestPair(bats: seq<Point>, balls: seq<Point>, dist: Metric): (r: Option<Closest>)
    ensures r.Some? <==> bats != [] && balls != []
  {
    if bats == [] then None
    else
      assert balls == [] ==> ClosestScan(bats, balls, dist, |bats| - 1, 0).None? by {
        if balls == [] {
          NoBallsNoPair(bats, dist, |bats| - 1);
        }
      }
      ClosestScan(bats, balls, dist, |bats| - 1, |balls|)
  }

  /** Without balls the scan never finds a pair. */
  lemma {:induction false} NoBallsNoPair(bats: seq<Point>, dist: Metric, i: nat)
    requires i <= |bats|
    ensures ClosestScan(bats, [], dist, i, 0).None?
  {
    if i > 0 {
      NoBallsNoPair(bats, dist, i - 1);
    }
  }

  /** Pair (a, b) comes before pair (i, j) in the row order of the double loop. */
  predicate PairBefore(a: int, b: int, i: int, j: int)
  {
    a < i || (a == i && b < j)
  }

  /**
   * What the scan has found after the pairs before (i, j): the distance and
   * bat centre of a visited pair (bi, bj) that is no farther than any visited
   * pair and strictly nearer than every pair before it.
   */
  lemma {:induction false} ClosestScanFirst(bats: seq<Point>, balls: seq<Point>, dist: Metric, i: nat, j: nat)
    returns (bi: nat, bj: nat)
    requires i <= |bats| && j <= |balls| && (j > 0 ==> i < |bats|)
    requires ClosestScan(bats, balls, dist, i, j).Some?
    ensures bi < |bats| && bj < |balls| && PairBefore(bi, bj, i, j)
    ensures ClosestScan(bats, balls, dist, i, j).value == Closest(dist(bats[bi], balls[bj]), bats[bi])
    ensures forall a, b :: 0 <= a < |bats| && 0 <= b < |balls| && PairBefore(a, b, i, j) ==>
      dist(bats[bi], balls[bj]) <= dist(bats[a], balls[b])
    ensures forall a, b :: 0 <= a < |bats| && 0 <= b < |balls| && PairBefore(a, b, bi, bj) ==>
      dist(bats[a], balls[b]) > dist(bats[bi], balls[bj])
    decreases i, j
  {
    if j > 0 {
      var best := ClosestScan(bats, balls, dist, i, j - 1);
      var d := dist(bats[i], balls[j - 1]);
      if best.None? {
        assert i == 0 && j == 1;
        bi, bj := i, j - 1;
      } else {
        bi, bj := ClosestScanFirst(bats, balls, dist, i, j - 1);
        if d < best.value.distance {
          bi, bj := i, j - 1;
        }
      }
    } else {
      bi, bj := ClosestScanFirst(bats, balls, dist, i - 1, |balls|);
    }
  }

  /**
   * The double loop of detect_impact: the smallest bat-ball distance, and the
   * bat centre of the first pair that reaches it (strict comparison).
   */
  method ClosestBatToBall(bats: seq<Point>, balls: seq<Point>, dist: Metric) returns (minDistance: real, location: Point)
    requires bats != [] && balls != []
    ensures ClosestPair(bats, balls, dist) == Some(Closest(minDistance, location))
    ensures exists i, j :: IsFirstClosestPair(bats, balls, dist, i, j) && minDistance == dist(bats[i], balls[j]) && location == bats[i]
  {
    var best: Option<real> := None;  // float('inf')
    location := bats[0];
    var i := 0;
    while i < |bats|
      invariant 0 <= i <= |bats|
      invariant best.None? <==> i == 0
      invariant i > 0 ==> ClosestScan(bats, balls, dist, i - 1, |balls|) == Some(Closest(best.value, location))
    {
      var j := 0;
      while j < |balls|
        invariant 0 <= j <= |balls|
        invariant best.None? <==> (i == 0 && j == 0)
        invariant ClosestScan(bats, balls, dist, i, j) == if best.None? then None else Some(Closest(best.value, location))
      {
        var distance := dist(bats[i], balls[j]);
        if best.None? || distance < best.value {
          best := Some(distance);
          location := bats[i];
        }
        j := j + 1;
      }
      i := i + 1;
    }
    minDistance := best.value;
    var bi, bj := ClosestPairIsFirst(bats, balls, dist);
  }

  /** The pair ClosestPair reports is the first pair, in loop order, at the smallest distance. */
  lemma ClosestPairIsFirst(bats: seq<Point>, balls: seq<Point>, dist: Metric) returns (bi: nat, bj: nat)
    requires bats != [] && balls != []
    ensures IsFirstClosestPair(bats, balls, dist, bi, bj)
    ensures ClosestPair(bats, balls, dist) == Some(Closest(dist(bats[bi], balls[bj]), bats[bi]))
  {
    bi, bj := ClosestScanFirst(bats, balls, dist, |bats| - 1, |balls|);
  }

  /** Left wrist of a person, when tracked with confidence above 0.5. */
  function LeftWrist(kps: seq<Keypoint>): Option<Point>
  {
    if |kps| > LeftWristIndex && kps[LeftWristIndex].conf > WristConfidence then Some(kps[LeftWristIndex].pos) else None
  }

  /** Right wrist of a person, when tracked with confidence above 0.5. */
  function RightWrist(kps: seq<Keypoint>): Option<Point>
  {
    if |kps| > RightWristIndex && kps[RightWristIndex].conf > WristConfidence then Some(kps[RightWristIndex].pos) else None
  }

  /** The point a person is ranked by: the left wrist, else the right wrist, else none. */
  function WristCandidate(kps: seq<Keypoint>): (r: Option<Point>)
    ensures r.None? <==> LeftWrist(kps).None? && RightWrist(kps).None?
    ensures LeftWrist(kps).Some? ==> r == LeftWrist(kps)
  {
    if LeftWrist(kps).Some? then LeftWrist(kps) else RightWrist(kps)
  }

  /** Distance from the bat centre to a person's candidate wrist. */
  function WristDistance(batCenter: Point, kps: seq<Keypoint>, dist: Metric): real
    requires WristCandidate(kps).Some?
  {
    dist(batCenter, WristCandidate(kps).value)
  }

  /**
   * The batsman search of analyze_video after the first n people: the index
   * it has settled on, -1 while nobody had a confident wrist.
   */
  function NearestPerson(batCenter: Point, people: seq<seq<Keypoint>>, dist: Metric, n: nat): (r: int)
    requires n <= |people|
    ensures -1 <= r < n
    ensures r >= 0 ==> WristCandidate(people[r]).Some?
  {
    if n == 0 then -1
    else
      var best := NearestPerson(batCenter, people, dist, n - 1);
      if WristCandidate(people[n - 1]).Some?
         && (best == -1 || WristDistance(batCenter, people[n - 1], dist) < WristDistance(batCenter, people[best], dist))
      then n - 1
      else best
  }

  /**
   * The batsman search of analyze_video: the first person whose candidate
   * wrist is nearest to the bat centre, or -1 when nobody has a confident wrist.
   */
  method SelectBatsman(batCenter: Point, people: seq<seq<Keypoint>>, dist: Metric) returns (bestIdx: int)
    ensures bestIdx == NearestPerson(batCenter, people, dist, |people|)
    ensures -1 <= bestIdx < |people|
    ensures bestIdx == -1 <==> forall i :: 0 <= i < |people| ==> WristCandidate(people[i]).None?
    ensures bestIdx >= 0 ==> WristCandidate(people[bestIdx]).Some?
    ensures bestIdx >= 0 ==> forall i :: 0 <= i < |people| && WristCandidate(people[i]).Some? ==>
      WristDistance(batCenter, people[bestIdx], dist) <= WristDistance(batCenter, people[i], dist)
    ensures bestIdx >= 0 ==> forall i :: 0 <= i < bestIdx && WristCandidate(people[i]).Some? ==>
      WristDistance(batCenter, people[i], dist) > WristDistance(batCenter, people[bestIdx], dist)
  {
    var minDistToBat: Option<real> := None;  // float('inf')
    bestIdx := -1;
    var i := 0;
    while i < |people|
      invariant 0 <= i <= |people|
      invariant -1 <= bestIdx < i
      invariant bestIdx == -1 <==> minDistToBat.None?
      invariant bestIdx == -1 <==> forall k :: 0 <= k < i ==> WristCandidate(people[k]).None?
      invariant bestIdx >= 0 ==> WristCandidate(people[bestIdx]).Some? && minDistToBat.value == WristDistance(batCenter, people[bestIdx], dist)
      invariant bestIdx >= 0 ==> forall k :: 0 <= k < i && WristCandidate(people[k]).Some? ==> minDistToBat.value <= WristDistance(batCenter, people[k], dist)
      invariant bestIdx >= 0 ==> forall k :: 0 <= k < bestIdx && WristCandidate(people[k]).Some? ==> WristDistance(batCenter, people[k], dist) > minDistToBat.value
      invariant bestIdx == NearestPerson(batCenter, people, dist, i)
    {
      var personKps := people[i];
      var candidate: Option<real> := None;  // float('inf') when no wrist is confident
      if LeftWrist(personKps).Some? {
        candidate := Some(dist(batCenter, personKps[LeftWristIndex].pos));
      } else if RightWrist(personKps).Some? {
        candidate := Some(dist(batCenter, personKps[RightWristIndex].pos));
      }
      if candidate.Some? && (minDistToBat.None? || candidate.value < minDistToBat.value) {
        minDistToBat := candidate;
        bestIdx := i;
      }
      i := i + 1;
    }
  }

  // -----------------------------------------------------------------------
  // Final statistics

  function SumSpeeds(events: seq<ImpactEvent>): real
  {
    if events == [] then 0.0 else SumSpeeds(events[..|events| - 1]) + events[|events| - 1].speedKmh
  }

  /** max() over the logged speeds. */
  function MaxSpeed(events: seq<ImpactEvent>): (m: real)
    requires events != []
    ensures forall i :: 0 <= i < |events| ==> events[i].speedKmh <= m
    ensures exists i :: 0 <= i < |events| && events[i].speedKmh == m
  {
    if |events| == 1 then events[0].speedKmh
    else
      var rest := MaxSpeed(events[..|events| - 1]);
      var last := events[|events| - 1].speedKmh;
      assert forall i :: 0 <= i < |events| - 1 ==> events[..|events| - 1][i] == events[i];
      if last > rest then last else rest
  }

  /**
   * The statistics block of analyze_video: totals always, average / max /
   * category (from the rounded max) only when there was at least one shot.
   */
  function FinalStatistics(frameCount: int, impactCount: int, impacts: seq<ImpactEvent>): (s: FinalStats)
    requires impactCount == |impacts|
    ensures s.totalFrames == frameCount && s.totalShots == impactCount && s.impacts == impacts
    ensures s.averageSpeedKmh.Some? <==> impactCount > 0
    ensures s.maxSpeedKmh.Some? <==> impactCount > 0
    ensures s.powerHitCategory.Some? <==> impactCount > 0
    ensures impactCount > 0 ==> s.maxSpeedKmh.value == Round2(MaxSpeed(impacts))
    ensures impactCount > 0 ==> s.powerHitCategory.value == PowerHitCategory(s.maxSpeedKmh.value)
    ensures impactCount > 0 ==> s.averageSpeedKmh.value == Round2(SumSpeeds(impacts) / |impacts| as real)
  {
    if impactCount > 0 then
      var maxSpeed := Round2(MaxSpeed(impacts));
      FinalStats(frameCount, impactCount, impacts,
                 Some(Round2(SumSpeeds(impacts) / |impacts| as real)),
                 Some(maxSpeed),
                 Some(PowerHitCategory(maxSpeed)))
    else
      FinalStats(frameCount, impactCount, impacts, None, None, None)
  }

  /** The mean of the logged speeds, before rounding, lies between their minimum and maximum. */
  lemma {:induction false} SumSpeedsBounded(events: seq<ImpactEvent>, lo: real, hi: real)
    requires forall i :: 0 <= i < |events| ==> lo <= events[i].speedKmh <= hi
    ensures lo * |events| as real <= SumSpeeds(events) <= hi * |events| as real
  {
    if events != [] {
      var init := events[..|events| - 1];
      assert forall i :: 0 <= i < |init| ==> init[i] == events[i];
      SumSpeedsBounded(init, lo, hi);
    }
  }

  /** The aggregation example: speeds 50, 80 and 65 average 65 with maximum 80, a "Timing Shot". */
  lemma StatisticsExample(loc: Point)
    ensures var impacts := [ImpactEvent(20, 50.0, TimingShot, loc),
                            ImpactEvent(40, 80.0, TimingShot, loc),
                            ImpactEvent(60, 65.0, TimingShot, loc)];
      var s := FinalStatistics(100, 3, impacts);
      s.averageSpeedKmh == Some(65.0) && s.maxSpeedKmh == Some(80.0) && s.powerHitCategory == Some(TimingShot)
  {
    var impacts := [ImpactEvent(20, 50.0, TimingShot, loc),
                    ImpactEvent(40, 80.0, TimingShot, loc),
                    ImpactEvent(60, 65.0, TimingShot, loc)];
    var firstTwo := impacts[..2];
    assert impacts[..|impacts| - 1] == firstTwo;
    assert firstTwo[..|firstTwo| - 1] == [impacts[0]];
    assert [impacts[0]][..0] == [];
    assert SumSpeeds([impacts[0]]) == 50.0;
    assert SumSpeeds(impacts[..2]) == 130.0;
    assert SumSpeeds(impacts) == 195.0;
    assert MaxSpeed(impacts[..2]) == 80.0;
    assert MaxSpeed(impacts) == 80.0;
    Round2OfCents(6500);
    Round2OfCents(8000);
  }

  // -----------------------------------------------------------------------
  // The session

  /** Logged impacts are at least the cooldown apart, consecutive ones compared. */
  ghost predicate ImpactsSpaced(impacts: seq<ImpactEvent>)
  {
    forall i :: 0 <= i < |impacts| - 1 ==> impacts[i + 1].frame - impacts[i].frame >= ImpactCooldownFrames
  }

  /** Any two logged impacts, not only neighbours, are at least 15 frames apart. */
  lemma {:induction false} SpacedPairwise(impacts: seq<ImpactEvent>, i: nat, j: nat)
    requires ImpactsSpaced(impacts) && i < j < |impacts|
    ensures impacts[j].frame - impacts[i].frame >= ImpactCooldownFrames * (j - i)
    decreases j - i
  {
    if j > i + 1 {
      SpacedPairwise(impacts, i, j - 1);
    }
  }

  /** Every pair of logged impacts is a cooldown apart. */
  lemma SpacedAll(impacts: seq<ImpactEvent>)
    requires ImpactsSpaced(impacts)
    ensures forall i, j :: 0 <= i < j < |impacts| ==> impacts[j].frame - impacts[i].frame >= ImpactCooldownFrames
  {
    forall i, j | 0 <= i < j < |impacts|
      ensures impacts[j].frame - impacts[i].frame >= ImpactCooldownFrames
    {
      SpacedPairwise(impacts, i, j);
    }
  }

  /** The samples one frame's bat boxes push: all with that frame's index. */
  function BatSamples(frame: int, centers: seq<Point>): (r: seq<Sample>)
    ensures |r| == |centers|
    ensures forall k :: 0 <= k < |r| ==> r[k] == Sample(frame, centers[k])
  {
    seq(|centers|, k requires 0 <= k < |centers| => Sample(frame, centers[k]))
  }

  /** The samples a wrist option pushes: one when the wrist is confident, else none. */
  function WristSamples(frame: int, wrist: Option<Point>): seq<Sample>
  {
    if wrist.Some? then [Sample(frame, wrist.value)] else []
  }

  /** One more bat centre of the frame is one more sample. */
  lemma BatSamplesSnoc(frame: int, bats: seq<Point>, i: nat)
    requires i < |bats|
    ensures BatSamples(frame, bats[..i + 1]) == BatSamples(frame, bats[..i]) + [Sample(frame, bats[i])]
  {
    assert BatSamples(frame, bats[..i + 1])[..i] == BatSamples(frame, bats[..i]);
  }

  lemma {:induction false} AppendAllKeepsHistoryOk(h: seq<Sample>, ss: seq<Sample>, f: int)
    requires HistoryOk(h, f)
    requires forall k :: 0 <= k < |ss| ==> ss[k].frame == f
    ensures HistoryOk(AppendAll(h, ss), f)
    decreases |ss|
  {
    if ss != [] {
      AppendKeepsHistoryOk(h, ss[0], f);
      AppendAllKeepsHistoryOk(Append(h, ss[0]), ss[1..], f);
    }
  }

  // -----------------------------------------------------------------------
  // One frame of analyze_video, as a value

  /** The analyser's state: the module globals a Session keeps in its fields. */
  datatype Tracker = Tracker(
    pixelsPerMeter: Option<real>,
    batHistory: seq<Sample>,
    leftWristHistory: seq<Sample>,
    rightWristHistory: seq<Sample>,
    frameCount: int,
    lastImpactFrame: int,
    lastImpactSpeed: real,
    impactCount: int,
    lastImpactLocation: Option<Point>,
    impacts: seq<ImpactEvent>)

  /** A usable scale and three histories within the deque capacity. */
  predicate TrackerOk(t: Tracker)
  {
    && (t.pixelsPerMeter.Some? ==> t.pixelsPerMeter.value > 0.0)
    && |t.batHistory| <= HistoryCapacity
    && |t.leftWristHistory| <= HistoryCapacity
    && |t.rightWristHistory| <= HistoryCapacity
  }

  /** The state analyze_video starts its frame loop in: reset, with the calibrated scale. */
  function StartTracker(ppm: real): (t: Tracker)
    requires ppm > 0.0
    ensures TrackerOk(t) && t.impacts == [] && t.frameCount == 0
  {
    Tracker(Some(ppm), [], [], [], 0, -ImpactCooldownFrames - 1, 0.0, 0, None, [])
  }

  /** The speed detect_impact judges a hit by: the largest of the two wrist peaks and the bat peak. */
  function TrackerSpeed(t: Tracker, fps: real, dist: Metric): real
    requires TrackerOk(t) && fps > 0.0
  {
    MaxReal(MaxReal(PeakSpeed(t.leftWristHistory, fps, t.pixelsPerMeter, dist),
                    PeakSpeed(t.rightWristHistory, fps, t.pixelsPerMeter, dist)),
            PeakSpeed(t.batHistory, fps, t.pixelsPerMeter, dist))
  }

  /** The checks of detect_impact that come before any distance is computed. */
  predicate ImpactSkipped(t: Tracker, bats: seq<Point>, balls: seq<Point>)
  {
    bats == [] || balls == [] || t.frameCount - t.lastImpactFrame < ImpactCooldownFrames
  }

  /**
   * detect_impact logs a hit: it was not skipped, the closest bat-ball pair is
   * nearer than the threshold, and the speed lies strictly between 15 and 250.
   */
  predicate ImpactHit(t: Tracker, bats: seq<Point>, balls: seq<Point>, fps: real, threshold: real, dist: Metric)
    requires TrackerOk(t) && fps > 0.0
  {
    && !ImpactSkipped(t, bats, balls)
    && ClosestPair(bats, balls, dist).value.distance < threshold
    && MinSpeedThreshold < TrackerSpeed(t, fps, dist) < MaxSpeedThreshold
  }

  /**
   * detect_impact on a state: a hit is logged with its rounded speed, its
   * category and the bat centre of the closest pair, the cooldown restarts and
   * the three histories are cleared; otherwise nothing changes.
   */
  function ImpactCheck(t: Tracker, bats: seq<Point>, balls: seq<Point>, fps: real, threshold: real, dist: Metric): (r: Tracker)
    requires TrackerOk(t) && fps > 0.0
    ensures TrackerOk(r) && r.pixelsPerMeter == t.pixelsPerMeter && r.frameCount == t.frameCount
    ensures !ImpactHit(t, bats, balls, fps, threshold, dist) ==> r == t
    ensures ImpactHit(t, bats, balls, fps, threshold, dist) ==>
      && r.impacts == t.impacts + [ImpactEvent(t.frameCount, Round2(TrackerSpeed(t, fps, dist)),
                                               PowerHitCategory(TrackerSpeed(t, fps, dist)),
                                               ClosestPair(bats, balls, dist).value.location)]
      && r.lastImpactFrame == t.frameCount && r.impactCount == t.impactCount + 1
      && r.batHistory == [] && r.leftWristHistory == [] && r.rightWristHistory == []
  {
    if ImpactHit(t, bats, balls, fps, threshold, dist) then
      var speed := TrackerSpeed(t, fps, dist);
      var location := ClosestPair(bats, balls, dist).value.location;
      t.(lastImpactSpeed := speed,
         lastImpactFrame := t.frameCount,
         impactCount := t.impactCount + 1,
         lastImpactLocation := Some(location),
         impacts := t.impacts + [ImpactEvent(t.frameCount, Round2(speed), PowerHitCategory(speed), location)],
         leftWristHistory := [],
         rightWristHistory := [],
         batHistory := [])
    else t
  }

  /** The batsman of a frame: the nearest person to the first bat centre, -1 without a bat or a confident wrist. */
  function Batsman(bats: seq<Point>, people: seq<seq<Keypoint>>, dist: Metric): (b: int)
    ensures -1 <= b < |people|
    ensures bats == [] ==> b == -1
  {
    if bats == [] then -1 else NearestPerson(bats[0], people, dist, |people|)
  }

  /** The bat-box loop of a frame: every bat centre joins the bat history, stamped with the current frame. */
  function PushBats(t: Tracker, bats: seq<Point>): (r: Tracker)
    requires TrackerOk(t)
    ensures TrackerOk(r)
  {
    t.(batHistory := AppendAll(t.batHistory, BatSamples(t.frameCount, bats)))
  }

  /** The pose block of a frame: each confident wrist of the batsman joins its history. */
  function PushBatsmanWrists(t: Tracker, bats: seq<Point>, people: seq<seq<Keypoint>>, dist: Metric): (r: Tracker)
    requires TrackerOk(t)
    ensures TrackerOk(r)
  {
    var b := Batsman(bats, people, dist);
    if b < 0 then t
    else t.(leftWristHistory := AppendAll(t.leftWristHistory, WristSamples(t.frameCount, LeftWrist(people[b]))),
            rightWristHistory := AppendAll(t.rightWristHistory, WristSamples(t.frameCount, RightWrist(people[b]))))
  }

  /**
   * The pushes of one frame: the counter advances, every bat centre joins the
   * bat history, and each confident wrist of the batsman joins its history.
   */
  function FramePushes(t: Tracker, d: FrameDetections, dist: Metric): (r: Tracker)
    requires TrackerOk(t)
    ensures TrackerOk(r) && r.frameCount == t.frameCount + 1
    ensures r.pixelsPerMeter == t.pixelsPerMeter && r.impacts == t.impacts && r.lastImpactFrame == t.lastImpactFrame
  {
    PushBatsmanWrists(PushBats(t.(frameCount := t.frameCount + 1), d.batCenters), d.batCenters, d.people, dist)
  }

  /** One iteration of the frame loop of analyze_video: the pushes, then detect_impact. */
  function FrameStep(t: Tracker, d: FrameDetections, fps: real, threshold: real, dist: Metric): (r: Tracker)
    requires TrackerOk(t) && fps > 0.0
    ensures TrackerOk(r) && r.pixelsPerMeter == t.pixelsPerMeter && r.frameCount == t.frameCount + 1
  {
    ImpactCheck(FramePushes(t, d, dist), d.batCenters, d.ballCenters, fps, threshold, dist)
  }

  /** The frame loop over the given frames, in order. */
  function RunFrames(t: Tracker, frames: seq<FrameDetections>, fps: real, threshold: real, dist: Metric): (r: Tracker)
    requires TrackerOk(t) && fps > 0.0
    ensures TrackerOk(r) && r.pixelsPerMeter == t.pixelsPerMeter && r.frameCount == t.frameCount + |frames|
  {
    if frames == [] then t
    else FrameStep(RunFrames(t, frames[..|frames| - 1], fps, threshold, dist), frames[|frames| - 1], fps, threshold, dist)
  }

  /** The bat-ball distance below which analyze_video counts a contact: half a metre in pixels. */
  function ImpactDistanceThreshold(ppm: real): real
  {
    0.5 * ppm
  }

  /**
   * analyze_video on a value: from the reset state with the scale the stump
   * readings give, every frame in order through the per-frame step.
   */
  function Analysis(frames: seq<FrameDetections>, fps: real, dist: Metric): (r: Tracker)
    requires fps > 0.0
    ensures TrackerOk(r) && r.frameCount == |frames|
  {
    var ppm := ScaleFromStumps(StumpHeights(frames));
    RunFrames(StartTracker(ppm), frames, fps, ImpactDistanceThreshold(ppm), dist)
  }

  /** Running one more frame of the video is one more step. */
  lemma RunFramesPrefix(t: Tracker, frames: seq<FrameDetections>, n: nat, fps: real, threshold: real, dist: Metric)
    requires TrackerOk(t) && fps > 0.0 && n < |frames|
    ensures RunFrames(t, frames[..n + 1], fps, threshold, dist)
         == FrameStep(RunFrames(t, frames[..n], fps, threshold, dist), frames[n], fps, threshold, dist)
  {
    assert frames[..n + 1][..n] == frames[..n];
  }

  /** A frame without a ball never logs an impact; the log only ever grows at its end. */
  lemma FrameWithoutBall(t: Tracker, d: FrameDetections, fps: real, threshold: real, dist: Metric)
    requires TrackerOk(t) && fps > 0.0
    ensures d.ballCenters == [] ==> FrameStep(t, d, fps, threshold, dist).impacts == t.impacts
    ensures t.impacts <= FrameStep(t, d, fps, threshold, dist).impacts
    ensures |FrameStep(t, d, fps, threshold, dist).impacts| <= |t.impacts| + 1
  {
    var p := FramePushes(t, d, dist);
    var r := FrameStep(t, d, fps, threshold, dist);
    if ImpactHit(p, d.batCenters, d.ballCenters, fps, threshold, dist) {
      assert r.impacts[..|t.impacts|] == t.impacts;
    }
  }

  /** A video in which no ball is ever seen logs no impact at all. */
  lemma {:induction false} NoBallNoImpact(t: Tracker, frames: seq<FrameDetections>, fps: real, threshold: real, dist: Metric)
    requires TrackerOk(t) && fps > 0.0
    requires forall k :: 0 <= k < |frames| ==> frames[k].ballCenters == []
    ensures RunFrames(t, frames, fps, threshold, dist).impacts == t.impacts
  {
    if frames != [] {
      var init := frames[..|frames| - 1];
      assert forall k :: 0 <= k < |init| ==> init[k] == frames[k];
      NoBallNoImpact(t, init, fps, threshold, dist);
      FrameWithoutBall(RunFrames(t, init, fps, threshold, dist), frames[|frames| - 1], fps, threshold, dist);
    }
  }

  /** Every impact the frame loop logs is stamped with the frame it was found in: after the start, within the video. */
  lemma {:induction false} RunFramesImpactFrames(t: Tracker, frames: seq<FrameDetections>, fps: real, threshold: real, dist: Metric)
    requires TrackerOk(t) && fps > 0.0
    ensures t.impacts <= RunFrames(t, frames, fps, threshold, dist).impacts
    ensures forall k :: |t.impacts| <= k < |RunFrames(t, frames, fps, threshold, dist).impacts| ==>
      t.frameCount < RunFrames(t, frames, fps, threshold, dist).impacts[k].frame <= t.frameCount + |frames|
  {
    if frames != [] {
      var init := frames[..|frames| - 1];
      var mid := RunFrames(t, init, fps, threshold, dist);
      var r := RunFrames(t, frames, fps, threshold, dist);
      RunFramesImpactFrames(t, init, fps, threshold, dist);
      FrameWithoutBall(mid, frames[|frames| - 1], fps, threshold, dist);
      assert r == FrameStep(mid, frames[|frames| - 1], fps, threshold, dist);
      if |r.impacts| > |mid.impacts| {
        assert r.impacts[|mid.impacts|].frame == mid.frameCount + 1;
      }
      assert r.impacts[..|mid.impacts|] == mid.impacts;
      assert forall k :: 0 <= k < |mid.impacts| ==> r.impacts[k] == mid.impacts[k];
    }
  }

  class Session {
    /** calculate_distance. */
    const dist: Metric

    var pixelsPerMeter: Option<real>
    var batHistory: seq<Sample>
    var leftWristHistory: seq<Sample>
    var rightWristHistory: seq<Sample>
    /** processing_stats['frame_count']. */
    var frameCount: int
    var lastImpactFrame: int
    var lastImpactSpeed: real
    var impactCount: int
    var lastImpactLocation: Option<Point>
    /** processing_stats['impacts']. */
    var impacts: seq<ImpactEvent>

    ghost predicate Valid()
      reads this
    {
      && (pixelsPerMeter.Some? ==> pixelsPerMeter.value > 0.0)
      && frameCount >= 0
      && HistoryOk(batHistory, frameCount)
      && HistoryOk(leftWristHistory, frameCount)
      && HistoryOk(rightWristHistory, frameCount)
      && impactCount == |impacts|
      && ImpactsSpaced(impacts)
      && (|impacts| == 0 ==> lastImpactFrame == -ImpactCooldownFrames - 1)
      && (|impacts| > 0 ==> lastImpactFrame == impacts[|impacts| - 1].frame)
      && lastImpactFrame <= frameCount
      && (forall k :: 0 <= k < |impacts| ==>
            impacts[k].category != NotApplicable && MinSpeedThreshold <= impacts[k].speedKmh <= MaxSpeedThreshold)
    }

    /** The state reset_analysis_state establishes. */
    ghost predicate IsReset()
      reads this
    {
      && pixelsPerMeter.None?
      && batHistory == [] && leftWristHistory == [] && rightWristHistory == []
      && frameCount == 0
      && lastImpactFrame == -ImpactCooldownFrames - 1
      && lastImpactSpeed == 0.0
      && impactCount == 0
      && lastImpactLocation.None?
      && impacts == []
    }

    constructor (dist: Metric)
      ensures Valid() && IsReset() && this.dist == dist
    {
      this.dist := dist;
      pixelsPerMeter := None;
      batHistory, leftWristHistory, rightWristHistory := [], [], [];
      frameCount := 0;
      lastImpactFrame := -ImpactCooldownFrames - 1;
      lastImpactSpeed := 0.0;
      impactCount := 0;
      lastImpactLocation := None;
      impacts := [];
    }

    /** reset_analysis_state. */
    method ResetAnalysisState()
      modifies this
      ensures Valid() && IsReset()
    {
      pixelsPerMeter := None;
      batHistory, leftWristHistory, rightWristHistory := [], [], [];
      frameCount := 0;
      lastImpactFrame := -ImpactCooldownFrames - 1;
      lastImpactSpeed := 0.0;
      impactCount := 0;
      lastImpactLocation := None;
      impacts := [];
    }

    /** The fields as a Tracker value. */
    ghost function State(): (t: Tracker)
      reads this
      ensures Valid() ==> TrackerOk(t)
    {
      Tracker(pixelsPerMeter, batHistory, leftWristHistory, rightWristHistory, frameCount,
              lastImpactFrame, lastImpactSpeed, impactCount, lastImpactLocation, impacts)
    }

    /** The three peak speeds of detect_impact and their maximum. */
    method CurrentImpactSpeed(fps: real) returns (speed: real)
      requires Valid() && fps > 0.0
      ensures speed == TrackerSpeed(State(), fps, dist)
      ensures speed >= 0.0
    {
      var speedLeft := CalculatePeakSpeed(leftWristHistory, fps, pixelsPerMeter, dist);
      var speedRight := CalculatePeakSpeed(rightWristHistory, fps, pixelsPerMeter, dist);
      var batSpeed := CalculatePeakSpeed(batHistory, fps, pixelsPerMeter, dist);
      speed := MaxReal(MaxReal(speedLeft, speedRight), batSpeed);
    }

    /** The bookkeeping of a detected impact: log it, start the cooldown, clear the histories. */
    method RecordImpact(speed: real, location: Point)
      requires Valid() && MinSpeedThreshold < speed < MaxSpeedThreshold
      requires frameCount - lastImpactFrame >= ImpactCooldownFrames
      modifies this
      ensures Valid()
      ensures frameCount == old(frameCount) && pixelsPerMeter == old(pixelsPerMeter)
      ensures lastImpactFrame == frameCount && lastImpactSpeed == speed
      ensures impactCount == old(impactCount) + 1
      ensures lastImpactLocation == Some(location)
      ensures impacts == old(impacts) + [ImpactEvent(frameCount, Round2(speed), PowerHitCategory(speed), location)]
      ensures batHistory == [] && leftWristHistory == [] && rightWristHistory == []
    {
      RecordedImpactInRange(speed);
      lastImpactSpeed := speed;
      lastImpactFrame := frameCount;
      impactCount := impactCount + 1;
      lastImpactLocation := Some(location);
      impacts := impacts + [ImpactEvent(frameCount, Round2(speed), PowerHitCategory(speed), location)];
      leftWristHistory := [];
      rightWristHistory := [];
      batHistory := [];
    }

    /**
     * detect_impact: with bats and balls present and the cooldown over, find the
     * closest bat-ball pair; an impact is logged when it is nearer than the
     * threshold and the candidate speed lies strictly between 15 and 250 km/h.
     */
    method DetectImpact(batCenters: seq<Point>, ballCenters: seq<Point>, fps: real, threshold: real)
      returns (detected: bool, minDistance: Option<real>)
      requires Valid() && fps > 0.0
      modifies this
      ensures Valid()
      ensures frameCount == old(frameCount) && pixelsPerMeter == old(pixelsPerMeter)
      ensures State() == ImpactCheck(old(State()), batCenters, ballCenters, fps, threshold, dist)
      ensures detected <==> ImpactHit(old(State()), batCenters, ballCenters, fps, threshold, dist)
      ensures ImpactSkipped(old(State()), batCenters, ballCenters) ==> !detected && minDistance.None?
      ensures !ImpactSkipped(old(State()), batCenters, ballCenters) ==>
        exists i, j :: IsFirstClosestPair(batCenters, ballCenters, dist, i, j)
          && minDistance == Some(dist(batCenters[i], ballCenters[j]))
          && (detected ==> lastImpactLocation == Some(batCenters[i]))
      ensures detected <==>
        && !ImpactSkipped(old(State()), batCenters, ballCenters)
        && minDistance.value < threshold
        && MinSpeedThreshold < TrackerSpeed(old(State()), fps, dist) < MaxSpeedThreshold
    {
      if batCenters == [] || ballCenters == [] {
        return false, None;
      }
      if frameCount - lastImpactFrame < ImpactCooldownFrames {
        return false, None;
      }
      var d, impactLocation := ClosestBatToBall(batCenters, ballCenters, dist);
      minDistance := Some(d);
      detected := false;
      if d < threshold {
        var currentSpeed := CurrentImpactSpeed(fps);
        if MinSpeedThreshold < currentSpeed < MaxSpeedThreshold {
          RecordImpact(currentSpeed, impactLocation);
          detected := true;
        }
      }
    }

    /** A logged speed (rounded) stays within [15, 250] and its category is never "N/A". */
    static lemma RecordedImpactInRange(speed: real)
      requires MinSpeedThreshold < speed < MaxSpeedThreshold
      ensures MinSpeedThreshold <= Round2(speed) <= MaxSpeedThreshold
      ensures PowerHitCategory(speed) != NotApplicable
    {
      Round2Monotone(15.0, speed);
      Round2Monotone(speed, 250.0);
      Round2OfCents(1500);
      Round2OfCents(25000);
    }

    /** The bat-box loop of analyze_video: every bat centre of the frame is pushed. */
    method PushBatCenters(bats: seq<Point>)
      requires Valid()
      modifies this`batHistory
      ensures Valid() && State() == PushBats(old(State()), bats)
      ensures batHistory == AppendAll(old(batHistory), BatSamples(frameCount, bats))
    {
      var frame := frameCount;
      var i := 0;
      while i < |bats|
        invariant 0 <= i <= |bats|
        invariant HistoryOk(batHistory, frame)
        invariant batHistory == AppendAll(old(batHistory), BatSamples(frame, bats[..i]))
      {
        var sample := Sample(frame, bats[i]);
        BatSamplesSnoc(frame, bats, i);
        AppendAllSnoc(old(batHistory), BatSamples(frame, bats[..i]), sample);
        AppendKeepsHistoryOk(batHistory, sample, frame);
        batHistory := Append(batHistory, sample);
        i := i + 1;
      }
      assert bats[..i] == bats;
    }

    /**
     * The pose block of analyze_video: with a bat present, pick the batsman
     * nearest to the first bat centre and push each of their confident wrists.
     * The chosen index (-1 for none, or when there is no bat) is returned.
     */
    method TrackBatsmanWrists(batCenters: seq<Point>, people: seq<seq<Keypoint>>) returns (batsman: int)
      requires Valid()
      modifies this`leftWristHistory, this`rightWristHistory
      ensures Valid()
      ensures State() == PushBatsmanWrists(old(State()), batCenters, people, dist)
      ensures -1 <= batsman < |people|
      ensures batsman == Batsman(batCenters, people, dist)
      ensures batCenters != [] ==>
        && (batsman == -1 <==> forall i :: 0 <= i < |people| ==> WristCandidate(people[i]).None?)
        && (batsman >= 0 ==> WristCandidate(people[batsman]).Some?)
        && (batsman >= 0 ==> forall i :: 0 <= i < |people| && WristCandidate(people[i]).Some? ==>
              WristDistance(batCenters[0], people[batsman], dist) <= WristDistance(batCenters[0], people[i], dist))
        && (batsman >= 0 ==> forall i :: 0 <= i < batsman && WristCandidate(people[i]).Some? ==>
              WristDistance(batCenters[0], people[i], dist) > WristDistance(batCenters[0], people[batsman], dist))
      ensures batsman == -1 ==> leftWristHistory == old(leftWristHistory) && rightWristHistory == old(rightWristHistory)
      ensures batsman >= 0 ==>
        && leftWristHistory == AppendAll(old(leftWristHistory), WristSamples(frameCount, LeftWrist(people[batsman])))
        && rightWristHistory == AppendAll(old(rightWristHistory), WristSamples(frameCount, RightWrist(people[batsman])))
    {
      if batCenters == [] {
        return -1;
      }
      var batCenter := batCenters[0];  // the primary bat
      batsman := SelectBatsman(batCenter, people, dist);
      if batsman != -1 {
        PushWrists(people[batsman]);
      }
    }

    /** Push each confident wrist of the chosen batsman into its history. */
    method PushWrists(kps: seq<Keypoint>)
      requires Valid()
      modifies this`leftWristHistory, this`rightWristHistory
      ensures Valid()
      ensures State() == old(State()).(leftWristHistory := leftWristHistory, rightWristHistory := rightWristHistory)
      ensures leftWristHistory == AppendAll(old(leftWristHistory), WristSamples(frameCount, LeftWrist(kps)))
      ensures rightWristHistory == AppendAll(old(rightWristHistory), WristSamples(frameCount, RightWrist(kps)))
    {
      var leftWrist := LeftWrist(kps);
      var rightWrist := RightWrist(kps);
      if leftWrist.Some? {
        AppendKeepsHistoryOk(leftWristHistory, Sample(frameCount, leftWrist.value), frameCount);
        leftWristHistory := Append(leftWristHistory, Sample(frameCount, leftWrist.value));
        assert [Sample(frameCount, leftWrist.value)][1..] == [];
      }
      if rightWrist.Some? {
        AppendKeepsHistoryOk(rightWristHistory, Sample(frameCount, rightWrist.value), frameCount);
        rightWristHistory := Append(rightWristHistory, Sample(frameCount, rightWrist.value));
        assert [Sample(frameCount, rightWrist.value)][1..] == [];
      }
    }

    /**
     * One iteration of the main loop of analyze_video: count the frame, push
     * every bat centre into the bat history, track the batsman's wrists and
     * run the impact check with the given distance threshold (half a metre in pixels).
     */
    method ProcessFrame(detections: FrameDetections, fps: real, threshold: real) returns (detected: bool)
      requires Valid() && fps > 0.0
      modifies this
      ensures Valid()
      ensures State() == FrameStep(old(State()), detections, fps, threshold, dist)
      ensures detected <==> ImpactHit(FramePushes(old(State()), detections, dist),
                                      detections.batCenters, detections.ballCenters, fps, threshold, dist)
    {
      PushFrame(detections);
      var minDist;
      detected, minDist := DetectImpact(detections.batCenters, detections.ballCenters, fps, threshold);
    }

    /**
     * The first part of a frame of analyze_video: count the frame, push every
     * bat centre, and push the confident wrists of the batsman nearest to the first bat.
     */
    method PushFrame(detections: FrameDetections)
      requires Valid()
      modifies this
      ensures Valid()
      ensures State() == FramePushes(old(State()), detections, dist)
    {
      ghost var start := State();
      frameCount := frameCount + 1;
      assert State() == start.(frameCount := start.frameCount + 1);
      PushBatCenters(detections.batCenters);
      var batsman := TrackBatsmanWrists(detections.batCenters, detections.people);
    }

    /** The frame loop of analyze_video: every frame, in order, through ProcessFrame. */
    method ProcessFrames(frames: seq<FrameDetections>, fps: real, threshold: real)
      requires Valid() && fps > 0.0
      modifies this
      ensures Valid()
      ensures State() == RunFrames(old(State()), frames, fps, threshold, dist)
    {
      ghost var start := State();
      var n := 0;
      while n < |frames|
        invariant 0 <= n <= |frames|
        invariant Valid()
        invariant State() == RunFrames(start, frames[..n], fps, threshold, dist)
      {
        var detected := ProcessFrame(frames[n], fps, threshold);
        RunFramesPrefix(start, frames, n, fps, threshold, dist);
        n := n + 1;
      }
      assert frames[..n] == frames;
    }

    /**
     * analyze_video without the video I/O: reset, calibrate on the stump
     * readings, process every frame in order, and report the statistics.
     */
    method AnalyzeVideo(frames: seq<FrameDetections>, fps: real) returns (stats: FinalStats)
      requires fps > 0.0
      modifies this
      ensures Valid()
      ensures State() == Analysis(frames, fps, dist)
      ensures stats == FinalStatistics(frameCount, impactCount, impacts)
      ensures stats.totalFrames == |frames| && stats.totalShots == |stats.impacts|
      ensures forall i, j :: 0 <= i < j < |stats.impacts| ==> stats.impacts[j].frame - stats.impacts[i].frame >= ImpactCooldownFrames
      ensures forall k :: 0 <= k < |stats.impacts| ==> 1 <= stats.impacts[k].frame <= |frames|
    {
      ResetAnalysisState();
      var ppm := SetupScalingFactor(StumpHeights(frames));
      pixelsPerMeter := Some(ppm);
      var impactDistanceThreshold := ImpactDistanceThreshold(ppm);
      assert State() == StartTracker(ppm);
      ProcessFrames(frames, fps, impactDistanceThreshold);
      RunFramesImpactFrames(StartTracker(ppm), frames, fps, impactDistanceThreshold, dist);
      SpacedAll(impacts);
      stats := FinalStatistics(frameCount, impactCount, impacts);
    }
  }

  /** The stump height reported for each frame, in order. */
  function StumpHeights(frames: seq<FrameDetections>): (r: seq<Option<real>>)
    ensures |r| == |frames| && forall k :: 0 <= k < |r| ==> r[k] == frames[k].stumpHeight
  {
    seq(|frames|, k requires 0 <= k < |frames| => frames[k].stumpHeight)
  }

  lemma {:induction false} AppendAllSnoc(h: seq<Sample>, ss: seq<Sample>, s: Sample)
    requires |h| <= HistoryCapacity
    ensures |AppendAll(h, ss)| <= HistoryCapacity
    ensures AppendAll(h, ss + [s]) == Append(AppendAll(h, ss), s)
  {
    AppendAllKeepsLast(h, ss + [s]);
    AppendAllKeepsLast(h, ss);
    LastNOfLastN(h + ss, [s], HistoryCapacity);
    assert h + (ss + [s]) == (h + ss) + [s];
  }
}
