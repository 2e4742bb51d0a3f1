/** Progress bands: each stage owns a stretch of the 0..100 task bar, proportional to its cost. */
module Progress {
  import opened Numeric
  import opened PipelineTypes

  const SPAN_START := 2
  const SPAN_END := 100

  /** Cost of the working stages, from preparing to mixing, relative to the audio's duration. */
  const STAGE_DURATION_FACTORS: seq<real> := [0.02, 0.35, 0.30, 0.25, 0.04, 0.25, 0.03, 0.08]

  predicate PositiveFactors(factors: seq<real>) {
    factors != [] && forall i :: 0 <= i < |factors| ==> factors[i] > 0.0
  }

  function Sum(factors: seq<real>, n: nat): real
    requires n <= |factors|
  {
    if n == 0 then 0.0 else Sum(factors, n - 1) + factors[n - 1]
  }

  lemma {:induction false} SumIsPositive(factors: seq<real>, n: nat)
    requires PositiveFactors(factors) && n <= |factors|
    ensures 0.0 <= Sum(factors, n) && (n > 0 ==> Sum(factors, n) > 0.0)
  {
    if n > 0 {
      SumIsPositive(factors, n - 1);
    }
  }

  /** The unrounded left edge of band `k`. */
  function Cursor(factors: seq<real>, k: nat): real
    requires PositiveFactors(factors) && k <= |factors|
  {
    if k == 0 then SPAN_START as real
    else
      SumIsPositive(factors, |factors|);
      Cursor(factors, k - 1) + (SPAN_END - SPAN_START) as real * factors[k - 1] / Sum(factors, |factors|)
  }

  /** The edge between band `k - 1` and band `k`. */
  function Edge(factors: seq<real>, k: nat): int
    requires PositiveFactors(factors) && k <= |factors|
  {
    Round(Cursor(factors, k))
  }

  method BuildBands(factors: seq<real>) returns (starts: seq<int>, ends: seq<int>)
    requires PositiveFactors(factors)
    ensures |starts| == |ends| == |factors|
    ensures starts[0] == SPAN_START && ends[|ends| - 1] == SPAN_END
    ensures forall k :: 0 <= k < |factors| ==> starts[k] == Edge(factors, k) <= ends[k]
    ensures forall k :: 0 <= k < |factors| - 1 ==> ends[k] == starts[k + 1]
  {
    hide Round;
    hide Edge;
    SumIsPositive(factors, |factors|);
    var total := 0.0;
    for i := 0 to |factors|
      invariant total == Sum(factors, i)
    {
      total := total + factors[i];
    }
    var cursor := SPAN_START as real;
    starts, ends := [], [];
    for k := 0 to |factors|
      invariant cursor == Cursor(factors, k) && |starts| == |ends| == k
      invariant forall j :: 0 <= j < k ==> starts[j] == Edge(factors, j) && ends[j] == Edge(factors, j + 1)
    {
      EdgeIsRounded(factors, k);
      EdgeIsRounded(factors, k + 1);
      var start := cursor;
      cursor := cursor + (SPAN_END - SPAN_START) as real * factors[k] / total;
      starts := starts + [Round(start)];
      ends := ends + [Round(cursor)];
    }
    EdgesAdvance(factors);
    forall k | 0 <= k < |factors| ensures starts[k] == Edge(factors, k) <= ends[k] {
      assert Edge(factors, k) <= Edge(factors, k + 1);
    }
    ends := ends[|ends| - 1 := SPAN_END];
  }

  lemma EdgeIsRounded(factors: seq<real>, k: nat)
    requires PositiveFactors(factors) && k <= |factors|
    ensures Edge(factors, k) == Round(Cursor(factors, k))
  {
  }

  lemma CursorAdvances(factors: seq<real>, k: nat)
    requires PositiveFactors(factors) && k < |factors|
    ensures Cursor(factors, k) <= Cursor(factors, k + 1)
  {
    SumIsPositive(factors, |factors|);
    assert (SPAN_END - SPAN_START) as real * factors[k] / Sum(factors, |factors|) >= 0.0;
  }

  /** The edges run in order from 2 to 100. */
  lemma EdgesAdvance(factors: seq<real>)
    requires PositiveFactors(factors)
    ensures Edge(factors, 0) == SPAN_START && Edge(factors, |factors|) == SPAN_END
    ensures forall k, m :: 0 <= k < m <= |factors| && m == k + 1 ==> Edge(factors, k) <= Edge(factors, m)
  {
    CursorEndsAtSpanEnd(factors);
    forall k, m | 0 <= k < m <= |factors| && m == k + 1 ensures Edge(factors, k) <= Edge(factors, m) {
      CursorAdvances(factors, k);
      RoundMonotone(Cursor(factors, k), Cursor(factors, k + 1));
    }
  }

  lemma {:induction false} CursorIsProportional(factors: seq<real>, k: nat)
    requires PositiveFactors(factors) && k <= |factors|
    ensures Sum(factors, |factors|) > 0.0
    ensures Cursor(factors, k) == SPAN_START as real
              + (SPAN_END - SPAN_START) as real * Sum(factors, k) / Sum(factors, |factors|)
  {
    SumIsPositive(factors, |factors|);
    if k > 0 {
      CursorIsProportional(factors, k - 1);
    }
  }

  /** The shares add up: before rounding the last band already ends at 100. */
  lemma CursorEndsAtSpanEnd(factors: seq<real>)
    requires PositiveFactors(factors)
    ensures Cursor(factors, |factors|) == SPAN_END as real
  {
    CursorIsProportional(factors, |factors|);
    var total := Sum(factors, |factors|);
    assert (SPAN_END - SPAN_START) as real * total / total == (SPAN_END - SPAN_START) as real;
  }

  // ----- The bands of the actual stages -----

  predicate IsWorkStage(stage: TaskStage) {
    stage != Uploaded && stage != StageCompleted && stage != StageFailed
  }

  /** Position of a working stage in the list the bands are built from. */
  function WorkIndex(stage: TaskStage): (k: nat)
    requires IsWorkStage(stage)
    ensures k < |STAGE_DURATION_FACTORS|
  {
    match stage
    case Preparing => 0
    case Separating => 1
    case Diarizing => 2
    case Transcribing => 3
    case Translating => 4
    case Synthesizing => 5
    case Aligning => 6
    case Mixing => 7
  }

  /** `STAGE_PROGRESS` */
  function StageStart(stage: TaskStage): (percent: int)
    ensures 0 <= percent <= 100
  {
    match stage
    case Uploaded => 0
    case Preparing => 2
    case Separating => 3
    case Diarizing => 29
    case Transcribing => 52
    case Translating => 70
    case Synthesizing => 73
    case Aligning => 92
    case Mixing => 94
    case StageCompleted => 100
    case StageFailed => 100
  }

  /** `STAGE_END_PROGRESS` */
  function StageEnd(stage: TaskStage): (percent: int)
    ensures StageStart(stage) <= percent <= 100
    ensures IsWorkStage(stage) ==> 1 <= percent - StageStart(stage) <= 99
  {
    match stage
    case Uploaded => 2
    case Preparing => 3
    case Separating => 29
    case Diarizing => 52
    case Transcribing => 70
    case Translating => 73
    case Synthesizing => 92
    case Aligning => 94
    case Mixing => 100
    case StageCompleted => 100
    case StageFailed => 100
  }

  lemma FactorSums()
    ensures var f := STAGE_DURATION_FACTORS;
            && Sum(f, 0) == 0.0 && Sum(f, 1) == 0.02 && Sum(f, 2) == 0.37 && Sum(f, 3) == 0.67 && Sum(f, 4) == 0.92
            && Sum(f, 5) == 0.96 && Sum(f, 6) == 1.21 && Sum(f, 7) == 1.24 && Sum(f, 8) == 1.32
  {
    assert Sum(STAGE_DURATION_FACTORS, 2) == 0.37;
    assert Sum(STAGE_DURATION_FACTORS, 4) == 0.92;
    assert Sum(STAGE_DURATION_FACTORS, 6) == 1.21;
  }

  lemma EdgeFromSum(k: nat, sum: real, edge: int)
    requires k <= 8 && Sum(STAGE_DURATION_FACTORS, k) == sum && Sum(STAGE_DURATION_FACTORS, 8) == 1.32
    requires -0.5 < 2.0 + 98.0 * sum / 1.32 - edge as real < 0.5
    ensures PositiveFactors(STAGE_DURATION_FACTORS) && Edge(STAGE_DURATION_FACTORS, k) == edge
  {
    hide Sum, Cursor, Round;
    CursorIsProportional(STAGE_DURATION_FACTORS, k);
    NearestEdge(2.0 + 98.0 * sum / 1.32, edge);
  }

  lemma NearestEdge(x: real, edge: int)
    requires -0.5 < x - edge as real < 0.5
    ensures Round(x) == edge
  {
  }

  /** The tables are the bands built from the stage factors. */
  lemma BandsComeFromFactors(stage: TaskStage)
    requires IsWorkStage(stage)
    ensures PositiveFactors(STAGE_DURATION_FACTORS)
    ensures StageStart(stage) == Edge(STAGE_DURATION_FACTORS, WorkIndex(stage))
    ensures StageEnd(stage) == Edge(STAGE_DURATION_FACTORS, WorkIndex(stage) + 1)
  {
    FactorSums();
    EdgeFromSum(0, 0.0, 2);
    EdgeFromSum(1, 0.02, 3);
    EdgeFromSum(2, 0.37, 29);
    EdgeFromSum(3, 0.67, 52);
    EdgeFromSum(4, 0.92, 70);
    EdgeFromSum(5, 0.96, 73);
    EdgeFromSum(6, 1.21, 92);
    EdgeFromSum(7, 1.24, 94);
    EdgeFromSum(8, 1.32, 100);
  }

  /** How many points of a band of `width` a percentage makes, and what percentage a point is. */
  function Points(width: int, percent: int): real {
    (width * percent) as real / 100.0
  }

  function Percent(offset: int, width: int): real
    requires width > 0
  {
    (offset * 100) as real / width as real
  }

  function Share(width: int, percent: int): int {
    Round(Points(width, percent))
  }

  function Portion(offset: int, width: int): int
    requires width > 0
  {
    Round(Percent(offset, width))
  }

  function OverallProgress(stage: TaskStage, stageProgress: int): int {
    var start, end := StageStart(stage), StageEnd(stage);
    var bounded := MaxInt(0, MinInt(stageProgress, 100));
    MinInt(100, start + Share(end - start, bounded))
  }

  function StageProgressFromOverall(stage: TaskStage, overall: int): (percent: int)
    ensures 0 <= percent <= 100
  {
    var start, end := StageStart(stage), StageEnd(stage);
    if end <= start then if overall >= end then 100 else 0
    else
      var bounded := MaxInt(start, MinInt(overall, end));
      MaxInt(0, MinInt(100, Portion(bounded - start, end - start)))
  }

  lemma PointsInOrder(width: nat, a: int, b: int)
    requires a <= b
    ensures Points(width, a) <= Points(width, b)
  {
    assert width * (b - a) >= 0;
    assert width * a <= width * b;
  }

  lemma ShareIsMonotone(width: nat, a: int, b: int)
    requires a <= b
    ensures Share(width, a) <= Share(width, b)
  {
    hide Round, Points;
    PointsInOrder(width, a, b);
    RoundMonotone(Points(width, a), Points(width, b));
  }

  lemma ShareOfBounds(width: nat)
    ensures Share(width, 0) == 0 && Share(width, 100) == width
  {
    assert Points(width, 100) == width as real;
  }

  /** Whatever a stage reports, the task stays within the stage's band. */
  lemma OverallStaysInBand(stage: TaskStage, stageProgress: int)
    ensures StageStart(stage) <= OverallProgress(stage, stageProgress) <= StageEnd(stage)
  {
    hide Share;
    var width, bounded := StageEnd(stage) - StageStart(stage), MaxInt(0, MinInt(stageProgress, 100));
    ShareOfBounds(width);
    ShareIsMonotone(width, 0, bounded);
    ShareIsMonotone(width, bounded, 100);
  }

  lemma OverallProgressIsMonotone(stage: TaskStage, p: int, q: int)
    requires p <= q
    ensures OverallProgress(stage, p) <= OverallProgress(stage, q)
  {
    hide Share;
    ShareIsMonotone(StageEnd(stage) - StageStart(stage), MaxInt(0, MinInt(p, 100)), MaxInt(0, MinInt(q, 100)));
  }

  /** Mapping a point of a band to a stage percentage and back returns to it, whichever way ties
      are rounded, as long as the band is narrower than 100 points. */
  lemma RoundTripUnderAnyRounding(width: int, offset: int, stagePercent: int, back: int)
    requires 1 <= width <= 99 && 0 <= offset <= width
    requires Abs(stagePercent as real - Percent(offset, width)) <= 0.5
    requires Abs(back as real - Points(width, stagePercent)) <= 0.5
    ensures back == offset && 0 <= stagePercent <= 100
  {
    hide Percent, Points;
    PercentOfPoint(width, offset);
    WholePercent(stagePercent, Percent(offset, width));
    PointsNearOffset(width, offset, stagePercent);
    NearestOffset(width, offset, Points(width, stagePercent), back);
  }

  lemma PercentOfPoint(width: int, offset: int)
    requires 0 <= offset <= width && width > 0
    ensures 0.0 <= Percent(offset, width) <= 100.0
    ensures Percent(offset, width) * width as real == offset as real * 100.0
  {
    var exact, w := Percent(offset, width), width as real;
    assert exact * w == offset as real * 100.0;
    assert exact > 100.0 ==> (exact - 100.0) * w > 0.0;
  }

  lemma WholePercent(percent: int, exact: real)
    requires 0.0 <= exact <= 100.0 && Abs(percent as real - exact) <= 0.5
    ensures 0 <= percent <= 100
  {
  }

  lemma PointsNearOffset(width: int, offset: int, percent: int)
    requires 0 <= offset <= width && width > 0 && Abs(percent as real - Percent(offset, width)) <= 0.5
    ensures Abs(Points(width, percent) - offset as real) <= width as real / 200.0
  {
    hide Percent;
    PercentOfPoint(width, offset);
    var w, error := width as real, percent as real - Percent(offset, width);
    ScaledError(w, error);
    Distribute(w, percent as real, Percent(offset, width));
    RealProduct(width, percent);
  }

  lemma NonNegativeProduct(x: real, y: real)
    requires x >= 0.0 && y >= 0.0
    ensures x * y >= 0.0
  {
  }

  lemma ScaledError(w: real, error: real)
    requires w > 0.0 && Abs(error) <= 0.5
    ensures Abs(w * error) <= w / 2.0
  {
    NonNegativeProduct(w, 0.5 - error);
    NonNegativeProduct(w, 0.5 + error);
    Distribute(w, 0.5, error);
    assert w * (0.5 + error) == w * 0.5 + w * error;
  }

  lemma Distribute(w: real, x: real, y: real)
    ensures w * (x - y) == w * x - y * w
  {
  }

  lemma RealProduct(m: int, n: int)
    ensures (m * n) as real == m as real * n as real
  {
  }

  lemma NearestOffset(width: int, offset: int, points: real, back: int)
    requires width <= 99 && Abs(points - offset as real) <= width as real / 200.0
    requires Abs(back as real - points) <= 0.5
    ensures back == offset
  {
  }

  /** The two maps of the source are inverse on every point of every working stage's band. */
  lemma OverallRoundTrip(stage: TaskStage, overall: int)
    requires IsWorkStage(stage) && StageStart(stage) <= overall <= StageEnd(stage)
    ensures OverallProgress(stage, StageProgressFromOverall(stage, overall)) == overall
  {
    hide Share, Portion;
    PortionRoundTrip(StageEnd(stage) - StageStart(stage), overall - StageStart(stage));
  }

  lemma PortionRoundTrip(width: int, offset: int)
    requires 1 <= width <= 99 && 0 <= offset <= width
    ensures Share(width, Portion(offset, width)) == offset && 0 <= Portion(offset, width) <= 100
  {
    hide Round;
    var percent := Portion(offset, width);
    RoundTripUnderAnyRounding(width, offset, percent, Share(width, percent));
  }
}
