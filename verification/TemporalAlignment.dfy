/** The alignment stage: dubbed clips are laid on the timeline by one cursor that never lets a
    clip overlap its predecessor or start before the sentence it replaces. */
module TemporalAlignment {
  import opened Numeric
  import opened PipelineTypes

  const MIN_ORIGINAL_SECONDS := 0.1
  const MAX_SPEEDUP := 1.3

  /** What the cursor loop reads of one clip: the span of the first original segment of its
      unit, floored at a tenth of a second, and the length of the synthesized audio. */
  datatype Span = Span(origStart: real, origDuration: real, synthDuration: real)

  type Clip = c: Span | c.origDuration >= MIN_ORIGINAL_SECONDS witness Span(0.0, 0.1, 0.0)

  /** A clip without audio, or naming no segment, is passed over by the loop. */
  predicate Active(segments: seq<Segment>, synth: Synth) {
    0 <= synth.segmentId < |segments| && synth.audioUrl != ""
  }

  function ClipOf(segments: seq<Segment>, synth: Synth): Clip
    requires Active(segments, synth)
  {
    var orig := segments[synth.segmentId];
    Span(orig.start, Max(orig.end - orig.start, MIN_ORIGINAL_SECONDS), synth.duration)
  }

  predicate Compressed(c: Clip) {
    c.synthDuration > c.origDuration && c.synthDuration / c.origDuration <= MAX_SPEEDUP
  }

  predicate Overlong(c: Clip) {
    c.synthDuration > MAX_SPEEDUP * c.origDuration
  }

  function FinalDuration(c: Clip): real {
    if Compressed(c) then c.origDuration else c.synthDuration
  }

  /** A clip keeps its length, unless speeding it up by at most 30% makes it fit exactly; it
      still exceeds its span exactly when even that would not have been enough. */
  lemma FinalDurationFits(c: Clip)
    ensures FinalDuration(c) == if Overlong(c) then c.synthDuration else Min(c.synthDuration, c.origDuration)
    ensures FinalDuration(c) > c.origDuration <==> Overlong(c)
  {
    assert c.synthDuration / c.origDuration * c.origDuration == c.synthDuration;
  }

  /** Where the cursor stands once the given clips have been placed. */
  function Cursor(clips: seq<Clip>): real {
    if clips == [] then 0.0
    else
      var last := clips[|clips| - 1];
      Max(last.origStart, Cursor(clips[..|clips| - 1])) + FinalDuration(last)
  }

  function StartOf(clips: seq<Clip>, k: nat): real
    requires k < |clips|
  {
    Max(clips[k].origStart, Cursor(clips[..k]))
  }

  lemma CursorAfter(clips: seq<Clip>, k: nat)
    requires k < |clips|
    ensures Cursor(clips[..k + 1]) == StartOf(clips, k) + FinalDuration(clips[k])
  {
    assert clips[..k + 1][..k] == clips[..k];
  }

  function Clips(segments: seq<Segment>, synths: seq<Synth>): seq<Clip> {
    if synths == [] then []
    else
      var last := synths[|synths| - 1];
      var earlier := Clips(segments, synths[..|synths| - 1]);
      if Active(segments, last) then earlier + [ClipOf(segments, last)] else earlier
  }

  /** The dictionary of clip `i` after the stage ran. */
  function AlignedClip(segments: seq<Segment>, synths: seq<Synth>, stretchedUrl: (int, string) -> string, i: nat): Synth
    requires i < |synths|
  {
    var synth := synths[i];
    if Active(segments, synth) then
      var clip := ClipOf(segments, synth);
      var start := Max(clip.origStart, Cursor(Clips(segments, synths[..i])));
      Synth(synth.segmentId,
            if Compressed(clip) then stretchedUrl(synth.segmentId, synth.audioUrl) else synth.audioUrl,
            FinalDuration(clip), Some(start), Some(start + FinalDuration(clip)))
    else synth
  }

  function Aligned(segments: seq<Segment>, synths: seq<Synth>, stretchedUrl: (int, string) -> string): seq<Synth> {
    seq(|synths|, i requires 0 <= i < |synths| => AlignedClip(segments, synths, stretchedUrl, i))
  }

  /** Decides whether one clip is sped up to fit the span it replaces. */
  method FitClip(origStart: real, origDuration: real, synth: Synth, stretchedUrl: (int, string) -> string)
      returns (finalDuration: real, finalUrl: string)
    requires origDuration >= MIN_ORIGINAL_SECONDS
    ensures finalDuration == FinalDuration(Span(origStart, origDuration, synth.duration))
    ensures finalUrl == if Compressed(Span(origStart, origDuration, synth.duration))
                        then stretchedUrl(synth.segmentId, synth.audioUrl) else synth.audioUrl
  {
    finalDuration := synth.duration;
    finalUrl := synth.audioUrl;
    if synth.duration > origDuration {
      var ratio := synth.duration / origDuration;
      if ratio <= MAX_SPEEDUP {
        finalUrl := stretchedUrl(synth.segmentId, synth.audioUrl);
        finalDuration := origDuration;
      }
    }
  }

  /** One turn of the cursor loop; a clip without a segment or a file is passed over. */
  method PlaceClip(segments: seq<Segment>, synth: Synth, cursor: real, stretchedUrl: (int, string) -> string,
                   ghost synths: seq<Synth>, ghost i: nat)
      returns (aligned: Synth, next: real)
    requires i < |synths| && synth == synths[i] && cursor == Cursor(Clips(segments, synths[..i]))
    ensures aligned == AlignedClip(segments, synths, stretchedUrl, i)
    ensures next == Cursor(Clips(segments, synths[..i + 1]))
  {
    hide Clips, Cursor, FinalDuration, Compressed;
    ClipsGrow(segments, synths, i);
    if !(0 <= synth.segmentId < |segments|) || synth.audioUrl == "" {
      return synth, cursor;
    }
    var orig := segments[synth.segmentId];
    var origDuration := Max(orig.end - orig.start, MIN_ORIGINAL_SECONDS);
    var alignedStart := Max(orig.start, cursor);
    var finalDuration, finalUrl := FitClip(orig.start, origDuration, synth, stretchedUrl);
    var alignedEnd := alignedStart + finalDuration;
    next := alignedEnd;
    aligned := synth.(alignedStart := Some(alignedStart), alignedEnd := Some(alignedEnd),
                      audioUrl := finalUrl, duration := finalDuration);
  }

  lemma NothingPlaced(segments: seq<Segment>, synths: seq<Synth>)
    ensures Cursor(Clips(segments, synths[..0])) == 0.0
  {
  }

  lemma AlignedClipByClip(segments: seq<Segment>, synths: seq<Synth>, stretchedUrl: (int, string) -> string, out: seq<Synth>)
    requires |out| == |synths|
    requires forall j :: 0 <= j < |out| ==> out[j] == AlignedClip(segments, synths, stretchedUrl, j)
    ensures out == Aligned(segments, synths, stretchedUrl)
  {
    hide AlignedClip;
  }

  class AlignmentStage {
    var synthSegments: seq<Synth>

    /** The cursor loop. `ok` is false where the stage raises for want of input. */
    method Process(segments: seq<Segment>, stretchedUrl: (int, string) -> string) returns (ok: bool)
      modifies this
      ensures ok <==> old(synthSegments) != [] && segments != []
      ensures synthSegments == if ok then Aligned(segments, old(synthSegments), stretchedUrl) else old(synthSegments)
    {
      hide AlignedClip, Clips, Cursor, Aligned, Active, ClipOf;
      if synthSegments == [] || segments == [] {
        return false;
      }
      ghost var before := synthSegments;
      var cursor := 0.0;
      var i := 0;
      NothingPlaced(segments, before);
      while i < |synthSegments|
        invariant 0 <= i <= |synthSegments| == |before|
        invariant cursor == Cursor(Clips(segments, before[..i]))
        invariant synthSegments[i..] == before[i..]
        invariant forall j :: 0 <= j < i ==> synthSegments[j] == AlignedClip(segments, before, stretchedUrl, j)
      {
        var aligned;
        aligned, cursor := PlaceClip(segments, synthSegments[i], cursor, stretchedUrl, before, i);
        synthSegments := synthSegments[i := aligned];
        i := i + 1;
      }
      AlignedClipByClip(segments, before, stretchedUrl, synthSegments);
      ok := true;
    }
  }

  // ----- The schedule as a max-plus recurrence -----

  /** Total final length of the clips from `j` up to, not including, `k`. */
  function Length(clips: seq<Clip>, j: nat, k: nat): real
    requires j <= k <= |clips|
    decreases k - j
  {
    if j == k then 0.0 else Length(clips, j, k - 1) + FinalDuration(clips[k - 1])
  }

  /** Clip `k` starts as late as some earlier original start plus everything played since then
      (or since the beginning), and no later. */
  lemma {:induction false} StartIsMaxPlus(clips: seq<Clip>, k: nat)
    requires k < |clips|
    ensures forall j :: 0 <= j <= k ==> StartOf(clips, k) >= clips[j].origStart + Length(clips, j, k)
    ensures StartOf(clips, k) >= Length(clips, 0, k)
    ensures StartOf(clips, k) == Length(clips, 0, k)
         || exists j :: 0 <= j <= k && StartOf(clips, k) == clips[j].origStart + Length(clips, j, k)
    decreases k
  {
    assert clips[k].origStart == clips[k].origStart + Length(clips, k, k);
    if k > 0 {
      StartIsMaxPlus(clips, k - 1);
      CursorAfter(clips, k - 1);
    }
  }

  /** A schedule of the same clips is legal when it starts at or after time zero, no clip precedes
      its original start, and no two clips overlap. */
  ghost predicate Legal(clips: seq<Clip>, starts: seq<real>) {
    && |starts| == |clips|
    && (forall k :: 0 <= k < |clips| ==> starts[k] >= clips[k].origStart && starts[k] >= 0.0)
    && (forall k :: 0 < k < |clips| ==> starts[k] >= starts[k - 1] + FinalDuration(clips[k - 1]))
  }

  function Schedule(clips: seq<Clip>): (starts: seq<real>)
    ensures |starts| == |clips|
    ensures forall k :: 0 <= k < |clips| ==> starts[k] == StartOf(clips, k)
  {
    seq(|clips|, k requires 0 <= k < |clips| => StartOf(clips, k))
  }

  lemma ClipsGrow(segments: seq<Segment>, synths: seq<Synth>, i: nat)
    requires i < |synths|
    ensures var earlier := Clips(segments, synths[..i]);
            Clips(segments, synths[..i + 1]) ==
            if Active(segments, synths[i]) then earlier + [ClipOf(segments, synths[i])] else earlier
    ensures Active(segments, synths[i]) ==>
            var clip := ClipOf(segments, synths[i]);
            Cursor(Clips(segments, synths[..i + 1])) ==
            Max(clip.origStart, Cursor(Clips(segments, synths[..i]))) + FinalDuration(clip)
  {
    assert synths[..i + 1][..i] == synths[..i];
    var earlier := Clips(segments, synths[..i]);
    if Active(segments, synths[i]) {
      assert (earlier + [ClipOf(segments, synths[i])])[..|earlier|] == earlier;
    }
  }

  lemma {:induction false} StartsAtOrAfterZero(clips: seq<Clip>, k: nat)
    requires k < |clips|
    requires forall j :: 0 <= j < k ==> FinalDuration(clips[j]) >= 0.0
    ensures StartOf(clips, k) >= 0.0
    decreases k
  {
    if k > 0 {
      StartsAtOrAfterZero(clips, k - 1);
      CursorAfter(clips, k - 1);
    }
  }

  /** The schedule the stage computes is itself legal. */
  lemma ScheduleIsLegal(clips: seq<Clip>)
    requires forall k :: 0 <= k < |clips| ==> clips[k].synthDuration >= 0.0
    ensures Legal(clips, Schedule(clips))
  {
    forall k | 0 <= k < |clips| ensures Schedule(clips)[k] >= 0.0 {
      StartsAtOrAfterZero(clips, k);
    }
    forall k | 0 < k < |clips| ensures StartOf(clips, k) >= StartOf(clips, k - 1) + FinalDuration(clips[k - 1]) {
      CursorAfter(clips, k - 1);
    }
  }

  /** ... and it is the earliest legal one, clip by clip. */
  lemma {:induction false} ScheduleIsEarliest(clips: seq<Clip>, starts: seq<real>, k: nat)
    requires Legal(clips, starts) && k < |clips|
    ensures StartOf(clips, k) <= starts[k]
    decreases k
  {
    if k > 0 {
      ScheduleIsEarliest(clips, starts, k - 1);
      CursorAfter(clips, k - 1);
    }
  }

  /** How much the overlong clips among the first `k` exceed the spans they replace. */
  function Excess(clips: seq<Clip>, k: nat): real
    requires k <= |clips|
  {
    if k == 0 then 0.0
    else
      var c := clips[k - 1];
      Excess(clips, k - 1) + if Overlong(c) then c.synthDuration - c.origDuration else 0.0
  }

  /** Over originals that follow one another without overlap, clip `k` is late by no more than
      the summed excess of the earlier overlong clips; so it is on time when there are none. */
  lemma {:induction false} DriftIsBoundedByExcess(clips: seq<Clip>, k: nat)
    requires k < |clips| && clips[0].origStart >= 0.0
    requires forall j :: 0 < j <= k ==> clips[j - 1].origStart + clips[j - 1].origDuration <= clips[j].origStart
    ensures 0.0 <= StartOf(clips, k) - clips[k].origStart <= Excess(clips, k)
    ensures (forall j :: 0 <= j < k ==> !Overlong(clips[j])) ==> StartOf(clips, k) == clips[k].origStart
    decreases k
  {
    if k > 0 {
      DriftIsBoundedByExcess(clips, k - 1);
      FinalDurationFits(clips[k - 1]);
      CursorAfter(clips, k - 1);
    }
  }

  // ----- What this says of the stage's output -----

  lemma {:induction false} ClipPosition(segments: seq<Segment>, synths: seq<Synth>, i: nat)
    requires i < |synths| && Active(segments, synths[i])
    ensures var placed := Clips(segments, synths[..i]); var clips := Clips(segments, synths);
            |placed| < |clips| && clips[..|placed|] == placed && clips[|placed|] == ClipOf(segments, synths[i])
    decreases |synths|
  {
    var shorter := synths[..|synths| - 1];
    if i < |shorter| {
      ClipPosition(segments, shorter, i);
      assert shorter[..i] == synths[..i];
    }
  }

  lemma {:induction false} ClipsComeFromSynths(segments: seq<Segment>, synths: seq<Synth>)
    requires forall i :: 0 <= i < |synths| ==> synths[i].duration >= 0.0
    ensures forall k :: 0 <= k < |Clips(segments, synths)| ==> Clips(segments, synths)[k].synthDuration >= 0.0
    decreases |synths|
  {
    if synths != [] {
      ClipsComeFromSynths(segments, synths[..|synths| - 1]);
    }
  }

  lemma {:induction false} CursorNeverRetreats(clips: seq<Clip>, m: nat, n: nat)
    requires m <= n <= |clips|
    requires forall k :: 0 <= k < |clips| ==> clips[k].synthDuration >= 0.0
    ensures Cursor(clips[..m]) <= Cursor(clips[..n])
    decreases n
  {
    if m < n {
      CursorNeverRetreats(clips, m, n - 1);
      CursorAfter(clips, n - 1);
    }
  }

  /** The aligned clips are ordered and disjoint, start at or after zero, and none starts before
      the sentence it replaces. */
  lemma AlignedClipsAreDisjoint(
      segments: seq<Segment>, synths: seq<Synth>, stretchedUrl: (int, string) -> string, i: nat, j: nat)
    requires i < j < |synths| && Active(segments, synths[i]) && Active(segments, synths[j])
    requires forall k :: 0 <= k < |synths| ==> synths[k].duration >= 0.0
    ensures var out := Aligned(segments, synths, stretchedUrl);
            && 0.0 <= out[i].alignedStart.value <= out[i].alignedEnd.value <= out[j].alignedStart.value
            && segments[synths[i].segmentId].start <= out[i].alignedStart.value
            && segments[synths[j].segmentId].start <= out[j].alignedStart.value
  {
    var clips := Clips(segments, synths);
    ClipsComeFromSynths(segments, synths);
    ClipPosition(segments, synths, i);
    ClipPosition(segments, synths, j);
    var p, q := |Clips(segments, synths[..i])|, |Clips(segments, synths[..j])|;
    assert p < q by {
      ClipPosition(segments, synths[..j], i);
      assert synths[..j][..i] == synths[..i];
    }
    assert Cursor(clips[..p + 1]) == Aligned(segments, synths, stretchedUrl)[i].alignedEnd.value by {
      CursorAfter(clips, p);
    }
    CursorNeverRetreats(clips, p + 1, q);
    StartsAtOrAfterZero(clips, p);
  }

  /** What the stage writes for one clip: it keeps its length and file unless it is longer than the
      span it replaces by at most 30%, when a stretched file takes its place that fits exactly. */
  lemma AlignedClipIsFitted(segments: seq<Segment>, synths: seq<Synth>, stretchedUrl: (int, string) -> string, i: nat)
    requires i < |synths|
    ensures var synth, out := synths[i], Aligned(segments, synths, stretchedUrl)[i];
            if 0 <= synth.segmentId < |segments| && synth.audioUrl != "" then
              var orig := segments[synth.segmentId];
              var span := if orig.end - orig.start >= 0.1 then orig.end - orig.start else 0.1;
              && out.segmentId == synth.segmentId
              && out.alignedStart.Some? && out.alignedEnd == Some(out.alignedStart.value + out.duration)
              && (span < synth.duration <= 1.3 * span ==>
                    out.duration == span && out.audioUrl == stretchedUrl(synth.segmentId, synth.audioUrl))
              && (synth.duration <= span || synth.duration > 1.3 * span ==>
                    out.duration == synth.duration && out.audioUrl == synth.audioUrl)
            else out == synth
  {
    if Active(segments, synths[i]) {
      FinalDurationFits(ClipOf(segments, synths[i]));
      var clip := ClipOf(segments, synths[i]);
      assert Compressed(clip) <==> clip.origDuration < clip.synthDuration <= 1.3 * clip.origDuration by {
        assert clip.synthDuration / clip.origDuration * clip.origDuration == clip.synthDuration;
      }
    }
  }

  /** Start times for the clips in the order they come, at the lengths the stage gave them: none
      before its sentence or time zero, none over an earlier clip. */
  ghost predicate Playable(segments: seq<Segment>, out: seq<Synth>, starts: seq<real>) {
    && |starts| == |out|
    && (forall i :: 0 <= i < |out| && Active(segments, out[i]) ==> starts[i] >= 0.0 && starts[i] >= segments[out[i].segmentId].start)
    && (forall j, i :: 0 <= j < i < |out| && Active(segments, out[j]) && Active(segments, out[i]) ==>
          starts[j] + out[j].duration <= starts[i])
  }

  lemma {:induction false} CursorIsReached(segments: seq<Segment>, synths: seq<Synth>, stretchedUrl: (int, string) -> string,
                                           starts: seq<real>, i: nat, t: real)
    requires (forall id, url :: stretchedUrl(id, url) != "") && i <= |synths| && t >= 0.0
    requires Playable(segments, Aligned(segments, synths, stretchedUrl), starts)
    requires forall j :: 0 <= j < i && Active(segments, synths[j]) ==>
               starts[j] + Aligned(segments, synths, stretchedUrl)[j].duration <= t
    ensures Cursor(Clips(segments, synths[..i])) <= t
  {
    hide Cursor, FinalDuration, Compressed;
    if i == 0 {
      NothingPlaced(segments, synths);
    } else {
      ClipsGrow(segments, synths, i - 1);
      if Active(segments, synths[i - 1]) {
        assert Active(segments, Aligned(segments, synths, stretchedUrl)[i - 1]);
        forall j | 0 <= j < i - 1 && Active(segments, synths[j])
          ensures starts[j] + Aligned(segments, synths, stretchedUrl)[j].duration <= starts[i - 1]
        {
          assert Active(segments, Aligned(segments, synths, stretchedUrl)[j]);
        }
        CursorIsReached(segments, synths, stretchedUrl, starts, i - 1, starts[i - 1]);
      } else {
        CursorIsReached(segments, synths, stretchedUrl, starts, i - 1, t);
      }
    }
  }

  /** The aligned starts in the output are such times, and no others start any clip earlier. */
  lemma OutputIsEarliest(segments: seq<Segment>, synths: seq<Synth>, stretchedUrl: (int, string) -> string, starts: seq<real>, i: nat)
    requires (forall id, url :: stretchedUrl(id, url) != "") && i < |synths| && Active(segments, synths[i])
    requires Playable(segments, Aligned(segments, synths, stretchedUrl), starts)
    ensures Aligned(segments, synths, stretchedUrl)[i].alignedStart.value <= starts[i]
  {
    hide Cursor, Clips, FinalDuration, Compressed;
    var out := Aligned(segments, synths, stretchedUrl);
    assert Active(segments, out[i]);
    forall j | 0 <= j < i && Active(segments, synths[j]) ensures starts[j] + out[j].duration <= starts[i] {
      assert Active(segments, out[j]);
    }
    CursorIsReached(segments, synths, stretchedUrl, starts, i, starts[i]);
  }

  lemma OutputIsPlayable(segments: seq<Segment>, synths: seq<Synth>, stretchedUrl: (int, string) -> string, starts: seq<real>)
    requires forall k :: 0 <= k < |synths| ==> synths[k].duration >= 0.0
    requires |starts| == |synths|
    requires forall i :: 0 <= i < |synths| && Active(segments, synths[i]) ==>
               starts[i] == Aligned(segments, synths, stretchedUrl)[i].alignedStart.value
    ensures Playable(segments, Aligned(segments, synths, stretchedUrl), starts)
  {
    hide Cursor, Clips, FinalDuration, Compressed;
    var out := Aligned(segments, synths, stretchedUrl);
    forall i | 0 <= i < |out| && Active(segments, out[i])
      ensures Active(segments, synths[i]) && starts[i] >= 0.0 && starts[i] >= segments[out[i].segmentId].start
    {
      FirstStartIsLegal(segments, synths, stretchedUrl, i);
    }
    forall j, i | 0 <= j < i < |out| && Active(segments, out[j]) && Active(segments, out[i])
      ensures starts[j] + out[j].duration <= starts[i]
    {
      AlignedClipsAreDisjoint(segments, synths, stretchedUrl, j, i);
    }
  }

  lemma FirstStartIsLegal(segments: seq<Segment>, synths: seq<Synth>, stretchedUrl: (int, string) -> string, i: nat)
    requires i < |synths| && Active(segments, synths[i])
    requires forall k :: 0 <= k < |synths| ==> synths[k].duration >= 0.0
    ensures var start := Aligned(segments, synths, stretchedUrl)[i].alignedStart.value;
            start >= 0.0 && start >= segments[synths[i].segmentId].start
  {
    ClipsComeFromSynths(segments, synths);
    ClipPosition(segments, synths, i);
    StartsAtOrAfterZero(Clips(segments, synths), |Clips(segments, synths[..i])|);
  }

  // ----- The speed-up is applied through a chain of filters -----

  function Product(factors: seq<real>): real {
    if factors == [] then 1.0 else Product(factors[..|factors| - 1]) * factors[|factors| - 1]
  }

  predicate SupportedFactor(factor: real) {
    0.5 <= factor <= 2.0
  }

  /** Splits a speed-up, clamped to what the filter can do, into supported factors. */
  method AtempoChain(ratio: real) returns (factors: seq<real>)
    ensures factors != [] && forall i :: 0 <= i < |factors| ==> SupportedFactor(factors[i])
    ensures Product(factors) == Max(0.5, Min(ratio, 100.0))
    ensures forall i :: 0 <= i < |factors| - 1 ==> factors[i] == 2.0
    ensures |factors| > 1 ==> factors[|factors| - 1] > 1.0
  {
    var remaining := Max(0.5, Min(ratio, 100.0));
    factors := [];
    while remaining > 2.0
      invariant remaining >= 0.5 && (factors != [] ==> remaining > 1.0)
      invariant forall i :: 0 <= i < |factors| ==> factors[i] == 2.0
      invariant Product(factors) * remaining == Max(0.5, Min(ratio, 100.0))
      decreases remaining
    {
      assert (factors + [2.0])[..|factors|] == factors;
      factors := factors + [2.0];
      remaining := remaining / 2.0;
    }
    if remaining < 0.5 {
      remaining := 0.5;
    }
    assert (factors + [remaining])[..|factors|] == factors;
    factors := factors + [remaining];
  }

  function Power2(n: nat): (p: real)
    ensures p >= 1.0
  {
    if n == 0 then 1.0 else 2.0 * Power2(n - 1)
  }

  lemma {:induction false} ProductAtMostPower(factors: seq<real>)
    requires forall i :: 0 <= i < |factors| ==> SupportedFactor(factors[i])
    ensures 0.0 < Product(factors) <= Power2(|factors|)
  {
    if factors != [] {
      var init, last := factors[..|factors| - 1], factors[|factors| - 1];
      ProductAtMostPower(init);
      assert Product(init) * last <= Power2(|init|) * last <= Power2(|init|) * 2.0;
      assert Product(init) * last > 0.0;
    }
  }

  lemma {:induction false} ProductOfTwos(factors: seq<real>)
    requires forall i :: 0 <= i < |factors| ==> factors[i] == 2.0
    ensures Product(factors) == Power2(|factors|)
  {
    if factors != [] {
      ProductOfTwos(factors[..|factors| - 1]);
    }
  }

  lemma ChainExceedsPower(factors: seq<real>)
    requires |factors| > 1 && forall i :: 0 <= i < |factors| - 1 ==> factors[i] == 2.0
    requires factors[|factors| - 1] > 1.0
    ensures Product(factors) > Power2(|factors| - 1)
  {
    var init, last := factors[..|factors| - 1], factors[|factors| - 1];
    ProductOfTwos(init);
    assert Power2(|init|) * (last - 1.0) > 0.0;
  }

  /** No chain of supported factors reaching the same speed is shorter. */
  lemma AtempoChainIsShortest(factors: seq<real>, other: seq<real>)
    requires factors != [] && forall i :: 0 <= i < |factors| - 1 ==> factors[i] == 2.0
    requires |factors| > 1 ==> factors[|factors| - 1] > 1.0
    requires forall i :: 0 <= i < |other| ==> SupportedFactor(other[i])
    requires other != [] && Product(other) == Product(factors)
    ensures |factors| <= |other|
  {
    if |factors| > 1 {
      ChainExceedsPower(factors);
      ProductAtMostPower(other);
      if |other| < |factors| {
        Power2Monotone(|other|, |factors| - 1);
      }
    }
  }

  lemma {:induction false} Power2Monotone(m: nat, n: nat)
    requires m <= n
    ensures Power2(m) <= Power2(n)
    decreases n - m
  {
    if m < n {
      Power2Monotone(m, n - 1);
    }
  }
}
