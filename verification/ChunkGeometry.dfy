/** How a long recording is cut into chunks with padded windows, and which chunk a transcript
    segment belongs to. */
module ChunkGeometry {
  import opened Numeric
  import opened PipelineTypes

  datatype Settings = Settings(chunkSeconds: int, overlapSeconds: int)

  datatype AudioChunk = AudioChunk(
    index: nat,
    coreStart: real,
    coreEnd: real,
    paddedStart: real,
    paddedEnd: real
  )

  const EDGE_TOLERANCE := 0.001

  function ChunkSeconds(settings: Settings): (seconds: int)
    ensures seconds >= 60
  {
    MaxInt(60, settings.chunkSeconds)
  }

  function OverlapSeconds(settings: Settings): (seconds: int)
    ensures 0 <= 4 * seconds <= ChunkSeconds(settings)
  {
    MaxInt(0, MinInt(settings.overlapSeconds, ChunkSeconds(settings) / 4))
  }

  function ChunkCount(settings: Settings, duration: real): (count: nat)
    ensures count >= 1
  {
    MaxInt(1, Ceil(duration / ChunkSeconds(settings) as real))
  }

  function ChunkAt(settings: Settings, duration: real, index: nat): AudioChunk {
    var seconds, overlap := ChunkSeconds(settings), OverlapSeconds(settings);
    var coreStart := (index * seconds) as real;
    var coreEnd := Min(duration, ((index + 1) * seconds) as real);
    AudioChunk(index, coreStart, coreEnd,
               Max(0.0, coreStart - overlap as real), Min(duration, coreEnd + overlap as real))
  }

  function Layout(settings: Settings, duration: real): seq<AudioChunk> {
    seq(ChunkCount(settings, duration), i requires 0 <= i => ChunkAt(settings, duration, i))
  }

  method BuildChunks(settings: Settings, duration: real) returns (chunks: seq<AudioChunk>)
    ensures chunks == Layout(settings, duration)
    ensures duration > 0.0 ==> Tiles(chunks, duration)
  {
    var seconds := MaxInt(60, settings.chunkSeconds);
    var overlap := MaxInt(0, MinInt(settings.overlapSeconds, seconds / 4));
    var count := MaxInt(1, Ceil(duration / seconds as real));
    chunks := [];
    for index := 0 to count
      invariant chunks == Layout(settings, duration)[..index]
    {
      var coreStart := (index * seconds) as real;
      var coreEnd := Min(duration, ((index + 1) * seconds) as real);
      var paddedStart := Max(0.0, coreStart - overlap as real);
      var paddedEnd := Min(duration, coreEnd + overlap as real);
      chunks := chunks + [AudioChunk(index, coreStart, coreEnd, paddedStart, paddedEnd)];
    }
    if duration > 0.0 {
      LayoutTiles(settings, duration);
    }
  }

  // ----- Cores -----

  /** The cores are consecutive non-empty intervals from zero to the end of the recording. */
  ghost predicate Tiles(chunks: seq<AudioChunk>, duration: real) {
    && chunks != []
    && chunks[0].coreStart == 0.0
    && chunks[|chunks| - 1].coreEnd == duration
    && (forall i :: 0 <= i < |chunks| ==> chunks[i].coreStart < chunks[i].coreEnd)
    && (forall i :: 0 <= i < |chunks| - 1 ==> chunks[i].coreEnd == chunks[i + 1].coreStart)
  }

  lemma CeilOfQuotient(x: real, step: int)
    requires x > 0.0 && step > 0
    ensures var n := Ceil(x / step as real);
            n >= 1 && ((n - 1) * step) as real < x <= (n * step) as real
  {
    var width := step as real;
    var quotient, n := x / width, Ceil(x / width);
    Scale(n as real - 1.0, quotient, width);
    Scale(quotient, n as real, width);
    assert quotient * width == x && quotient > 0.0;
  }

  lemma Scale(a: real, b: real, factor: real)
    requires factor > 0.0
    ensures a <= b ==> a * factor <= b * factor
    ensures a < b ==> a * factor < b * factor
  {
    if a < b {
      assert (b - a) * factor > 0.0;
    }
  }

  /** Core `i` starts at `i` chunk lengths; only the last core may be shorter than a chunk. */
  lemma CoreBounds(settings: Settings, duration: real, i: nat)
    requires duration > 0.0 && i < ChunkCount(settings, duration)
    ensures var chunk, seconds := ChunkAt(settings, duration, i), ChunkSeconds(settings);
            && 0.0 <= chunk.coreStart < chunk.coreEnd <= duration
            && (i < ChunkCount(settings, duration) - 1 ==>
                  chunk.coreEnd == chunk.coreStart + seconds as real
                  && chunk.coreEnd == ChunkAt(settings, duration, i + 1).coreStart)
            && (i == ChunkCount(settings, duration) - 1 ==> chunk.coreEnd == duration)
  {
    var n, seconds := ChunkCount(settings, duration), ChunkSeconds(settings);
    CeilOfQuotient(duration, seconds);
    StepsInOrder(i, n, seconds);
  }

  lemma StepsInOrder(i: nat, n: nat, step: nat)
    requires i < n
    ensures 0 <= i * step <= (n - 1) * step <= n * step
    ensures (i + 1) * step == i * step + step
    ensures i < n - 1 ==> (i + 1) * step <= (n - 1) * step
  {
    NatsInOrder(i, n - 1, step);
    NatsInOrder(n - 1, n, step);
    if i < n - 1 {
      NatsInOrder(i + 1, n - 1, step);
    }
  }

  lemma NatsInOrder(a: nat, b: nat, step: nat)
    requires a <= b
    ensures 0 <= a * step <= b * step
  {
    assert (b - a) * step >= 0;
    assert a * step + (b - a) * step == b * step;
  }

  lemma LayoutTiles(settings: Settings, duration: real)
    requires duration > 0.0
    ensures Tiles(Layout(settings, duration), duration)
  {
    var chunks := Layout(settings, duration);
    forall i | 0 <= i < |chunks|
      ensures chunks[i].coreStart < chunks[i].coreEnd
      ensures i < |chunks| - 1 ==> chunks[i].coreEnd == chunks[i + 1].coreStart
      ensures i == |chunks| - 1 ==> chunks[i].coreEnd == duration
    {
      CoreBounds(settings, duration, i);
    }
    assert chunks[0].coreStart == 0.0;
  }

  lemma {:induction false} CoresAreOrdered(chunks: seq<AudioChunk>, duration: real, i: nat, j: nat)
    requires Tiles(chunks, duration) && i < j < |chunks|
    ensures chunks[i].coreEnd <= chunks[j].coreStart
    decreases j - i
  {
    if i + 1 < j {
      CoresAreOrdered(chunks, duration, i, j - 1);
    }
  }

  predicate InCore(chunk: AudioChunk, t: real) {
    chunk.coreStart <= t < chunk.coreEnd
  }

  lemma {:induction false} SomeCoreUpTo(chunks: seq<AudioChunk>, duration: real, n: nat, t: real) returns (i: nat)
    requires Tiles(chunks, duration) && n < |chunks| && 0.0 <= t < chunks[n].coreEnd
    ensures i <= n && InCore(chunks[i], t)
    decreases n
  {
    if t >= chunks[n].coreStart {
      i := n;
    } else {
      i := SomeCoreUpTo(chunks, duration, n - 1, t);
    }
  }

  /** Every instant of the recording lies in exactly one core. */
  lemma CoresPartitionTime(chunks: seq<AudioChunk>, duration: real, t: real)
    requires Tiles(chunks, duration)
    ensures 0.0 <= t < duration <==> exists i :: 0 <= i < |chunks| && InCore(chunks[i], t)
    ensures forall i, j :: 0 <= i < |chunks| && 0 <= j < |chunks| && InCore(chunks[i], t) && InCore(chunks[j], t) ==> i == j
  {
    var last := |chunks| - 1;
    forall i, j | 0 <= i < j < |chunks| ensures chunks[i].coreEnd <= chunks[j].coreStart {
      CoresAreOrdered(chunks, duration, i, j);
    }
    if 0.0 <= t < duration {
      var i := SomeCoreUpTo(chunks, duration, last, t);
    }
  }

  // ----- Padded windows -----

  /** A window contains its core, stays inside the recording, and meets only the windows of the
      neighbouring chunks. */
  lemma WindowsMeetOnlyNeighbours(settings: Settings, duration: real, i: nat, j: nat)
    requires duration > 0.0 && i < j < ChunkCount(settings, duration)
    ensures var a, b := ChunkAt(settings, duration, i), ChunkAt(settings, duration, j);
            && 0.0 <= a.paddedStart <= a.coreStart && a.coreEnd <= a.paddedEnd <= duration
            && 0.0 <= b.paddedStart <= b.coreStart && b.coreEnd <= b.paddedEnd <= duration
            && (i + 1 < j ==> a.paddedEnd <= b.paddedStart)
            && (i + 1 == j ==> a.paddedEnd - b.paddedStart <= 2.0 * OverlapSeconds(settings) as real)
  {
    CoreBounds(settings, duration, i);
    CoreBounds(settings, duration, j);
    LayoutTiles(settings, duration);
    var chunks := Layout(settings, duration);
    if i + 1 < j {
      CoreBounds(settings, duration, i + 1);
      CoresAreOrdered(chunks, duration, i + 1, j);
      assert chunks[i].coreEnd == chunks[i + 1].coreStart;
    }
  }

  // ----- Which chunk a segment belongs to -----

  predicate IsLastChunkEdge(chunk: AudioChunk) {
    Abs(chunk.coreEnd - chunk.paddedEnd) < EDGE_TOLERANCE
  }

  predicate Owns(chunk: AudioChunk, centre: real) {
    centre >= chunk.coreStart && (centre < chunk.coreEnd || IsLastChunkEdge(chunk))
  }

  /** `_segment_belongs_to_chunk_core`; segment times are relative to the chunk's window. */
  predicate BelongsToCore(segment: Segment, chunk: AudioChunk) {
    var globalStart := chunk.paddedStart + segment.start;
    var globalEnd := chunk.paddedStart + segment.end;
    Owns(chunk, (globalStart + globalEnd) / 2.0)
  }

  /** `_segment_to_global` */
  function SegmentToGlobal(segment: Segment, chunk: AudioChunk, localMap: map<string, string>): Option<Segment> {
    if !BelongsToCore(segment, chunk) then None
    else
      var speakerId := Or(segment.speakerId, "UNKNOWN");
      var start := Max(chunk.coreStart, chunk.paddedStart + segment.start);
      var end := Min(chunk.coreEnd, chunk.paddedStart + segment.end);
      if end <= start then None
      else Some(segment.(speakerId := if speakerId in localMap then localMap[speakerId] else speakerId,
                         start := start, end := end))
  }

  /** The times of a segment, moved by an offset. */
  predicate Covers(segment: Segment, offset: real, t: real) {
    offset + segment.start <= t < offset + segment.end
  }

  /** What a chunk makes of a segment of its own: the part inside its core, with the speaker's global
      name and everything else as it was. The middle of the segment decides whether it is its own. */
  ghost predicate Emits(segment: Segment, chunk: AudioChunk, localMap: map<string, string>, out: Segment) {
    var centre := chunk.paddedStart + (segment.start + segment.end) / 2.0;
    var local := Or(segment.speakerId, "UNKNOWN");
    && out == segment.(speakerId := out.speakerId, start := out.start, end := out.end)
    && (local in localMap ==> out.speakerId == localMap[local])
    && (local !in localMap ==> out.speakerId == local)
    && (InCore(chunk, centre) || (chunk.coreEnd <= centre && IsLastChunkEdge(chunk) && chunk.coreStart <= centre))
    && out.start < out.end
    && forall t :: Covers(out, 0.0, t) <==> InCore(chunk, t) && Covers(segment, chunk.paddedStart, t)
  }

  /** That description determines the result. */
  lemma SegmentToGlobalEmits(segment: Segment, chunk: AudioChunk, localMap: map<string, string>, out: Segment)
    ensures SegmentToGlobal(segment, chunk, localMap) == Some(out) <==> Emits(segment, chunk, localMap, out)
  {
    var start := Max(chunk.coreStart, chunk.paddedStart + segment.start);
    var end := Min(chunk.coreEnd, chunk.paddedStart + segment.end);
    assert chunk.paddedStart + (segment.start + segment.end) / 2.0
        == (chunk.paddedStart + segment.start + (chunk.paddedStart + segment.end)) / 2.0;
    if Emits(segment, chunk, localMap, out) {
      assert Covers(out, 0.0, out.start);
      assert start <= out.start < end;
      assert InCore(chunk, start) && Covers(segment, chunk.paddedStart, start);
      assert Covers(out, 0.0, start);
      assert out.end <= end by {
        if out.end > end {
          assert Covers(out, 0.0, Max(out.start, end));
        }
      }
      assert end <= out.end by {
        if out.end < end {
          assert InCore(chunk, out.end) && Covers(segment, chunk.paddedStart, out.end);
        }
      }
    }
    if SegmentToGlobal(segment, chunk, localMap) == Some(out) {
      forall t ensures Covers(out, 0.0, t) <==> InCore(chunk, t) && Covers(segment, chunk.paddedStart, t) {
      }
    }
  }

  ghost predicate ExactlyOneOwner(chunks: seq<AudioChunk>, centre: real) {
    exists i :: 0 <= i < |chunks| && Owns(chunks[i], centre)
             && forall j :: 0 <= j < |chunks| && Owns(chunks[j], centre) ==> j == i
  }

  /** Checkable before cutting: one chunk, or a real overlap and a last core that is not a sliver. */
  predicate OwnershipIsExact(settings: Settings, duration: real) {
    var n := ChunkCount(settings, duration);
    n == 1 || (OverlapSeconds(settings) >= 1
               && duration - ChunkAt(settings, duration, n - 1).coreStart >= EDGE_TOLERANCE)
  }

  lemma EdgesAreLast(settings: Settings, duration: real, i: nat)
    requires duration > 0.0 && i < ChunkCount(settings, duration) - 1
    ensures OwnershipIsExact(settings, duration) ==> !IsLastChunkEdge(ChunkAt(settings, duration, i))
    ensures !OwnershipIsExact(settings, duration) && i == ChunkCount(settings, duration) - 2 ==>
            IsLastChunkEdge(ChunkAt(settings, duration, i))
  {
    var n := ChunkCount(settings, duration);
    CoreBounds(settings, duration, i);
    CoreBounds(settings, duration, i + 1);
    CoreBounds(settings, duration, n - 1);
    LayoutTiles(settings, duration);
    assert Layout(settings, duration)[i].coreEnd == Layout(settings, duration)[i + 1].coreStart;
    if i + 1 < n - 1 {
      assert ChunkAt(settings, duration, i + 1).coreEnd <= duration;
    }
  }

  /** The second-to-last chunk and the last one both claim the middle of the last core when the
      overlap is zero or the last core is shorter than the edge tolerance. */
  lemma InexactOwnershipHasTwoOwners(settings: Settings, duration: real) returns (centre: real)
    requires duration > 0.0 && !OwnershipIsExact(settings, duration)
    ensures 0.0 <= centre < duration
    ensures var n := ChunkCount(settings, duration);
            Owns(Layout(settings, duration)[n - 2], centre) && Owns(Layout(settings, duration)[n - 1], centre)
  {
    var n := ChunkCount(settings, duration);
    var last := ChunkAt(settings, duration, n - 1);
    CoreBounds(settings, duration, n - 1);
    CoreBounds(settings, duration, n - 2);
    EdgesAreLast(settings, duration, n - 2);
    LayoutTiles(settings, duration);
    assert Layout(settings, duration)[n - 2].coreEnd == Layout(settings, duration)[n - 1].coreStart;
    centre := last.coreStart;
  }

  /** Only the last chunk may claim centres beyond its core. */
  ghost predicate CleanEdges(chunks: seq<AudioChunk>) {
    forall i :: 0 <= i < |chunks| - 1 ==> !IsLastChunkEdge(chunks[i])
  }

  lemma LayoutEdges(settings: Settings, duration: real)
    requires duration > 0.0 && OwnershipIsExact(settings, duration)
    ensures CleanEdges(Layout(settings, duration))
  {
    forall i: nat | i < ChunkCount(settings, duration) - 1 ensures !IsLastChunkEdge(ChunkAt(settings, duration, i)) {
      EdgesAreLast(settings, duration, i);
    }
  }

  /** The owner of a centre is the chunk whose core it lies in. */
  lemma TheOwner(chunks: seq<AudioChunk>, duration: real, centre: real) returns (owner: nat)
    requires Tiles(chunks, duration) && CleanEdges(chunks) && 0.0 <= centre < duration
    ensures owner < |chunks| && InCore(chunks[owner], centre)
    ensures forall i :: 0 <= i < |chunks| ==> (Owns(chunks[i], centre) <==> i == owner)
    ensures ExactlyOneOwner(chunks, centre)
  {
    owner := SomeCoreUpTo(chunks, duration, |chunks| - 1, centre);
    forall i | 0 <= i < |chunks| ensures Owns(chunks[i], centre) <==> i == owner {
      if i < owner {
        CoresAreOrdered(chunks, duration, i, owner);
      } else if owner < i {
        CoresAreOrdered(chunks, duration, owner, i);
      }
    }
  }

  /** Every centre inside the recording belongs to exactly one chunk, if and only if there is a
      single chunk or the overlap is positive and the last core is no sliver. */
  lemma ExactOwnership(settings: Settings, duration: real)
    requires duration > 0.0
    ensures (forall centre :: 0.0 <= centre < duration ==> ExactlyOneOwner(Layout(settings, duration), centre))
        <==> OwnershipIsExact(settings, duration)
  {
    var chunks := Layout(settings, duration);
    if OwnershipIsExact(settings, duration) {
      LayoutTiles(settings, duration);
      LayoutEdges(settings, duration);
      forall centre | 0.0 <= centre < duration ensures ExactlyOneOwner(chunks, centre) {
        var _ := TheOwner(chunks, duration, centre);
      }
    } else {
      var centre := InexactOwnershipHasTwoOwners(settings, duration);
      assert !ExactlyOneOwner(chunks, centre);
    }
  }

  // ----- Segments of the recording, as the chunks see them -----

  /** A segment of the recording expressed on the clock of a chunk's window. */
  function SeenFrom(chunk: AudioChunk, segment: Segment): Segment {
    segment.(start := segment.start - chunk.paddedStart, end := segment.end - chunk.paddedStart)
  }

  /** An accepted segment of positive length is dropped by clipping exactly when it starts at or
      beyond the end of the core, which only a chunk taking everything after its core accepts. */
  lemma ClippingDropsOnlyBeyondCore(chunk: AudioChunk, segment: Segment, localMap: map<string, string>)
    requires chunk.coreStart < chunk.coreEnd && segment.start < segment.end
    requires BelongsToCore(SeenFrom(chunk, segment), chunk)
    ensures SegmentToGlobal(SeenFrom(chunk, segment), chunk, localMap) == None <==> segment.start >= chunk.coreEnd
    ensures segment.start >= chunk.coreEnd ==> IsLastChunkEdge(chunk)
  {
  }

  /** A segment of the recording comes out of exactly one chunk, cut to that chunk's core and
      never empty. */
  lemma SegmentComesOutOnce(chunks: seq<AudioChunk>, duration: real, segment: Segment) returns (owner: nat)
    requires Tiles(chunks, duration) && CleanEdges(chunks)
    requires 0.0 <= segment.start < segment.end <= duration
    ensures owner < |chunks| && InCore(chunks[owner], (segment.start + segment.end) / 2.0)
    ensures forall i, localMap :: 0 <= i < |chunks| ==>
              (SegmentToGlobal(SeenFrom(chunks[i], segment), chunks[i], localMap).Some? <==> i == owner)
    ensures forall localMap ::
              var out := SegmentToGlobal(SeenFrom(chunks[owner], segment), chunks[owner], localMap).value;
              && out.start == Max(chunks[owner].coreStart, segment.start)
              && out.end == Min(chunks[owner].coreEnd, segment.end)
  {
    var centre := (segment.start + segment.end) / 2.0;
    owner := TheOwner(chunks, duration, centre);
    forall i | 0 <= i < |chunks|
      ensures BelongsToCore(SeenFrom(chunks[i], segment), chunks[i]) <==> i == owner
    {
      var seen := SeenFrom(chunks[i], segment);
      assert (chunks[i].paddedStart + seen.start + (chunks[i].paddedStart + seen.end)) / 2.0 == centre;
    }
  }

  /** The owner heard the whole of any segment no longer than twice the overlap. */
  lemma OwnerHearsWholeSegment(settings: Settings, duration: real, segment: Segment, owner: nat)
    requires duration > 0.0 && owner < ChunkCount(settings, duration)
    requires 0.0 <= segment.start <= segment.end <= duration
    requires InCore(ChunkAt(settings, duration, owner), (segment.start + segment.end) / 2.0)
    requires segment.end - segment.start <= 2.0 * OverlapSeconds(settings) as real
    ensures var chunk := ChunkAt(settings, duration, owner);
            chunk.paddedStart <= segment.start && segment.end <= chunk.paddedEnd
  {
  }

  /** What different chunks emit never overlaps in time. */
  lemma ChunkOutputsAreDisjoint(
      chunks: seq<AudioChunk>, duration: real, i: nat, j: nat,
      first: Segment, second: Segment, firstMap: map<string, string>, secondMap: map<string, string>)
    requires Tiles(chunks, duration) && i < j < |chunks|
    requires SegmentToGlobal(first, chunks[i], firstMap).Some?
    requires SegmentToGlobal(second, chunks[j], secondMap).Some?
    ensures SegmentToGlobal(first, chunks[i], firstMap).value.end
         <= SegmentToGlobal(second, chunks[j], secondMap).value.start
  {
    CoresAreOrdered(chunks, duration, i, j);
  }
}
