/** Mixing a long recording chunk by chunk: every dubbed clip is cut along the chunk cores, and
    the concatenated chunks must play it exactly once, whole and in place. */
module ChunkMixing {
  import opened Numeric
  import opened PipelineTypes
  import opened ChunkGeometry
  import TemporalAlignment

  /** A segment together with the clip that dubs it: where it plays, and from which object. */
  datatype Voice = Voice(segment: nat, audioUrl: string, start: real, end: real)

  /** One input of a chunk's filter graph. */
  datatype Piece = Piece(segment: nat, audioUrl: string, trimStart: real, trimDuration: real, delayMs: int)

  // ----- Which clip dubs which segment -----

  /** The dictionary from segment id to clip keeps the last clip of each id. */
  function ClipFor(synths: seq<Synth>, segment: nat): (found: Option<Synth>)
    ensures found.Some? <==> exists i :: 0 <= i < |synths| && synths[i].segmentId == segment
    ensures found.Some? ==> exists i :: 0 <= i < |synths| && synths[i] == found.value && found.value.segmentId == segment
                                     && forall j :: i < j < |synths| ==> synths[j].segmentId != segment
  {
    if synths == [] then None
    else
      var last := |synths| - 1;
      if synths[last].segmentId == segment then
        assert synths[last] == synths[last];
        Some(synths[last])
      else ClipFor(synths[..last], segment)
  }

  function VoiceFor(segments: seq<Segment>, synths: seq<Synth>, index: nat): (voice: Option<Voice>)
    requires index < |segments|
  {
    match ClipFor(synths, index)
    case None => None
    case Some(synth) =>
      if synth.audioUrl == "" then None
      else
        Some(Voice(index, synth.audioUrl,
                   if synth.alignedStart.Some? then synth.alignedStart.value else segments[index].start,
                   if synth.alignedEnd.Some? then synth.alignedEnd.value else segments[index].end))
  }

  function Voices(segments: seq<Segment>, synths: seq<Synth>, n: nat): seq<Voice>
    requires n <= |segments|
  {
    if n == 0 then []
    else
      match VoiceFor(segments, synths, n - 1)
      case None => Voices(segments, synths, n - 1)
      case Some(voice) => Voices(segments, synths, n - 1) + [voice]
  }

  /** The voice plays the last clip made for its segment, at the clip's aligned times, or at the
      segment's own where the clip has none. */
  ghost predicate Dubs(segments: seq<Segment>, synths: seq<Synth>, voice: Voice) {
    && voice.segment < |segments|
    && exists i :: 0 <= i < |synths| && IsLastClip(synths, voice.segment, i) && PlaysClip(segments[voice.segment], synths[i], voice)
  }

  ghost predicate IsLastClip(synths: seq<Synth>, segment: int, i: int) {
    && 0 <= i < |synths| && synths[i].segmentId == segment
    && forall j :: i < j < |synths| ==> synths[j].segmentId != segment
  }

  ghost predicate PlaysClip(segment: Segment, synth: Synth, voice: Voice) {
    && synth.audioUrl != "" && voice.audioUrl == synth.audioUrl
    && (synth.alignedStart == None ==> voice.start == segment.start)
    && (synth.alignedEnd == None ==> voice.end == segment.end)
    && (synth.alignedStart.Some? ==> synth.alignedStart.value == voice.start)
    && (synth.alignedEnd.Some? ==> synth.alignedEnd.value == voice.end)
  }

  /** One voice for each segment that has a clip with a file, in order of the segments. */
  ghost predicate AreTheVoices(segments: seq<Segment>, synths: seq<Synth>, voices: seq<Voice>) {
    && (forall voice :: voice in voices <==> Dubs(segments, synths, voice))
    && (forall j, k :: 0 <= j < k < |voices| ==> voices[j].segment < voices[k].segment)
  }

  lemma VoiceDubs(segments: seq<Segment>, synths: seq<Synth>, voice: Voice)
    requires voice.segment < |segments|
    ensures VoiceFor(segments, synths, voice.segment) == Some(voice) <==> Dubs(segments, synths, voice)
  {
    hide ClipFor;
    var found := ClipFor(synths, voice.segment);
    if found.Some? {
      var i :| 0 <= i < |synths| && synths[i] == found.value && IsLastClip(synths, voice.segment, i);
      if Dubs(segments, synths, voice) {
        var j :| 0 <= j < |synths| && IsLastClip(synths, voice.segment, j) && PlaysClip(segments[voice.segment], synths[j], voice);
        assert i == j;
      }
    }
  }

  lemma {:induction false} VoicesDub(segments: seq<Segment>, synths: seq<Synth>, n: nat)
    requires n <= |segments|
    ensures var voices := Voices(segments, synths, n);
            && (forall voice :: voice in voices <==> voice.segment < n && Dubs(segments, synths, voice))
            && (forall j, k :: 0 <= j < k < |voices| ==> voices[j].segment < voices[k].segment)
  {
    hide VoiceFor, Dubs;
    if n > 0 {
      VoicesDub(segments, synths, n - 1);
      var earlier := Voices(segments, synths, n - 1);
      forall k | 0 <= k < |earlier| ensures earlier[k].segment < n - 1 {
        assert earlier[k] in earlier;
      }
      var next := VoiceFor(segments, synths, n - 1);
      forall voice: Voice | voice.segment == n - 1 ensures Dubs(segments, synths, voice) <==> next == Some(voice) {
        VoiceDubs(segments, synths, voice);
      }
      VoiceIsOfSegment(segments, synths, n - 1);
    }
  }

  lemma VoiceIsOfSegment(segments: seq<Segment>, synths: seq<Synth>, index: nat)
    requires index < |segments|
    ensures VoiceFor(segments, synths, index).Some? ==> VoiceFor(segments, synths, index).value.segment == index
  {
  }

  lemma AllVoicesDub(segments: seq<Segment>, synths: seq<Synth>)
    ensures AreTheVoices(segments, synths, Voices(segments, synths, |segments|))
  {
    hide Voices;
    VoicesDub(segments, synths, |segments|);
  }

  method SelectVoices(segments: seq<Segment>, synths: seq<Synth>) returns (voices: seq<Voice>)
    ensures voices == Voices(segments, synths, |segments|)
    ensures AreTheVoices(segments, synths, voices)
  {
    hide Voices, AreTheVoices;
    AllVoicesDub(segments, synths);
    var byId := IndexById(synths);
    NoVoicesYet(segments, synths);
    voices := [];
    for index := 0 to |segments|
      invariant voices == Voices(segments, synths, index)
    {
      VoicesAfterSegment(segments, synths, index);
      if index in byId && byId[index].audioUrl != "" {
        var synth := byId[index];
        var start := if synth.alignedStart.Some? then synth.alignedStart.value else segments[index].start;
        var end := if synth.alignedEnd.Some? then synth.alignedEnd.value else segments[index].end;
        voices := voices + [Voice(index, synth.audioUrl, start, end)];
      }
    }
  }

  lemma NoVoicesYet(segments: seq<Segment>, synths: seq<Synth>)
    ensures Voices(segments, synths, 0) == []
  {
  }

  lemma VoicesAfterSegment(segments: seq<Segment>, synths: seq<Synth>, index: nat)
    requires index < |segments|
    ensures Voices(segments, synths, index + 1)
         == Voices(segments, synths, index)
            + match VoiceFor(segments, synths, index) case None => [] case Some(voice) => [voice]
  {
  }

  /** A later clip for the same segment replaces an earlier one. */
  method IndexById(synths: seq<Synth>) returns (byId: map<int, Synth>)
    ensures forall id: nat :: id in byId <==> ClipFor(synths, id).Some?
    ensures forall id: nat :: id in byId ==> byId[id] == ClipFor(synths, id).value
  {
    byId := map[];
    for i := 0 to |synths|
      invariant forall id: nat :: id in byId <==> ClipFor(synths[..i], id).Some?
      invariant forall id: nat :: id in byId ==> byId[id] == ClipFor(synths[..i], id).value
    {
      byId := byId[synths[i].segmentId := synths[i]];
      assert synths[..i + 1][..i] == synths[..i];
    }
    assert synths[..|synths|] == synths;
  }

  // ----- Cutting a clip along one chunk -----

  function TrimStart(chunk: AudioChunk, voice: Voice): real {
    Max(0.0, chunk.coreStart - voice.start)
  }

  function TrimDuration(chunk: AudioChunk, voice: Voice): real {
    Max(0.0, Min(voice.end, chunk.coreEnd) - Max(voice.start, chunk.coreStart))
  }

  /** How long after the start of the chunk's output the piece sounds, before rounding. */
  function Delay(chunk: AudioChunk, voice: Voice): real {
    Max(0.0, voice.start - chunk.coreStart)
  }

  function DelayMs(chunk: AudioChunk, voice: Voice): int {
    MaxInt(0, Round((voice.start - chunk.coreStart) * 1000.0))
  }

  predicate Touches(chunk: AudioChunk, voice: Voice) {
    voice.end > chunk.coreStart && voice.start < chunk.coreEnd && TrimDuration(chunk, voice) > 0.0
  }

  function Pieces(chunk: AudioChunk, voices: seq<Voice>): seq<Piece> {
    if voices == [] then []
    else
      var last := voices[|voices| - 1];
      var earlier := Pieces(chunk, voices[..|voices| - 1]);
      if Touches(chunk, last) then
        earlier + [Piece(last.segment, last.audioUrl, TrimStart(chunk, last), TrimDuration(chunk, last), DelayMs(chunk, last))]
      else earlier
  }

  method MixSingleChunk(chunk: AudioChunk, voices: seq<Voice>) returns (pieces: seq<Piece>)
    ensures pieces == Pieces(chunk, voices)
  {
    pieces := [];
    for i := 0 to |voices|
      invariant pieces == Pieces(chunk, voices[..i])
    {
      assert voices[..i + 1][..i] == voices[..i];
      var voice := voices[i];
      if voice.end > chunk.coreStart && voice.start < chunk.coreEnd {
        var trimStart := Max(0.0, chunk.coreStart - voice.start);
        var trimDuration := Max(0.0, Min(voice.end, chunk.coreEnd) - Max(voice.start, chunk.coreStart));
        if trimDuration > 0.0 {
          var delayMs := MaxInt(0, Round((voice.start - chunk.coreStart) * 1000.0));
          pieces := pieces + [Piece(voice.segment, voice.audioUrl, trimStart, trimDuration, delayMs)];
        }
      }
    }
    assert voices[..|voices|] == voices;
  }

  // ----- What the pieces of a chunk are -----

  /** The piece plays, from the voice's file, the part of the voice that falls into the chunk's core,
      and nothing else, at its place to within half a millisecond. */
  ghost predicate IsCut(chunk: AudioChunk, voice: Voice, piece: Piece) {
    && piece.segment == voice.segment && piece.audioUrl == voice.audioUrl
    && piece.trimStart >= 0.0 && piece.trimDuration > 0.0
    && voice.start + piece.trimStart == Max(voice.start, chunk.coreStart)
    && voice.start + piece.trimStart + piece.trimDuration == Min(voice.end, chunk.coreEnd)
    && piece.delayMs >= 0
    && Abs(chunk.coreStart + Seconds(piece.delayMs) - (voice.start + piece.trimStart)) <= 0.0005
    && (voice.start <= chunk.coreStart ==> piece.delayMs == 0)
  }

  function Seconds(milliseconds: int): real {
    milliseconds as real / 1000.0
  }

  /** Piece by piece the voices named by `places`, which are all that reach into the core. */
  ghost predicate CutsAt(chunk: AudioChunk, voices: seq<Voice>, pieces: seq<Piece>, places: seq<nat>) {
    && |places| == |pieces|
    && (forall j, k :: 0 <= j < k < |places| ==> places[j] < places[k])
    && (forall k :: 0 <= k < |places| ==> places[k] < |voices| && IsCut(chunk, voices[places[k]], pieces[k]))
    && (forall v: nat :: v < |voices| && Max(voices[v].start, chunk.coreStart) < Min(voices[v].end, chunk.coreEnd) ==> v in places)
  }

  ghost predicate Cuts(chunk: AudioChunk, voices: seq<Voice>, pieces: seq<Piece>) {
    exists places :: CutsAt(chunk, voices, pieces, places)
  }

  lemma PieceIsCut(chunk: AudioChunk, voice: Voice)
    ensures Touches(chunk, voice) <==> Max(voice.start, chunk.coreStart) < Min(voice.end, chunk.coreEnd)
    ensures Touches(chunk, voice) ==>
              IsCut(chunk, voice, Piece(voice.segment, voice.audioUrl, TrimStart(chunk, voice), TrimDuration(chunk, voice),
                                        DelayMs(chunk, voice)))
  {
  }

  lemma {:induction false} PiecesCut(chunk: AudioChunk, voices: seq<Voice>) returns (places: seq<nat>)
    ensures CutsAt(chunk, voices, Pieces(chunk, voices), places)
  {
    hide Touches, CutsAt, TrimStart, TrimDuration, DelayMs;
    if voices == [] {
      places := [];
      NothingCut(chunk);
    } else {
      var last := |voices| - 1;
      var earlier := PiecesCut(chunk, voices[..last]);
      PieceIsCut(chunk, voices[last]);
      if Touches(chunk, voices[last]) {
        var piece := Piece(voices[last].segment, voices[last].audioUrl, TrimStart(chunk, voices[last]),
                           TrimDuration(chunk, voices[last]), DelayMs(chunk, voices[last]));
        places := earlier + [last];
        PieceIsAdded(chunk, voices, Pieces(chunk, voices[..last]), earlier, piece);
      } else {
        places := earlier;
        NoPieceIsAdded(chunk, voices, Pieces(chunk, voices[..last]), earlier);
      }
    }
  }

  lemma NothingCut(chunk: AudioChunk)
    ensures CutsAt(chunk, [], [], [])
  {
  }

  lemma PieceIsAdded(chunk: AudioChunk, voices: seq<Voice>, pieces: seq<Piece>, places: seq<nat>, piece: Piece)
    requires voices != [] && CutsAt(chunk, voices[..|voices| - 1], pieces, places)
    requires IsCut(chunk, voices[|voices| - 1], piece)
    ensures CutsAt(chunk, voices, pieces + [piece], places + [|voices| - 1])
  {
    hide IsCut, Max, Min;
    var last := |voices| - 1;
    var more := places + [last];
    assert more[|places|] == last;
    forall v: nat | v < |voices| && Max(voices[v].start, chunk.coreStart) < Min(voices[v].end, chunk.coreEnd) ensures v in more {
      if v < last {
        assert voices[..last][v] == voices[v];
        assert v in places;
      }
    }
  }

  lemma NoPieceIsAdded(chunk: AudioChunk, voices: seq<Voice>, pieces: seq<Piece>, places: seq<nat>)
    requires voices != [] && CutsAt(chunk, voices[..|voices| - 1], pieces, places)
    requires Max(voices[|voices| - 1].start, chunk.coreStart) >= Min(voices[|voices| - 1].end, chunk.coreEnd)
    ensures CutsAt(chunk, voices, pieces, places)
  {
    hide IsCut, Max, Min;
    var last := |voices| - 1;
    forall v: nat | v < |voices| && Max(voices[v].start, chunk.coreStart) < Min(voices[v].end, chunk.coreEnd) ensures v in places {
      assert v < last && voices[..last][v] == voices[v];
    }
  }

  method MixChunks(chunks: seq<AudioChunk>, voices: seq<Voice>) returns (plan: seq<seq<Piece>>)
    ensures |plan| == |chunks|
    ensures forall i :: 0 <= i < |chunks| ==> plan[i] == Pieces(chunks[i], voices)
    ensures forall i :: 0 <= i < |chunks| ==> Cuts(chunks[i], voices, plan[i])
  {
    hide CutsAt, Pieces;
    plan := [];
    for i := 0 to |chunks|
      invariant |plan| == i
      invariant forall j :: 0 <= j < i ==> plan[j] == Pieces(chunks[j], voices) && Cuts(chunks[j], voices, plan[j])
    {
      var pieces := MixSingleChunk(chunks[i], voices);
      ghost var places := PiecesCut(chunks[i], voices);
      plan := plan + [pieces];
    }
  }

  // ----- Conservation of one clip over all chunks -----

  /** How much of the clip the first `n` chunks play. */
  function Played(chunks: seq<AudioChunk>, voice: Voice, n: nat): real
    requires n <= |chunks|
  {
    if n == 0 then 0.0 else Played(chunks, voice, n - 1) + TrimDuration(chunks[n - 1], voice)
  }

  lemma {:induction false} PlayedUpTo(chunks: seq<AudioChunk>, duration: real, voice: Voice, n: nat)
    requires Tiles(chunks, duration) && 0 < n <= |chunks|
    ensures Played(chunks, voice, n) == Max(0.0, Min(voice.end, chunks[n - 1].coreEnd) - Max(voice.start, 0.0))
  {
    if n > 1 {
      PlayedUpTo(chunks, duration, voice, n - 1);
      CoresAreOrdered(chunks, duration, 0, n - 1);
      assert chunks[n - 2].coreEnd == chunks[n - 1].coreStart;
    } else {
      assert Played(chunks, voice, 0) == 0.0;
    }
  }

  /** The pieces of a clip add up to the part of it that lies inside the recording. */
  lemma PiecesAddUp(chunks: seq<AudioChunk>, duration: real, voice: Voice)
    requires Tiles(chunks, duration)
    ensures Played(chunks, voice, |chunks|) == Max(0.0, Min(voice.end, duration) - Max(voice.start, 0.0))
  {
    PlayedUpTo(chunks, duration, voice, |chunks|);
  }

  /** Each piece takes up the clip where the pieces of the earlier chunks left off. */
  lemma PiecesAreConsecutive(chunks: seq<AudioChunk>, duration: real, voice: Voice, i: nat)
    requires Tiles(chunks, duration) && i < |chunks| && Touches(chunks[i], voice)
    ensures TrimStart(chunks[i], voice) == Max(0.0, -voice.start) + Played(chunks, voice, i)
  {
    if i > 0 {
      PlayedUpTo(chunks, duration, voice, i);
      assert chunks[i - 1].coreEnd == chunks[i].coreStart;
      CoresAreOrdered(chunks, duration, 0, i);
    } else {
      assert Played(chunks, voice, 0) == 0.0;
    }
  }

  /** A piece lands where its own first sample belongs, to within half a millisecond. */
  lemma PieceLandsInPlace(chunk: AudioChunk, voice: Voice)
    ensures chunk.coreStart + Delay(chunk, voice) == voice.start + TrimStart(chunk, voice)
    ensures Abs(DelayMs(chunk, voice) as real - Delay(chunk, voice) * 1000.0) <= 0.5
    ensures DelayMs(chunk, voice) >= 0
  {
  }

  // ----- What is heard at an instant of the output -----

  /** The chunk's piece of this clip is playing at instant `t` of the concatenated output. */
  predicate Sounding(chunk: AudioChunk, voice: Voice, t: real) {
    var landing := chunk.coreStart + Delay(chunk, voice);
    Touches(chunk, voice) && landing <= t < landing + TrimDuration(chunk, voice)
  }

  /** The position inside the clip's audio that is heard then. */
  function PlayingPosition(chunk: AudioChunk, voice: Voice, t: real): real {
    TrimStart(chunk, voice) + (t - (chunk.coreStart + Delay(chunk, voice)))
  }

  /** At every instant of the recording a clip sounds, in exactly one chunk, precisely when the
      instant lies in its aligned span, and what is heard is the right moment of it. */
  lemma ClipIsHeardOnceInPlace(chunks: seq<AudioChunk>, duration: real, voice: Voice, t: real)
    requires Tiles(chunks, duration) && 0.0 <= t < duration
    ensures voice.start <= t < voice.end <==> exists i :: 0 <= i < |chunks| && Sounding(chunks[i], voice, t)
    ensures forall i, j | 0 <= i < |chunks| && 0 <= j < |chunks| ::
              Sounding(chunks[i], voice, t) && Sounding(chunks[j], voice, t) ==> i == j
    ensures forall i :: 0 <= i < |chunks| && Sounding(chunks[i], voice, t) ==>
              PlayingPosition(chunks[i], voice, t) == t - voice.start
  {
    CoresPartitionTime(chunks, duration, t);
    forall i | 0 <= i < |chunks|
      ensures Sounding(chunks[i], voice, t) <==> InCore(chunks[i], t) && voice.start <= t < voice.end
    {
    }
  }

  // ----- The same of the pieces handed to the mixer -----

  /** A mix of these voices: every chunk is cut as it should be. */
  ghost predicate IsMix(chunks: seq<AudioChunk>, voices: seq<Voice>, plan: seq<seq<Piece>>) {
    && |plan| == |chunks| && (forall i :: 0 <= i < |chunks| ==> Cuts(chunks[i], voices, plan[i]))
    && (forall j, k :: 0 <= j < k < |voices| ==> voices[j].segment != voices[k].segment)
  }

  /** How long the pieces of one segment play in one chunk, and in the first n. */
  function SecondsOf(pieces: seq<Piece>, segment: nat): real {
    if pieces == [] then 0.0
    else
      var last := pieces[|pieces| - 1];
      SecondsOf(pieces[..|pieces| - 1], segment) + if last.segment == segment then last.trimDuration else 0.0
  }

  function SecondsUpTo(plan: seq<seq<Piece>>, segment: nat, n: nat): real
    requires n <= |plan|
  {
    if n == 0 then 0.0 else SecondsUpTo(plan, segment, n - 1) + SecondsOf(plan[n - 1], segment)
  }

  lemma {:induction false} NoSecondsOf(pieces: seq<Piece>, segment: nat)
    requires forall k :: 0 <= k < |pieces| ==> pieces[k].segment != segment
    ensures SecondsOf(pieces, segment) == 0.0
  {
    if pieces != [] {
      NoSecondsOf(pieces[..|pieces| - 1], segment);
    }
  }

  lemma {:induction false} OnePieceOf(pieces: seq<Piece>, k: nat)
    requires k < |pieces| && forall j :: 0 <= j < |pieces| && j != k ==> pieces[j].segment != pieces[k].segment
    ensures SecondsOf(pieces, pieces[k].segment) == pieces[k].trimDuration
  {
    if k == |pieces| - 1 {
      NoSecondsOf(pieces[..k], pieces[k].segment);
    } else {
      OnePieceOf(pieces[..|pieces| - 1], k);
    }
  }

  /** In a chunk the voice has one piece, or none when it does not reach into the core. */
  lemma PieceOfVoice(chunk: AudioChunk, voices: seq<Voice>, pieces: seq<Piece>, v: nat) returns (at: Option<nat>)
    requires Cuts(chunk, voices, pieces) && v < |voices|
    requires forall j, k :: 0 <= j < k < |voices| ==> voices[j].segment != voices[k].segment
    ensures at.Some? <==> Max(voices[v].start, chunk.coreStart) < Min(voices[v].end, chunk.coreEnd)
    ensures at.Some? ==> at.value < |pieces| && IsCut(chunk, voices[v], pieces[at.value])
    ensures forall k :: 0 <= k < |pieces| ==> (pieces[k].segment == voices[v].segment <==> at == Some(k))
  {
    hide IsCut, CutsAt, Max, Min;
    var places :| CutsAt(chunk, voices, pieces, places);
    VoiceHasPlace(chunk, voices, pieces, places, v);
    at := None;
    if v in places {
      var k :| 0 <= k < |places| && places[k] == v;
      at := Some(k);
    }
    forall k | 0 <= k < |pieces| ensures pieces[k].segment == voices[v].segment <==> at == Some(k) {
      PlaceDecides(chunk, voices, pieces, places, v, k);
      if at.Some? {
        PlacesAreDistinct(chunk, voices, pieces, places, k, at.value);
      }
    }
  }

  lemma VoiceHasPlace(chunk: AudioChunk, voices: seq<Voice>, pieces: seq<Piece>, places: seq<nat>, v: nat)
    requires CutsAt(chunk, voices, pieces, places) && v < |voices|
    ensures |places| == |pieces|
    ensures v in places <==> Max(voices[v].start, chunk.coreStart) < Min(voices[v].end, chunk.coreEnd)
    ensures forall k :: 0 <= k < |places| && places[k] == v ==> IsCut(chunk, voices[v], pieces[k])
  {
    hide IsCut, Max, Min;
    if v in places {
      var k :| 0 <= k < |places| && places[k] == v;
      CutHasSegment(chunk, voices[v], pieces[k]);
    }
  }

  lemma PlaceDecides(chunk: AudioChunk, voices: seq<Voice>, pieces: seq<Piece>, places: seq<nat>, v: nat, k: nat)
    requires CutsAt(chunk, voices, pieces, places) && v < |voices| && k < |pieces| == |places|
    requires forall i, j :: 0 <= i < j < |voices| ==> voices[i].segment != voices[j].segment
    ensures pieces[k].segment == voices[v].segment <==> places[k] == v
  {
    hide IsCut, Max, Min;
    CutHasSegment(chunk, voices[places[k]], pieces[k]);
  }

  lemma PlacesAreDistinct(chunk: AudioChunk, voices: seq<Voice>, pieces: seq<Piece>, places: seq<nat>, j: nat, k: nat)
    requires CutsAt(chunk, voices, pieces, places) && j < |places| && k < |places|
    ensures places[j] == places[k] <==> j == k
  {
    hide IsCut, Max, Min;
  }

  lemma CutHasSegment(chunk: AudioChunk, voice: Voice, piece: Piece)
    requires IsCut(chunk, voice, piece)
    ensures piece.segment == voice.segment && Max(voice.start, chunk.coreStart) < Min(voice.end, chunk.coreEnd)
  {
  }

  lemma SecondsAreTrimDuration(chunk: AudioChunk, voices: seq<Voice>, pieces: seq<Piece>, v: nat)
    requires Cuts(chunk, voices, pieces) && v < |voices|
    requires forall j, k :: 0 <= j < k < |voices| ==> voices[j].segment != voices[k].segment
    ensures SecondsOf(pieces, voices[v].segment) == TrimDuration(chunk, voices[v])
  {
    hide Cuts;
    var at := PieceOfVoice(chunk, voices, pieces, v);
    if at.Some? {
      OnePieceOf(pieces, at.value);
    } else {
      NoSecondsOf(pieces, voices[v].segment);
    }
  }

  lemma {:induction false} SecondsArePlayed(chunks: seq<AudioChunk>, voices: seq<Voice>, plan: seq<seq<Piece>>, v: nat, n: nat)
    requires IsMix(chunks, voices, plan) && v < |voices| && n <= |chunks|
    ensures SecondsUpTo(plan, voices[v].segment, n) == Played(chunks, voices[v], n)
  {
    hide TrimDuration, Cuts;
    if n > 0 {
      SecondsArePlayed(chunks, voices, plan, v, n - 1);
      SecondsAreTrimDuration(chunks[n - 1], voices, plan[n - 1], v);
    }
  }

  /** Over all chunks the pieces of a voice play as long as its span inside the recording lasts. */
  lemma MixedPiecesAddUp(chunks: seq<AudioChunk>, duration: real, voices: seq<Voice>, plan: seq<seq<Piece>>, v: nat)
    requires Tiles(chunks, duration) && IsMix(chunks, voices, plan) && v < |voices|
    ensures SecondsUpTo(plan, voices[v].segment, |plan|) == Max(0.0, Min(voices[v].end, duration) - Max(voices[v].start, 0.0))
  {
    SecondsArePlayed(chunks, voices, plan, v, |chunks|);
    PiecesAddUp(chunks, duration, voices[v]);
  }

  /** Each piece starts in its file where the pieces in earlier chunks stopped. */
  lemma MixedPiecesAreConsecutive(chunks: seq<AudioChunk>, duration: real, voices: seq<Voice>, plan: seq<seq<Piece>>,
                                  v: nat, i: nat, k: nat)
    requires Tiles(chunks, duration) && IsMix(chunks, voices, plan) && v < |voices|
    requires i < |plan| && k < |plan[i]| && plan[i][k].segment == voices[v].segment
    ensures plan[i][k].trimStart == Max(0.0, -voices[v].start) + SecondsUpTo(plan, voices[v].segment, i)
    ensures plan[i][k].audioUrl == voices[v].audioUrl
  {
    hide Cuts;
    var at := PieceOfVoice(chunks[i], voices, plan[i], v);
    assert at == Some(k);
    SecondsArePlayed(chunks, voices, plan, v, i);
    assert Touches(chunks[i], voices[v]);
    PiecesAreConsecutive(chunks, duration, voices[v], i);
  }

  /** The piece plays at instant `t` of the concatenated output, `At` this position of its file. */
  predicate Plays(chunk: AudioChunk, piece: Piece, t: real) {
    chunk.coreStart + Seconds(piece.delayMs) <= t < chunk.coreStart + Seconds(piece.delayMs) + piece.trimDuration
  }

  function Position(chunk: AudioChunk, piece: Piece, t: real): real {
    piece.trimStart + (t - (chunk.coreStart + Seconds(piece.delayMs)))
  }

  /** In the chunk an instant belongs to, a voice is heard at that instant when it lies in the
      voice's span, and at no other, to within half a millisecond; and at the right position. */
  lemma MixedVoiceIsHeardInPlace(chunks: seq<AudioChunk>, voices: seq<Voice>, plan: seq<seq<Piece>>, v: nat, i: nat, t: real)
    requires IsMix(chunks, voices, plan) && v < |voices| && i < |chunks| && InCore(chunks[i], t)
    ensures voices[v].start + 0.0005 <= t < Min(voices[v].end, chunks[i].coreEnd) - 0.0005 ==>
              exists k :: 0 <= k < |plan[i]| && plan[i][k].segment == voices[v].segment && Plays(chunks[i], plan[i][k], t)
    ensures forall k :: 0 <= k < |plan[i]| && plan[i][k].segment == voices[v].segment && Plays(chunks[i], plan[i][k], t) ==>
              && voices[v].start - 0.0005 <= t < voices[v].end + 0.0005
              && Abs(Position(chunks[i], plan[i][k], t) - (t - voices[v].start)) <= 0.0005
  {
    hide Cuts;
    var at := PieceOfVoice(chunks[i], voices, plan[i], v);
    if voices[v].start + 0.0005 <= t < Min(voices[v].end, chunks[i].coreEnd) - 0.0005 {
      assert Plays(chunks[i], plan[i][at.value], t);
    }
  }

  // ----- With the schedule of the alignment stage -----

  /** A voice built from the aligned clips comes from an aligned clip of its own segment. */
  lemma VoiceComesFromAlignedClip(
      segments: seq<Segment>, synths: seq<Synth>, stretchedUrl: (int, string) -> string, index: nat) returns (i: nat)
    requires index < |segments|
    requires VoiceFor(segments, TemporalAlignment.Aligned(segments, synths, stretchedUrl), index).Some?
    ensures i < |synths| && synths[i].segmentId == index && TemporalAlignment.Active(segments, synths[i])
    ensures var out := TemporalAlignment.Aligned(segments, synths, stretchedUrl)[i];
            var voice := VoiceFor(segments, TemporalAlignment.Aligned(segments, synths, stretchedUrl), index).value;
            out.alignedStart == Some(voice.start) && out.alignedEnd == Some(voice.end)
  {
    var out := TemporalAlignment.Aligned(segments, synths, stretchedUrl);
    var clip := ClipFor(out, index).value;
    i :| 0 <= i < |out| && out[i] == clip && clip.segmentId == index;
  }

  /** No instant of the output carries two dubbed clips. */
  lemma OneVoiceAtATime(
      segments: seq<Segment>, synths: seq<Synth>, stretchedUrl: (int, string) -> string,
      chunks: seq<AudioChunk>, duration: real, t: real, m: nat, n: nat, i: nat, j: nat)
    requires Tiles(chunks, duration) && 0.0 <= t < duration && i < |chunks| && j < |chunks|
    requires m < |segments| && n < |segments| && m != n
    requires forall k :: 0 <= k < |synths| ==> synths[k].duration >= 0.0
    requires var out := TemporalAlignment.Aligned(segments, synths, stretchedUrl);
             VoiceFor(segments, out, m).Some? && VoiceFor(segments, out, n).Some?
    ensures var out := TemporalAlignment.Aligned(segments, synths, stretchedUrl);
            !(Sounding(chunks[i], VoiceFor(segments, out, m).value, t)
              && Sounding(chunks[j], VoiceFor(segments, out, n).value, t))
  {
    var out := TemporalAlignment.Aligned(segments, synths, stretchedUrl);
    var a := VoiceComesFromAlignedClip(segments, synths, stretchedUrl, m);
    var b := VoiceComesFromAlignedClip(segments, synths, stretchedUrl, n);
    TemporalAlignment.AlignedClipsAreDisjoint(segments, synths, stretchedUrl, MinInt(a, b), MaxInt(a, b));
    ClipIsHeardOnceInPlace(chunks, duration, VoiceFor(segments, out, m).value, t);
    ClipIsHeardOnceInPlace(chunks, duration, VoiceFor(segments, out, n).value, t);
  }

  /** Conversely every aligned clip is given a voice, when no two clips share a segment id. */
  lemma EveryAlignedClipHasAVoice(
      segments: seq<Segment>, synths: seq<Synth>, stretchedUrl: (int, string) -> string, i: nat)
    requires i < |synths| && TemporalAlignment.Active(segments, synths[i])
    requires forall j, k :: 0 <= j < k < |synths| ==> synths[j].segmentId != synths[k].segmentId
    requires forall id, url :: stretchedUrl(id, url) != ""
    ensures var out := TemporalAlignment.Aligned(segments, synths, stretchedUrl);
            VoiceFor(segments, out, synths[i].segmentId)
            == Some(Voice(synths[i].segmentId, out[i].audioUrl, out[i].alignedStart.value, out[i].alignedEnd.value))
  {
    var out := TemporalAlignment.Aligned(segments, synths, stretchedUrl);
    var id: nat := synths[i].segmentId;
    assert out[i].segmentId == id;
    var clip := ClipFor(out, id).value;
    var j :| 0 <= j < |out| && out[j] == clip && clip.segmentId == id;
    assert synths[j].segmentId == id;
    assert j == i;
  }
}
