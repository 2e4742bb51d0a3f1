/** The work on each chunk, the objects it leaves in storage, and the plain sequential run: all
    chunks separated, then all diarized, then all transcribed. */
module ChunkWork {
  import opened PipelineTypes
  import opened ChunkGeometry
  import opened SpeakerIdentity
  import opened ChunkAggregation

  /** The stages of one chunk as functions of the chunk; `None` and `false` are exceptions. */
  datatype Work = Work(
    separate: nat -> bool,
    diarize: nat -> Option<Diarization>,
    transcribe: (nat, Diarization) -> Option<Transcription>)

  /** A run: the work, the objects earlier runs left behind, and whether they still count. */
  datatype Plan = Plan(
    setup: Setup,
    work: Work,
    storedDiarizations: map<nat, Diarization>,
    storedTranscriptions: map<nat, Transcription>,
    diarizationInvalidated: bool,
    transcriptionInvalidated: bool)

  function ChunkTotal(plan: Plan): nat {
    |plan.setup.chunks|
  }

  function DiarizationOf(plan: Plan, i: nat): Option<Diarization> {
    if !plan.diarizationInvalidated && i in plan.storedDiarizations then Some(plan.storedDiarizations[i])
    else plan.work.diarize(i)
  }

  function TranscriptionOf(plan: Plan, i: nat): Option<Transcription> {
    match DiarizationOf(plan, i)
    case None => None
    case Some(diarization) =>
      if !plan.transcriptionInvalidated && i in plan.storedTranscriptions then Some(plan.storedTranscriptions[i])
      else plan.work.transcribe(i, diarization)
  }

  predicate AllSeparate(plan: Plan) {
    forall i :: 0 <= i < ChunkTotal(plan) ==> plan.work.separate(i)
  }

  predicate AllDiarize(plan: Plan) {
    forall i :: 0 <= i < ChunkTotal(plan) ==> DiarizationOf(plan, i).Some?
  }

  predicate AllTranscribe(plan: Plan) {
    forall i :: 0 <= i < ChunkTotal(plan) ==> TranscriptionOf(plan, i).Some?
  }

  /** The results chunk by chunk; only read where the chunk's stage succeeds. */
  ghost function Diarizations(plan: Plan): (ds: seq<Diarization>)
    ensures |ds| == ChunkTotal(plan)
    ensures forall i :: 0 <= i < |ds| && DiarizationOf(plan, i).Some? ==> DiarizationOf(plan, i) == Some(ds[i])
  {
    seq(ChunkTotal(plan), i requires 0 <= i < ChunkTotal(plan) =>
      match DiarizationOf(plan, i) case Some(d) => d case None => Diarization([], []))
  }

  ghost function Transcriptions(plan: Plan): (ts: seq<Transcription>)
    ensures |ts| == ChunkTotal(plan)
    ensures forall i :: 0 <= i < |ts| && TranscriptionOf(plan, i).Some? ==> TranscriptionOf(plan, i) == Some(ts[i])
  {
    seq(ChunkTotal(plan), i requires 0 <= i < ChunkTotal(plan) =>
      match TranscriptionOf(plan, i) case Some(t) => t case None => Transcription("", []))
  }

  lemma TranscribedMeansDiarized(plan: Plan)
    requires AllTranscribe(plan)
    ensures AllDiarize(plan)
  {
    forall i | 0 <= i < ChunkTotal(plan) ensures DiarizationOf(plan, i).Some? {
      assert TranscriptionOf(plan, i).Some?;
    }
  }

  ghost function FinalTranscript(plan: Plan): Transcript {
    var ds, ts := Diarizations(plan), Transcriptions(plan);
    Transcript(WordTranscript(plan.setup, ds, ts), CastAfter(plan.setup, ds, |ds|), MostCommon(Languages(ts, |ts|)))
  }

  // ----- What a run delivers -----

  /** Place `origin` of the chunks' transcriptions holds a segment with words whose chunk makes `out` of it. */
  ghost predicate IsSpoken(plan: Plan, origin: Origin, out: Segment) {
    && origin.chunk < ChunkTotal(plan) && TranscriptionOf(plan, origin.chunk).Some?
    && origin.index < |TranscriptionOf(plan, origin.chunk).value.segments|
    && Emits(TranscriptionOf(plan, origin.chunk).value.segments[origin.index], plan.setup.chunks[origin.chunk],
             LocalMapOf(plan.setup, Diarizations(plan), origin.chunk), out)
    && !Blank(out.text)
  }

  ghost predicate IsTurn(plan: Plan, origin: Origin, out: Segment) {
    && origin.chunk < ChunkTotal(plan) && DiarizationOf(plan, origin.chunk).Some?
    && origin.index < |DiarizationOf(plan, origin.chunk).value.segments|
    && Emits(DiarizationOf(plan, origin.chunk).value.segments[origin.index], plan.setup.chunks[origin.chunk],
             LocalMapOf(plan.setup, Diarizations(plan), origin.chunk), out)
  }

  /** The list holds what the places give, each place once, and nothing else, in order of time and,
      where times are equal, of chunk and place. */
  ghost predicate HoldsExactly(list: seq<Segment>, origins: seq<Origin>, gives: (Origin, Segment) -> bool) {
    && |origins| == |list|
    && (forall k :: 0 <= k < |list| ==> gives(origins[k], list[k]))
    && (forall j, k :: 0 <= j < k < |list| ==> origins[j] != origins[k])
    && (forall origin, out :: gives(origin, out) ==> exists k :: 0 <= k < |list| && origins[k] == origin && list[k] == out)
    && IsChronological(list, origins)
  }

  lemma SpokenMeansYielded(plan: Plan, origin: Origin, out: Segment)
    requires AllTranscribe(plan)
    ensures IsSpoken(plan, origin, out)
       <==> origin.chunk < ChunkTotal(plan)
            && Yields(plan.setup, Diarizations(plan), Words(Transcriptions(plan)), true, origin, out)
  {
    hide Emits, Blank, LocalMapOf, TranscriptionOf;
  }

  lemma TurnMeansYielded(plan: Plan, origin: Origin, out: Segment)
    requires AllDiarize(plan)
    ensures IsTurn(plan, origin, out)
       <==> origin.chunk < ChunkTotal(plan)
            && Yields(plan.setup, Diarizations(plan), Turns(Diarizations(plan)), false, origin, out)
  {
    hide Emits, LocalMapOf, DiarizationOf;
  }

  lemma SameOriginSameSegment(setup: Setup, ds: seq<Diarization>, all: seq<seq<Segment>>, spokenOnly: bool,
                              origin: Origin, a: Segment, b: Segment)
    requires |ds| == |all| == |setup.chunks|
    requires Yields(setup, ds, all, spokenOnly, origin, a) && Yields(setup, ds, all, spokenOnly, origin, b)
    ensures a == b
  {
    var segment, chunk, localMap := all[origin.chunk][origin.index], setup.chunks[origin.chunk], LocalMapOf(setup, ds, origin.chunk);
    hide Emits, LocalMapOf, SegmentToGlobal;
    SegmentToGlobalEmits(segment, chunk, localMap, a);
    SegmentToGlobalEmits(segment, chunk, localMap, b);
  }

  /** The final transcript of a run holds every spoken segment of every chunk, once, and no other. */
  lemma TranscriptHoldsTheSpokenWords(plan: Plan) returns (origins: seq<Origin>)
    requires AllTranscribe(plan)
    ensures HoldsExactly(FinalTranscript(plan).segments, origins, (origin, out) => IsSpoken(plan, origin, out))
  {
    hide IsSpoken, Yields, WordTranscript, IsChronological, AllTranscribe;
    var ds, ts, list := Diarizations(plan), Transcriptions(plan), FinalTranscript(plan).segments;
    origins := WordTranscriptHolds(plan.setup, ds, ts);
    forall origin: Origin, out
      ensures IsSpoken(plan, origin, out) <==> origin.chunk < ChunkTotal(plan) && Yields(plan.setup, ds, Words(ts), true, origin, out)
    {
      SpokenMeansYielded(plan, origin, out);
    }
    forall origin: Origin, out | IsSpoken(plan, origin, out)
      ensures exists k :: 0 <= k < |list| && origins[k] == origin && list[k] == out
    {
      assert origin in origins;
      var k :| 0 <= k < |origins| && origins[k] == origin;
      SameOriginSameSegment(plan.setup, ds, Words(ts), true, origin, list[k], out);
    }
  }

  /** The turns persisted when the last chunk is diarized hold every turn of every chunk, once, and
      no other. */
  lemma TranscriptHoldsTheTurns(plan: Plan) returns (origins: seq<Origin>)
    requires AllDiarize(plan)
    ensures HoldsExactly(TurnTranscript(plan.setup, Diarizations(plan)), origins, (origin, out) => IsTurn(plan, origin, out))
  {
    hide IsTurn, Yields, TurnTranscript, IsChronological, AllDiarize;
    var ds, list := Diarizations(plan), TurnTranscript(plan.setup, Diarizations(plan));
    origins := TurnTranscriptHolds(plan.setup, ds);
    forall origin: Origin, out
      ensures IsTurn(plan, origin, out) <==> origin.chunk < ChunkTotal(plan) && Yields(plan.setup, ds, Turns(ds), false, origin, out)
    {
      TurnMeansYielded(plan, origin, out);
    }
    forall origin: Origin, out | IsTurn(plan, origin, out)
      ensures exists k :: 0 <= k < |list| && origins[k] == origin && list[k] == out
    {
      assert origin in origins;
      var k :| 0 <= k < |origins| && origins[k] == origin;
      SameOriginSameSegment(plan.setup, ds, Turns(ds), false, origin, list[k], out);
    }
  }

  /** The language of a run is the one detected in most chunks, the first heard among equals. */
  lemma TranscriptIsInTheMainLanguage(plan: Plan, other: string)
    requires other != ""
    ensures var language, ts := FinalTranscript(plan).language, Transcriptions(plan);
            && (language == "" <==> forall i :: 0 <= i < |ts| ==> ts[i].language == "")
            && |Hearing(ts, |ts|, other)| <= |Hearing(ts, |ts|, language)|
            && (other != language && |Hearing(ts, |ts|, other)| == |Hearing(ts, |ts|, language)| ==>
                  forall c :: 0 <= c < |ts| && ts[c].language == other ==> exists b :: 0 <= b < c && ts[b].language == language)
  {
    var ts := Transcriptions(plan);
    LanguageIsHeardMost(ts, other);
    if FinalTranscript(plan).language == "" {
      assert Hearing(ts, |ts|, other) == {};
    }
  }

  /** A payload that no longer counts is never used: redoing both stages gives the same result over
      any storage. */
  lemma InvalidatedPayloadsAreIgnored(plan: Plan, storedDiarizations: map<nat, Diarization>, storedTranscriptions: map<nat, Transcription>)
    requires plan.diarizationInvalidated && plan.transcriptionInvalidated
    ensures var other := plan.(storedDiarizations := storedDiarizations, storedTranscriptions := storedTranscriptions);
            && FinalTranscript(other) == FinalTranscript(plan) && (AllTranscribe(other) <==> AllTranscribe(plan))
            && TurnTranscript(other.setup, Diarizations(other)) == TurnTranscript(plan.setup, Diarizations(plan))
  {
    hide WordTranscript, TurnTranscript, CastAfter, Languages, MostCommon;
    var other := plan.(storedDiarizations := storedDiarizations, storedTranscriptions := storedTranscriptions);
    forall i: nat ensures DiarizationOf(other, i) == DiarizationOf(plan, i) && TranscriptionOf(other, i) == TranscriptionOf(plan, i) {
    }
    assert Diarizations(other) == Diarizations(plan) && Transcriptions(other) == Transcriptions(plan);
  }

  /** One that counts is never computed again: over complete storage the work does not matter. */
  lemma StoredPayloadsAreReused(plan: Plan, work: Work)
    requires !plan.diarizationInvalidated && !plan.transcriptionInvalidated
    requires forall i: nat :: 0 <= i < ChunkTotal(plan) ==> i in plan.storedDiarizations && i in plan.storedTranscriptions
    ensures var other := plan.(work := work);
            FinalTranscript(other) == FinalTranscript(plan) && AllTranscribe(other)
    ensures forall i: nat :: 0 <= i < ChunkTotal(plan) ==>
              DiarizationOf(plan, i) == Some(plan.storedDiarizations[i]) && TranscriptionOf(plan, i) == Some(plan.storedTranscriptions[i])
  {
    hide WordTranscript, CastAfter, Languages, MostCommon;
    var other := plan.(work := work);
    assert Diarizations(other) == Diarizations(plan) && Transcriptions(other) == Transcriptions(plan);
  }

  /** The object store. `diarized` and `transcribed` are the chunks this run has handled. */
  class ChunkStore {
    ghost const plan: Plan
    var diarizations: map<nat, Diarization>
    var transcriptions: map<nat, Transcription>
    ghost var diarized: set<nat>
    ghost var transcribed: set<nat>

    constructor (plan: Plan)
      ensures this.plan == plan && Valid() && diarized == {} && transcribed == {}
    {
      this.plan := plan;
      diarizations, transcriptions := plan.storedDiarizations, plan.storedTranscriptions;
      diarized, transcribed := {}, {};
    }

    /** The chunks handled have their results stored, the others are as they were. */
    ghost predicate Valid()
      reads this
    {
      && (forall i :: i in diarized ==> i in diarizations && DiarizationOf(plan, i) == Some(diarizations[i]))
      && (forall i :: i in transcribed ==> i in transcriptions && TranscriptionOf(plan, i) == Some(transcriptions[i]))
      && (forall i :: i !in diarized ==> Same(plan.storedDiarizations, diarizations, i))
      && (forall i :: i !in transcribed ==> Same(plan.storedTranscriptions, transcriptions, i))
    }

    method EnsureDiarized(work: Work, invalidated: bool, index: nat) returns (payload: Option<Diarization>)
      requires Valid() && index !in diarized
      requires work == plan.work && invalidated == plan.diarizationInvalidated
      modifies this`diarizations, this`diarized
      ensures Valid() && payload == DiarizationOf(plan, index)
      ensures diarized == if payload.Some? then old(diarized) + {index} else old(diarized)
    {
      assert Same(plan.storedDiarizations, diarizations, index);
      if !invalidated && index in diarizations {
        payload := Some(diarizations[index]);
        diarized := diarized + {index};
        return;
      }
      payload := work.diarize(index);
      if payload.Some? {
        diarizations := diarizations[index := payload.value];
        diarized := diarized + {index};
      }
    }

    method LoadDiarization(index: nat) returns (payload: Diarization)
      requires Valid() && index in diarized
      ensures DiarizationOf(plan, index) == Some(payload)
    {
      payload := diarizations[index];
    }

    method EnsureTranscribed(work: Work, invalidated: bool, index: nat, diarization: Diarization)
      returns (payload: Option<Transcription>)
      requires Valid() && index !in transcribed && DiarizationOf(plan, index) == Some(diarization)
      requires work == plan.work && invalidated == plan.transcriptionInvalidated
      modifies this`transcriptions, this`transcribed
      ensures Valid() && payload == TranscriptionOf(plan, index)
      ensures transcribed == if payload.Some? then old(transcribed) + {index} else old(transcribed)
    {
      assert Same(plan.storedTranscriptions, transcriptions, index);
      if !invalidated && index in transcriptions {
        payload := Some(transcriptions[index]);
        transcribed := transcribed + {index};
        return;
      }
      payload := work.transcribe(index, diarization);
      if payload.Some? {
        transcriptions := transcriptions[index := payload.value];
        transcribed := transcribed + {index};
      }
    }
  }

  ghost predicate Same<T>(before: map<nat, T>, after: map<nat, T>, i: nat) {
    (i in before <==> i in after) && (i in before ==> before[i] == after[i])
  }

  ghost predicate ExactlyBelow(done: set<nat>, n: nat) {
    forall i :: i in done <==> 0 <= i < n
  }

  lemma OneMoreBelow(done: set<nat>, n: nat)
    requires ExactlyBelow(done, n)
    ensures ExactlyBelow(done + {n}, n + 1) && n !in done
  {
  }

  lemma IsBelow(done: set<nat>, n: nat, i: nat)
    requires ExactlyBelow(done, n) && i < n
    ensures i in done
  {
  }

  lemma NoneBelow()
    ensures ExactlyBelow({}, 0)
  {
  }

  // ----- The sequential run -----

  method SeparateChunks(plan: Plan) returns (ok: bool)
    ensures ok == AllSeparate(plan)
  {
    for i := 0 to ChunkTotal(plan)
      invariant forall j :: 0 <= j < i ==> plan.work.separate(j)
    {
      if !plan.work.separate(i) {
        return false;
      }
    }
    ok := true;
  }

  method DiarizeChunks(plan: Plan, store: ChunkStore) returns (result: Option<(seq<Segment>, seq<GlobalSpeaker>)>)
    requires store.plan == plan && store.Valid() && store.diarized == {}
    modifies store`diarizations, store`diarized
    ensures store.Valid()
    ensures result.Some? <==> AllDiarize(plan)
    ensures result.Some? ==>
              && ExactlyBelow(store.diarized, ChunkTotal(plan))
              && result.value == (TurnTranscript(plan.setup, Diarizations(plan)),
                                  CastAfter(plan.setup, Diarizations(plan), ChunkTotal(plan)))
  {
    hide Stitcher.HoldsTurns, ChunkStore.Valid, TurnTranscript, DiarizationOf, ExactlyBelow;
    ghost var ds, ts := Diarizations(plan), Transcriptions(plan);
    NoneBelow();
    var stitcher := new Stitcher(plan.setup, ds, ts);
    for i := 0 to ChunkTotal(plan)
      invariant store.Valid() && ExactlyBelow(store.diarized, i)
      invariant fresh(stitcher) && fresh(stitcher.registry) && stitcher.setup == plan.setup
      invariant forall j :: 0 <= j < i ==> DiarizationOf(plan, j).Some?
      invariant stitcher.HoldsTurns(ds, i)
    {
      OneMoreBelow(store.diarized, i);
      var payload := store.EnsureDiarized(plan.work, plan.diarizationInvalidated, i);
      if payload == None {
        return None;
      }
      stitcher.AddTurns(payload.value, plan.setup.chunks[i], ds, i);
    }
    var turns, speakers := stitcher.FinishTurns(ds);
    result := Some((turns, speakers));
  }

  /** Needs every chunk's diarization in storage. */
  method TranscribeChunks(plan: Plan, store: ChunkStore) returns (result: Option<Transcript>)
    requires store.plan == plan && store.Valid() && store.transcribed == {}
    requires ExactlyBelow(store.diarized, ChunkTotal(plan))
    modifies store`transcriptions, store`transcribed
    ensures store.Valid()
    ensures result.Some? <==> AllTranscribe(plan)
    ensures result.Some? ==> result.value == FinalTranscript(plan)
  {
    hide Stitcher.HoldsWords, ChunkStore.Valid, FinalTranscript, DiarizationOf, TranscriptionOf, ExactlyBelow, Diarizations,
         Transcriptions;
    ghost var ds, ts := Diarizations(plan), Transcriptions(plan);
    NoneBelow();
    var stitcher := new Stitcher(plan.setup, ds, ts);
    for i := 0 to ChunkTotal(plan)
      invariant store.Valid() && ExactlyBelow(store.transcribed, i)
      invariant fresh(stitcher) && fresh(stitcher.registry) && stitcher.setup == plan.setup
      invariant forall j :: 0 <= j < i ==> TranscriptionOf(plan, j).Some?
      invariant stitcher.HoldsWords(ds, ts, i)
    {
      OneMoreBelow(store.transcribed, i);
      IsBelow(store.diarized, ChunkTotal(plan), i);
      var diarization := store.LoadDiarization(i);
      var payload := store.EnsureTranscribed(plan.work, plan.transcriptionInvalidated, i, diarization);
      if payload == None {
        return None;
      }
      stitcher.AddWords(diarization, payload.value, plan.setup.chunks[i], ds, ts, i);
    }
    var transcript := stitcher.FinishWords(ds, ts);
    FinalTranscriptIs(plan);
    result := Some(transcript);
  }

  lemma FinalTranscriptIs(plan: Plan)
    ensures var ds, ts := Diarizations(plan), Transcriptions(plan);
            FinalTranscript(plan)
            == Transcript(WordTranscript(plan.setup, ds, ts), CastAfter(plan.setup, ds, |ds|), MostCommon(Languages(ts, |ts|)))
  {
  }

  method RunSequentially(plan: Plan) returns (result: Option<Transcript>)
    ensures result.Some? <==> AllSeparate(plan) && AllTranscribe(plan)
    ensures result.Some? ==> result.value == FinalTranscript(plan)
  {
    var store := new ChunkStore(plan);
    var separated := SeparateChunks(plan);
    if !separated {
      return None;
    }
    var turns := DiarizeChunks(plan, store);
    if turns == None {
      if AllTranscribe(plan) {
        TranscribedMeansDiarized(plan);
      }
      return None;
    }
    result := TranscribeChunks(plan, store);
  }

  // ----- Aggregating the payloads of a finished run -----

  method AggregateDiarizations(plan: Plan, payloads: map<nat, Diarization>)
    returns (segments: seq<Segment>, speakers: seq<GlobalSpeaker>)
    requires forall i: nat :: 0 <= i < ChunkTotal(plan) ==> i in payloads && DiarizationOf(plan, i) == Some(payloads[i])
    ensures segments == TurnTranscript(plan.setup, Diarizations(plan))
    ensures speakers == CastAfter(plan.setup, Diarizations(plan), ChunkTotal(plan))
  {
    hide Stitcher.HoldsTurns, ChunkStore.Valid, TurnTranscript, DiarizationOf, ExactlyBelow;
    ghost var ds, ts := Diarizations(plan), Transcriptions(plan);
    NoneBelow();
    var stitcher := new Stitcher(plan.setup, ds, ts);
    for i := 0 to ChunkTotal(plan)
      invariant fresh(stitcher) && fresh(stitcher.registry) && stitcher.setup == plan.setup
      invariant stitcher.HoldsTurns(ds, i)
    {
      stitcher.AddTurns(payloads[i], plan.setup.chunks[i], ds, i);
    }
    segments, speakers := stitcher.FinishTurns(ds);
  }

  /** The speakers are mapped again, from the diarizations read back from storage. */
  method AggregateTranscriptions(plan: Plan, store: ChunkStore, payloads: map<nat, Transcription>) returns (transcript: Transcript)
    requires store.plan == plan && store.Valid() && ExactlyBelow(store.diarized, ChunkTotal(plan))
    requires forall i: nat :: 0 <= i < ChunkTotal(plan) ==> i in payloads && TranscriptionOf(plan, i) == Some(payloads[i])
    ensures transcript == FinalTranscript(plan)
  {
    hide Stitcher.HoldsWords, ChunkStore.Valid, FinalTranscript, DiarizationOf, TranscriptionOf, ExactlyBelow;
    ghost var ds, ts := Diarizations(plan), Transcriptions(plan);
    var stitcher := new Stitcher(plan.setup, ds, ts);
    for i := 0 to ChunkTotal(plan)
      invariant fresh(stitcher) && fresh(stitcher.registry) && stitcher.setup == plan.setup
      invariant stitcher.HoldsWords(ds, ts, i)
    {
      IsBelow(store.diarized, ChunkTotal(plan), i);
      var diarization := store.LoadDiarization(i);
      stitcher.AddWords(diarization, payloads[i], plan.setup.chunks[i], ds, ts, i);
    }
    transcript := stitcher.FinishWords(ds, ts);
    FinalTranscriptIs(plan);
  }
}
