/** The concurrent front half: every chunk is separated, diarized and transcribed on worker
    threads, at most a fixed number of chunks at a time, and the results arrive in any order. */
module ChunkScheduler {
  import opened Numeric
  import opened PipelineTypes
  import opened SpeakerIdentity
  import opened ChunkAggregation
  import opened ChunkWork
  import opened ResumeMerge

  datatype Job = Job(stage: TaskStage, chunk: nat)

  /** What the task's lifecycle hooks are told. A finished stage is persisted with the segments
      the context holds at that moment. */
  datatype Hook =
    | Started(stage: TaskStage)
    | Finished(stage: TaskStage, segments: seq<Segment>)
    | Broke(stage: TaskStage)

  // ----- Who works on what -----

  function StageOf(i: nat, separated: set<nat>, diarized: set<nat>): TaskStage {
    if i !in separated then Separating else if i !in diarized then Diarizing else Transcribing
  }

  /** Every submitted chunk that is not finished owns exactly one future, for the stage it has
      reached, and there are no other futures. */
  ghost predicate Owned(next: nat, separated: set<nat>, diarized: set<nat>, transcribed: set<nat>,
                        futures: map<nat, Job>, issued: nat, owner: map<nat, nat>) {
    && transcribed <= diarized <= separated
    && (forall i :: i in separated ==> i < next)
    && (forall i :: i in owner <==> 0 <= i < next && i !in transcribed)
    && (forall i :: i in owner ==> owner[i] in futures && futures[owner[i]] == Job(StageOf(i, separated, diarized), i))
    && (forall f :: f in futures ==> f < issued && futures[f].chunk in owner && owner[futures[f].chunk] == f)
  }

  lemma Admitted(next: nat, separated: set<nat>, diarized: set<nat>, transcribed: set<nat>,
                 futures: map<nat, Job>, issued: nat, owner: map<nat, nat>)
    requires Owned(next, separated, diarized, transcribed, futures, issued, owner)
    ensures Owned(next + 1, separated, diarized, transcribed,
                  futures[issued := Job(Separating, next)], issued + 1, owner[next := issued])
  {
  }

  lemma Separated(next: nat, separated: set<nat>, diarized: set<nat>, transcribed: set<nat>,
                  futures: map<nat, Job>, issued: nat, owner: map<nat, nat>, f: nat)
    requires Owned(next, separated, diarized, transcribed, futures, issued, owner)
    requires f in futures && futures[f].stage == Separating
    ensures var i := futures[f].chunk;
            && i !in separated
            && Owned(next, separated + {i}, diarized, transcribed,
                     (futures - {f})[issued := Job(Diarizing, i)], issued + 1, owner[i := issued])
  {
  }

  lemma Diarized(next: nat, separated: set<nat>, diarized: set<nat>, transcribed: set<nat>,
                 futures: map<nat, Job>, issued: nat, owner: map<nat, nat>, f: nat)
    requires Owned(next, separated, diarized, transcribed, futures, issued, owner)
    requires f in futures && futures[f].stage == Diarizing
    ensures var i := futures[f].chunk;
            && i in separated && i !in diarized
            && Owned(next, separated, diarized + {i}, transcribed,
                     (futures - {f})[issued := Job(Transcribing, i)], issued + 1, owner[i := issued])
  {
  }

  lemma Transcribed(next: nat, separated: set<nat>, diarized: set<nat>, transcribed: set<nat>,
                    futures: map<nat, Job>, issued: nat, owner: map<nat, nat>, f: nat)
    requires Owned(next, separated, diarized, transcribed, futures, issued, owner)
    requires f in futures && futures[f].stage == Transcribing
    ensures var i := futures[f].chunk;
            && i in diarized && i !in transcribed
            && Owned(next, separated, diarized, transcribed + {i}, futures - {f}, issued, owner - {i})
  {
  }

  lemma OnlyWorkStages(next: nat, separated: set<nat>, diarized: set<nat>, transcribed: set<nat>,
                       futures: map<nat, Job>, issued: nat, owner: map<nat, nat>, f: nat)
    requires Owned(next, separated, diarized, transcribed, futures, issued, owner) && f in futures
    ensures futures[f].stage in {Separating, Diarizing, Transcribing} && futures[f].chunk < next
  {
  }

  // ----- Counting -----

  lemma {:induction false} SetBelowIsSmall(s: set<nat>, n: nat)
    requires forall i :: i in s ==> i < n
    ensures |s| <= n
    ensures |s| == n ==> forall i :: 0 <= i < n ==> i in s
  {
    if n > 0 {
      SetBelowIsSmall(s - {n - 1}, n - 1);
      if n - 1 !in s {
        assert s - {n - 1} == s;
      }
    } else {
      assert forall i :: i in s ==> i in {};
      assert s == {};
    }
  }

  lemma {:induction false} BijectionKeepsSize(owner: map<nat, nat>, futures: map<nat, Job>)
    requires forall i :: i in owner ==> owner[i] in futures && futures[owner[i]].chunk == i
    requires forall f :: f in futures ==> futures[f].chunk in owner && owner[futures[f].chunk] == f
    ensures |owner| == |futures|
    decreases |owner|
  {
    if owner == map[] {
      if f :| f in futures {
        assert futures[f].chunk in owner;
      }
    } else {
      var i :| i in owner;
      BijectionKeepsSize(owner - {i}, futures - {owner[i]});
      assert |owner - {i}| == |owner| - 1 && |futures - {owner[i]}| == |futures| - 1 by {
        assert (owner - {i}).Keys == owner.Keys - {i};
        assert (futures - {owner[i]}).Keys == futures.Keys - {owner[i]};
      }
    }
  }

  lemma {:induction false} UnfinishedAreCounted(next: nat, transcribed: set<nat>, unfinished: set<nat>)
    requires forall i :: i in transcribed ==> i < next
    requires forall i :: i in unfinished <==> 0 <= i < next && i !in transcribed
    ensures |unfinished| == next - |transcribed|
  {
    if next == 0 {
      SetBelowIsSmall(transcribed, 0);
      SetBelowIsSmall(unfinished, 0);
    } else {
      UnfinishedAreCounted(next - 1, transcribed - {next - 1}, unfinished - {next - 1});
      if next - 1 in transcribed {
        assert unfinished - {next - 1} == unfinished;
      } else {
        assert transcribed - {next - 1} == transcribed;
      }
    }
  }

  /** There are exactly as many futures as chunks submitted and not finished. */
  lemma FuturesAreCounted(next: nat, separated: set<nat>, diarized: set<nat>, transcribed: set<nat>,
                          futures: map<nat, Job>, issued: nat, owner: map<nat, nat>)
    requires Owned(next, separated, diarized, transcribed, futures, issued, owner)
    ensures |futures| == next - |transcribed|
  {
    BijectionKeepsSize(owner, futures);
    UnfinishedAreCounted(next, transcribed, owner.Keys);
    assert |owner| == |owner.Keys|;
  }

  // ----- What the hooks have been told -----

  function StartedTimes(log: seq<Hook>, stage: TaskStage): nat {
    if log == [] then 0
    else StartedTimes(log[..|log| - 1], stage) + if log[|log| - 1] == Started(stage) then 1 else 0
  }

  function FinishedTimes(log: seq<Hook>, stage: TaskStage): nat {
    if log == [] then 0
    else
      var last := log[|log| - 1];
      FinishedTimes(log[..|log| - 1], stage) + if last.Finished? && last.stage == stage then 1 else 0
  }

  lemma LogGrows(log: seq<Hook>, hook: Hook)
    ensures forall s :: StartedTimes(log + [hook], s) == StartedTimes(log, s) + if hook == Started(s) then 1 else 0
    ensures forall s :: FinishedTimes(log + [hook], s) == FinishedTimes(log, s) + if hook.Finished? && hook.stage == s then 1 else 0
  {
    assert (log + [hook])[..|log|] == log;
  }

  /** The turns persisted when diarization finishes are those of the sequential run. */
  ghost predicate PersistsTurns(plan: Plan, log: seq<Hook>) {
    forall k :: 0 <= k < |log| && log[k].Finished? && log[k].stage == Diarizing ==>
      log[k].segments == TurnTranscript(plan.setup, Diarizations(plan))
  }

  /** A stage is announced as started once, with its first chunk, and as finished once, with its
      last. */
  ghost predicate Announced(plan: Plan, log: seq<Hook>, started: set<TaskStage>, reported: set<TaskStage>,
                            separated: set<nat>, diarized: set<nat>) {
    && (forall s :: FinishedTimes(log, s) == if s in reported then 1 else 0)
    && StartedTimes(log, Separating) == 1
    && StartedTimes(log, Diarizing) == (if separated == {} then 0 else 1)
    && StartedTimes(log, Transcribing) == (if diarized == {} then 0 else 1)
    && (Diarizing in started <==> separated != {})
    && (Transcribing in started <==> diarized != {})
    && reported <= {Separating, Diarizing}
    && PersistsTurns(plan, log)
  }

  ghost predicate FullyReported(plan: Plan, reported: set<TaskStage>, separated: set<nat>, diarized: set<nat>) {
    && (Separating in reported <==> |separated| == ChunkTotal(plan))
    && (Diarizing in reported <==> |diarized| == ChunkTotal(plan))
  }

  /** The payloads collected so far are the results of the chunks they stand for. */
  ghost predicate Collected(plan: Plan, diarized: set<nat>, transcribed: set<nat>,
                            diarizations: map<nat, Diarization>, transcriptions: map<nat, Transcription>) {
    && (forall i :: i in diarized ==> i in diarizations && DiarizationOf(plan, i) == Some(diarizations[i]))
    && (forall i :: i in transcribed ==> i in transcriptions && TranscriptionOf(plan, i) == Some(transcriptions[i]))
  }

  /** No more chunks are in flight than allowed, and no fewer while some are still waiting. */
  ghost predicate Busy(plan: Plan, bound: int, next: nat, transcribed: set<nat>) {
    && next <= ChunkTotal(plan)
    && next - |transcribed| <= bound
    && (next < ChunkTotal(plan) ==> next - |transcribed| == bound)
  }

  /** Redoing one stage makes every later stage outdated. */
  function Downstream(invalidated: set<TaskStage>): set<TaskStage> {
    invalidated
    + (if Separating in invalidated then {Diarizing, Transcribing, Translating, Synthesizing, Aligning, Mixing} else {})
    + (if Diarizing in invalidated then {Transcribing, Translating, Synthesizing, Aligning, Mixing} else {})
    + (if Transcribing in invalidated then {Translating, Synthesizing, Aligning, Mixing} else {})
  }

  const LONG_AUDIO_ORDER: seq<TaskStage> :=
    [Separating, Diarizing, Transcribing, Translating, Synthesizing, Aligning, Mixing]

  /** A stage is outdated exactly when it was marked, or stands after a front-half stage that was. */
  lemma LaterStagesAreOutdated(invalidated: set<TaskStage>, stage: TaskStage)
    ensures stage in Downstream(invalidated) <==>
              (stage in invalidated
               || exists i, j :: 0 <= i < j < |LONG_AUDIO_ORDER| && i < 3 && LONG_AUDIO_ORDER[i] in invalidated
                                 && LONG_AUDIO_ORDER[j] == stage)
  {
    var order := LONG_AUDIO_ORDER;
    assert order[0] == Separating && order[1] == Diarizing && order[2] == Transcribing;
    assert order[3] == Translating && order[4] == Synthesizing && order[5] == Aligning && order[6] == Mixing;
    if stage in Downstream(invalidated) && stage !in invalidated {
      var j := match stage
               case Diarizing => 1
               case Transcribing => 2
               case Translating => 3
               case Synthesizing => 4
               case Aligning => 5
               case _ => 6;
      var i := if Separating in invalidated then 0 else if Diarizing in invalidated then 1 else 2;
      assert 0 <= i < j < |order| && i < 3 && order[i] in invalidated && order[j] == stage;
    }
  }

  class FrontHalf {
    const plan: Plan
    const maxInFlight: int
    const store: ChunkStore
    var futures: map<nat, Job>
    var issued: nat
    var nextChunk: nat
    var separated: set<nat>
    var diarized: set<nat>
    var transcribed: set<nat>
    var diarizations: map<nat, Diarization>
    var transcriptions: map<nat, Transcription>
    var started: set<TaskStage>
    var reported: set<TaskStage>
    var log: seq<Hook>
    var segments: seq<Segment>
    var speakers: seq<GlobalSpeaker>
    var language: string
    var invalidated: set<TaskStage>
    ghost var owner: map<nat, nat>
    ghost const outdated: set<TaskStage>

    constructor (plan: Plan, maxInFlight: int, segments: seq<Segment>, speakers: seq<GlobalSpeaker>, language: string,
                 invalidated: set<TaskStage>)
      ensures this.plan == plan && this.maxInFlight == maxInFlight && fresh(store) && Fresh()
      ensures this.segments == segments && this.speakers == speakers && this.language == language
      ensures this.invalidated == invalidated && outdated == Downstream(invalidated)
    {
      outdated := Downstream(invalidated);
      this.plan, this.maxInFlight := plan, maxInFlight;
      store := new ChunkStore(plan);
      futures, issued, nextChunk, owner := map[], 0, 0, map[];
      separated, diarized, transcribed, diarizations, transcriptions := {}, {}, {}, map[], map[];
      started, reported, log := {}, {}, [];
      this.segments, this.speakers, this.language, this.invalidated := segments, speakers, language, invalidated;
    }

    ghost predicate Fresh()
      reads this, store
    {
      && Working() && nextChunk == 0 && futures == map[] && separated == diarized == transcribed == {}
      && started == reported == {} && log == []
    }

    ghost predicate Stored()
      reads this`diarized, this`transcribed, store
    {
      store.plan == plan && store.Valid() && store.diarized == diarized && store.transcribed == transcribed
    }

    ghost predicate Kept()
      reads this`futures, this`issued, this`nextChunk, this`owner, this`separated, this`diarized, this`transcribed
      reads this`diarizations, this`transcriptions
    {
      && nextChunk <= ChunkTotal(plan)
      && Owned(nextChunk, separated, diarized, transcribed, futures, issued, owner)
      && (forall i :: i in separated ==> plan.work.separate(i))
      && Collected(plan, diarized, transcribed, diarizations, transcriptions)
    }

    ghost predicate Working()
      reads this`futures, this`issued, this`nextChunk, this`owner, this`separated, this`diarized, this`transcribed
      reads this`diarizations, this`transcriptions, store
    {
      Stored() && Kept()
    }

    ghost predicate Valid()
      reads this, store
    {
      && Working()
      && Busy(plan, MaxInt(1, maxInFlight), nextChunk, transcribed)
      && Announced(plan, log, started, reported, separated, diarized)
      && FullyReported(plan, reported, separated, diarized)
      && invalidated == outdated - reported
    }

    /** How many stages of chunks remain to be done. */
    ghost function Left(): int
      reads this
    {
      3 * ChunkTotal(plan) - |separated| - |diarized| - |transcribed|
    }

    lemma JobIsKnown(future: nat)
      requires Working() && future in futures
      ensures futures[future].stage in {Separating, Diarizing, Transcribing} && futures[future].chunk < ChunkTotal(plan)
    {
      hide Collected, ChunkStore.Valid;
      OnlyWorkStages(nextChunk, separated, diarized, transcribed, futures, issued, owner, future);
    }

    /** A chunk waits for a stage it has not been through, with what that stage needs. */
    lemma JobIsNext(future: nat)
      requires Kept() && future in futures
      ensures var Job(stage, i) := futures[future];
              && i < ChunkTotal(plan)
              && (stage == Diarizing ==> i !in diarized)
              && (stage == Transcribing ==>
                    i !in transcribed && i in diarizations && DiarizationOf(plan, i) == Some(diarizations[i]))
    {
      hide DiarizationOf, TranscriptionOf;
    }

    lemma TurnsAreComplete()
      requires Working() && |diarized| == ChunkTotal(plan)
      ensures forall i: nat :: 0 <= i < ChunkTotal(plan) ==> i in diarizations && DiarizationOf(plan, i) == Some(diarizations[i])
    {
      hide Owned, ChunkStore.Valid, DiarizationOf;
      AllAreCollected(nextChunk, separated, diarized, transcribed, futures, issued, owner, ChunkTotal(plan));
    }

    method SubmitNextChunk()
      requires Working() && nextChunk < ChunkTotal(plan)
      modifies this`futures, this`issued, this`nextChunk, this`owner
      ensures Working() && nextChunk == old(nextChunk) + 1
      ensures forall f :: f in old(futures) ==> f in futures
    {
      hide Owned, Collected, ChunkStore.Valid;
      Admitted(nextChunk, separated, diarized, transcribed, futures, issued, owner);
      FutureIsNew(nextChunk, separated, diarized, transcribed, futures, issued, owner);
      futures := futures[issued := Job(Separating, nextChunk)];
      owner := owner[nextChunk := issued];
      issued, nextChunk := issued + 1, nextChunk + 1;
    }
  
    /** `_complete_chunk_pipeline_stage` */
    method ReportFinished(stage: TaskStage)
      requires Announced(plan, log, started, reported, separated, diarized)
      requires stage in {Separating, Diarizing} && stage !in reported
      requires stage == Diarizing ==> segments == TurnTranscript(plan.setup, Diarizations(plan))
      modifies this`log, this`reported, this`invalidated
      ensures Announced(plan, log, started, reported, separated, diarized)
      ensures reported == old(reported) + {stage} && invalidated == old(invalidated) - {stage}
    {
      hide Announced;
      FinishedIsLogged(plan, log, started, reported, separated, diarized, stage, segments);
      invalidated := invalidated - {stage};
      log := log + [Finished(stage, segments)];
      reported := reported + {stage};
    }

    /** Separation or diarization of all chunks is persisted as soon as the last one is done. */
    method ReportCompletions(stage: TaskStage)
      requires Working() && Announced(plan, log, started, reported, separated, diarized)
      requires Separating in reported ==> |separated| == ChunkTotal(plan)
      requires stage != Separating ==> (Separating in reported <==> |separated| == ChunkTotal(plan))
      requires Diarizing in reported ==> |diarized| == ChunkTotal(plan)
      modifies this`log, this`reported, this`segments, this`speakers, this`invalidated
      ensures Working() && Announced(plan, log, started, reported, separated, diarized)
      ensures FullyReported(plan, reported, separated, diarized)
      ensures old(reported) <= reported && invalidated == old(invalidated) - (reported - old(reported))
    {
      hide Working, Announced, TurnTranscript, CastAfter;
      if stage == Separating && |separated| == ChunkTotal(plan) && Separating !in reported {
        ReportFinished(Separating);
      }
      if |diarized| == ChunkTotal(plan) && Diarizing !in reported {
        TurnsAreComplete();
        segments, speakers := AggregateDiarizations(plan, diarizations);
        ReportFinished(Diarizing);
      }
    }
  
    method AnnounceStart(stage: TaskStage)
      modifies this`log, this`started
      ensures started == old(started) + {stage}
      ensures log == if stage in old(started) then old(log) else old(log) + [Started(stage)]
    {
      if stage !in started {
        log := log + [Started(stage)];
        started := started + {stage};
      }
    }

    /** The chunk has been separated and waits for its diarization. */
    method SubmitDiarization(future: nat)
      requires Working() && future in futures && futures[future].stage == Separating
      requires plan.work.separate(futures[future].chunk)
      modifies this`futures, this`issued, this`owner, this`separated
      ensures Working() && separated == old(separated) + {old(futures)[future].chunk}
      ensures |separated| == |old(separated)| + 1 <= ChunkTotal(plan)
      ensures forall g :: g in old(futures) && g != future ==> g in futures
    {
      hide Owned, Collected, ChunkStore.Valid;
      var i := futures[future].chunk;
      Separated(nextChunk, separated, diarized, transcribed, futures, issued, owner, future);
      separated := separated + {i};
      futures := (futures - {future})[issued := Job(Diarizing, i)];
      owner := owner[i := issued];
      issued := issued + 1;
      AllAreCollected(nextChunk, separated, diarized, transcribed, futures, issued, owner, ChunkTotal(plan));
    }

    method SubmitTranscription(future: nat, payload: Diarization)
      requires Kept() && future in futures && futures[future].stage == Diarizing
      requires DiarizationOf(plan, futures[future].chunk) == Some(payload)
      modifies this`futures, this`issued, this`owner, this`diarized, this`diarizations
      ensures Kept() && diarized == old(diarized) + {old(futures)[future].chunk}
      ensures |diarized| == |old(diarized)| + 1 <= ChunkTotal(plan)
      ensures forall g :: g in old(futures) && g != future ==> g in futures
    {
      hide Owned, Collected, DiarizationOf;
      var i := futures[future].chunk;
      Diarized(nextChunk, separated, diarized, transcribed, futures, issued, owner, future);
      DiarizationIsCollected(plan, diarized, transcribed, diarizations, transcriptions, i, payload);
      diarized, diarizations := diarized + {i}, diarizations[i := payload];
      futures := (futures - {future})[issued := Job(Transcribing, i)];
      owner := owner[i := issued];
      issued := issued + 1;
      AllAreCollected(nextChunk, separated, diarized, transcribed, futures, issued, owner, ChunkTotal(plan));
    }

    /** The chunk is diarized, storing its turns, and waits for its transcription. */
    method DiarizeAndSubmit(future: nat) returns (ok: bool)
      requires Working() && future in futures && futures[future].stage == Diarizing
      modifies this`futures, this`issued, this`owner, this`diarized, this`diarizations, store
      ensures !ok ==> !AllDiarize(plan) && diarized == old(diarized) && futures == old(futures)
      ensures ok ==> Working() && diarized == old(diarized) + {old(futures)[future].chunk}
      ensures ok ==> |diarized| == |old(diarized)| + 1 <= ChunkTotal(plan)
      ensures ok ==> forall g :: g in old(futures) && g != future ==> g in futures
    {
      hide Kept, ChunkStore.Valid, DiarizationOf;
      JobIsNext(future);
      var i := futures[future].chunk;
      var payload := store.EnsureDiarized(plan.work, plan.diarizationInvalidated, i);
      ok := payload.Some?;
      if ok {
        SubmitTranscription(future, payload.value);
      }
    }

    method Retire(future: nat, payload: Transcription)
      requires Kept() && future in futures && futures[future].stage == Transcribing
      requires TranscriptionOf(plan, futures[future].chunk) == Some(payload)
      modifies this`futures, this`owner, this`transcribed, this`transcriptions
      ensures Kept() && transcribed == old(transcribed) + {old(futures)[future].chunk}
      ensures |transcribed| == |old(transcribed)| + 1 <= ChunkTotal(plan)
      ensures forall g :: g in old(futures) && g != future ==> g in futures
    {
      hide Owned, Collected, TranscriptionOf;
      var i := futures[future].chunk;
      Transcribed(nextChunk, separated, diarized, transcribed, futures, issued, owner, future);
      TranscriptionIsCollected(plan, diarized, transcribed, diarizations, transcriptions, i, payload);
      transcribed, transcriptions := transcribed + {i}, transcriptions[i := payload];
      futures, owner := futures - {future}, owner - {i};
      AllAreCollected(nextChunk, separated, diarized, transcribed, futures, issued, owner, ChunkTotal(plan));
    }

    /** The chunk is transcribed, from the turns collected earlier, and its place is free. */
    method TranscribeAndRetire(future: nat) returns (ok: bool)
      requires Working() && future in futures && futures[future].stage == Transcribing
      modifies this`futures, this`owner, this`transcribed, this`transcriptions, store
      ensures !ok ==> !AllTranscribe(plan) && transcribed == old(transcribed) && futures == old(futures)
      ensures ok ==> Working() && transcribed == old(transcribed) + {old(futures)[future].chunk}
      ensures ok ==> |transcribed| == |old(transcribed)| + 1 <= ChunkTotal(plan)
      ensures ok ==> forall g :: g in old(futures) && g != future ==> g in futures
    {
      hide Kept, ChunkStore.Valid, DiarizationOf, TranscriptionOf;
      JobIsNext(future);
      var i := futures[future].chunk;
      var payload := store.EnsureTranscribed(plan.work, plan.transcriptionInvalidated, i, diarizations[i]);
      ok := payload.Some?;
      if ok {
        Retire(future, payload.value);
      }
    }

    /** What one collected result does to the rest: one stage less to do, and nobody else's
        future is touched. */
    twostate predicate Progressed(future: nat)
      reads this, store
    {
      && Valid()
      && Left() == old(Left()) - 1
      && (forall g :: g in old(futures) && g != future ==> g in futures)
      && language == old(language)
    }

    method CollectDiarization(future: nat) returns (ok: bool)
      requires Valid() && future in futures && futures[future].stage == Diarizing
      modifies this, store
      ensures ok ==> Progressed(future)
      ensures !ok ==> !AllDiarize(plan) && log != [] && log[|log| - 1].Broke?
    {
      hide Working, Announced, Busy, Owned;
      DiarizationIsAnnounced(plan, log, started, reported, separated, diarized, futures[future].chunk);
      ok := DiarizeAndSubmit(future);
      if !ok {
        log := log + [Broke(Diarizing)];
        return;
      }
      AnnounceStart(Transcribing);
      ReportCompletions(Diarizing);
    }

    /** A finished chunk makes room for the next one. */
    method CollectTranscription(future: nat) returns (ok: bool)
      requires Valid() && future in futures && futures[future].stage == Transcribing
      modifies this, store
      ensures ok ==> Progressed(future)
      ensures !ok ==> !AllTranscribe(plan) && log != [] && log[|log| - 1].Broke?
    {
      hide Working, Announced, Owned;
      ok := TranscribeAndRetire(future);
      if !ok {
        log := log + [Broke(Transcribing)];
        return;
      }
      if nextChunk < ChunkTotal(plan) {
        SubmitNextChunk();
      }
    }

    method CollectSeparation(future: nat) returns (ok: bool)
      requires Valid() && future in futures && futures[future].stage == Separating
      modifies this, store
      ensures ok ==> Progressed(future)
      ensures !ok ==> !AllSeparate(plan) && log != [] && log[|log| - 1].Broke?
    {
      hide Working, Announced, Busy, Owned;
      JobIsKnown(future);
      var i := futures[future].chunk;
      ok := plan.work.separate(i);
      if !ok {
        log := log + [Broke(Separating)];
        return;
      }
      SeparationIsAnnounced(plan, log, started, reported, separated, diarized, i);
      SubmitDiarization(future);
      AnnounceStart(Diarizing);
      ReportCompletions(Separating);
    }
  
    method Collect(future: nat) returns (ok: bool)
      requires Valid() && future in futures
      modifies this, store
      ensures ok ==> Progressed(future)
      ensures !ok ==> !(AllSeparate(plan) && AllTranscribe(plan)) && log != [] && log[|log| - 1].Broke?
    {
      JobIsKnown(future);
      match futures[future].stage {
        case Separating => ok := CollectSeparation(future);
        case Diarizing =>
          ok := CollectDiarization(future);
          if !ok && AllTranscribe(plan) {
            TranscribedMeansDiarized(plan);
          }
        case Transcribing => ok := CollectTranscription(future);
      }
    }

    /** At most the allowed number of futures exist, and exactly that many while chunks wait. */
    lemma InFlightIsBounded()
      requires Valid()
      ensures |futures| <= MaxInt(1, maxInFlight)
      ensures nextChunk < ChunkTotal(plan) ==> |futures| == MaxInt(1, maxInFlight)
    {
      FuturesAreCounted(nextChunk, separated, diarized, transcribed, futures, issued, owner);
    }

    lemma StagesLeft()
      requires Valid()
      ensures Left() >= 0
      ensures futures == map[] ==>
                && ExactlyBelow(transcribed, ChunkTotal(plan)) && transcribed == diarized == separated
                && reported == {Separating, Diarizing}
    {
      AllAreCollected(nextChunk, separated, diarized, transcribed, futures, issued, owner, ChunkTotal(plan));
      FuturesAreCounted(nextChunk, separated, diarized, transcribed, futures, issued, owner);
    }

    method SubmitFirstChunks()
      requires Working() && nextChunk == 0
      modifies this`futures, this`issued, this`nextChunk, this`owner
      ensures Working() && nextChunk == MinInt(ChunkTotal(plan), MaxInt(1, maxInFlight))
    {
      hide Working;
      while nextChunk < ChunkTotal(plan) && nextChunk < MaxInt(1, maxInFlight)
        invariant Working() && nextChunk <= ChunkTotal(plan) && nextChunk <= MaxInt(1, maxInFlight)
        decreases ChunkTotal(plan) - nextChunk
      {
        SubmitNextChunk();
      }
    }

    method Begin()
      requires Fresh() && ChunkTotal(plan) > 0 && outdated == Downstream(invalidated)
      modifies this
      ensures Valid()
      ensures segments == old(segments) && language == old(language)
    {
      hide Working, Announced, Downstream;
      FirstAnnouncement(plan);
      invalidated := Downstream(invalidated);
      log := [Started(Separating)];
      SubmitFirstChunks();
    }

    /** Collects results until none is outstanding. Which futures are done at each wait, and in
        which order they are looked at, is arbitrary. */
    method Drain() returns (ok: bool)
      requires Valid()
      modifies this, store
      ensures ok ==> Valid() && futures == map[] && language == old(language)
      ensures !ok ==> !(AllSeparate(plan) && AllTranscribe(plan)) && log != [] && log[|log| - 1].Broke?
    {
      hide Valid, Left;
      StagesLeft();
      while futures != map[]
        invariant Valid() && Left() >= 0 && language == old(language)
        decreases Left()
      {
        var done: set<nat> :| done != {} && done <= futures.Keys;
        ok := CollectAll(done);
        if !ok {
          return;
        }
        StagesLeft();
      }
      ok := true;
    }

    method CollectAll(done: set<nat>) returns (ok: bool)
      requires Valid() && done != {} && done <= futures.Keys
      modifies this, store
      ensures ok ==> Valid() && Left() < old(Left()) && language == old(language)
      ensures !ok ==> !(AllSeparate(plan) && AllTranscribe(plan)) && log != [] && log[|log| - 1].Broke?
    {
      hide Valid, Left;
      var pending := done;
      while pending != {}
        invariant Valid() && pending <= futures.Keys && language == old(language)
        invariant Left() <= old(Left()) && (pending != done ==> Left() < old(Left()))
        invariant pending <= done
        decreases pending
      {
        var future :| future in pending;
        pending := pending - {future};
        ok := Collect(future);
        if !ok {
          return;
        }
        if |transcribed| == ChunkTotal(plan) {
          break;
        }
      }
      ok := true;
    }
  
    /** The transcript of the sequential run, with the persisted translations merged back in. */
    ghost predicate Delivered(persistedSegments: seq<Segment>, languageBefore: string)
      reads this
    {
      && segments == Merged(FinalTranscript(plan).segments, persistedSegments)
      && speakers == FinalTranscript(plan).speakers
      && language == Or(FinalTranscript(plan).language, languageBefore)
      && invalidated == outdated - {Separating, Diarizing, Transcribing}
    }

    /** Each stage was announced as started and as finished once, transcription last. */
    ghost predicate AnnouncedOnce()
      reads this
    {
      && (forall stage :: stage in {Separating, Diarizing, Transcribing} ==>
            StartedTimes(log, stage) == FinishedTimes(log, stage) == 1)
      && PersistsTurns(plan, log)
      && log != [] && log[|log| - 1] == Finished(Transcribing, segments)
    }

    /** Succeeds exactly when the sequential run does, whatever the order of completion and the
        number of chunks in flight, and leaves the same transcript behind. */
    method Run(persistedSegments: seq<Segment>) returns (ok: bool)
      requires Fresh() && outdated == Downstream(invalidated)
      requires plan.diarizationInvalidated <==> Diarizing in outdated
      requires plan.transcriptionInvalidated <==> Transcribing in outdated
      modifies this, store
      ensures ChunkTotal(plan) == 0 ==>
                ok && log == [] && segments == old(segments) && speakers == old(speakers) && language == old(language)
                && invalidated == old(invalidated)
      ensures ok <==> ChunkTotal(plan) == 0 || (AllSeparate(plan) && AllTranscribe(plan))
      ensures ok && ChunkTotal(plan) > 0 ==> Delivered(persistedSegments, old(language)) && AnnouncedOnce()
      ensures !ok ==> log != [] && log[|log| - 1].Broke?
    {
      hide Fresh, Valid, Delivered, AnnouncedOnce, Downstream, AllSeparate, AllTranscribe;
      if ChunkTotal(plan) == 0 {
        NothingLogged();
        return true;
      }
      Begin();
      ok := Drain();
      if ok {
        LastStageFinishes(persistedSegments);
      }
    }

    lemma NothingLogged()
      requires Fresh()
      ensures log == []
    {
    }

    lemma EverythingSucceeded()
      requires Valid() && futures == map[]
      ensures AllSeparate(plan) && AllTranscribe(plan) && store.plan == plan && store.Valid()
      ensures ExactlyBelow(store.diarized, ChunkTotal(plan)) && reported == {Separating, Diarizing}
      ensures ChunkTotal(plan) > 0 ==> separated != {} && diarized != {}
      ensures forall i: nat :: 0 <= i < ChunkTotal(plan) ==>
                i in transcriptions && TranscriptionOf(plan, i) == Some(transcriptions[i])
    {
      hide Owned, DiarizationOf, TranscriptionOf, ChunkStore.Valid, Announced;
      StagesLeft();
      assert ChunkTotal(plan) > 0 ==> 0 in separated && 0 in diarized;
    }

    lemma Announcements()
      requires Valid()
      ensures Announced(plan, log, started, reported, separated, diarized) && invalidated == outdated - reported
    {
    }

    method LastStageFinishes(persistedSegments: seq<Segment>)
      requires Valid() && ChunkTotal(plan) > 0 && futures == map[]
      modifies this
      ensures AllSeparate(plan) && AllTranscribe(plan)
      ensures Delivered(persistedSegments, old(language)) && AnnouncedOnce()
    {
      hide Valid, Announced, Merged, FinalTranscript, AllSeparate, AllTranscribe, TranscriptionOf, ExactlyBelow, ChunkStore.Valid;
      EverythingSucceeded();
      Announcements();
      var transcript := AggregateTranscriptions(plan, store, transcriptions);
      speakers := transcript.speakers;
      segments := MergePersistedSegmentFields(transcript.segments, persistedSegments);
      language := Or(transcript.language, language);
      invalidated := invalidated - {Transcribing};
      LastIsLogged(plan, log, started, separated, diarized, segments);
      log := log + [Finished(Transcribing, segments)];
    }
  }

  lemma FirstAnnouncement(plan: Plan)
    ensures Announced(plan, [Started(Separating)], {}, {}, {}, {})
  {
    hide TurnTranscript;
    LogGrows([], Started(Separating));
    assert [] + [Started(Separating)] == [Started(Separating)];
  }

  lemma LastIsLogged(plan: Plan, log: seq<Hook>, started: set<TaskStage>, separated: set<nat>, diarized: set<nat>,
                     segments: seq<Segment>)
    requires Announced(plan, log, started, {Separating, Diarizing}, separated, diarized) && separated != {} && diarized != {}
    ensures var after := log + [Finished(Transcribing, segments)];
            && PersistsTurns(plan, after)
            && forall stage :: stage in {Separating, Diarizing, Transcribing} ==>
                 StartedTimes(after, stage) == FinishedTimes(after, stage) == 1
  {
    hide StartedTimes, FinishedTimes, TurnTranscript;
    LogGrows(log, Finished(Transcribing, segments));
  }

  lemma TranscriptionIsCollected(plan: Plan, diarized: set<nat>, transcribed: set<nat>, diarizations: map<nat, Diarization>,
                                 transcriptions: map<nat, Transcription>, i: nat, payload: Transcription)
    requires Collected(plan, diarized, transcribed, diarizations, transcriptions) && TranscriptionOf(plan, i) == Some(payload)
    ensures Collected(plan, diarized, transcribed + {i}, diarizations, transcriptions[i := payload])
  {
  }

  lemma DiarizationIsCollected(plan: Plan, diarized: set<nat>, transcribed: set<nat>, diarizations: map<nat, Diarization>,
                               transcriptions: map<nat, Transcription>, i: nat, payload: Diarization)
    requires Collected(plan, diarized, transcribed, diarizations, transcriptions) && DiarizationOf(plan, i) == Some(payload)
    ensures Collected(plan, diarized + {i}, transcribed, diarizations[i := payload], transcriptions)
  {
  }

  lemma SeparationIsAnnounced(plan: Plan, log: seq<Hook>, started: set<TaskStage>, reported: set<TaskStage>,
                              separated: set<nat>, diarized: set<nat>, i: nat)
    requires Announced(plan, log, started, reported, separated, diarized)
    ensures Announced(plan, if Diarizing in started then log else log + [Started(Diarizing)],
                      started + {Diarizing}, reported, separated + {i}, diarized)
  {
    hide FinishedTimes, StartedTimes, TurnTranscript;
    LogGrows(log, Started(Diarizing));
  }

  lemma DiarizationIsAnnounced(plan: Plan, log: seq<Hook>, started: set<TaskStage>, reported: set<TaskStage>,
                               separated: set<nat>, diarized: set<nat>, i: nat)
    requires Announced(plan, log, started, reported, separated, diarized)
    ensures Announced(plan, if Transcribing in started then log else log + [Started(Transcribing)],
                      started + {Transcribing}, reported, separated, diarized + {i})
  {
    hide FinishedTimes, StartedTimes, TurnTranscript;
    LogGrows(log, Started(Transcribing));
  }

  lemma FinishedIsLogged(plan: Plan, log: seq<Hook>, started: set<TaskStage>, reported: set<TaskStage>,
                         separated: set<nat>, diarized: set<nat>, stage: TaskStage, segments: seq<Segment>)
    requires Announced(plan, log, started, reported, separated, diarized)
    requires stage in {Separating, Diarizing} && stage !in reported
    requires stage == Diarizing ==> segments == TurnTranscript(plan.setup, Diarizations(plan))
    ensures Announced(plan, log + [Finished(stage, segments)], started, reported + {stage}, separated, diarized)
  {
    hide FinishedTimes, StartedTimes, TurnTranscript;
    LogGrows(log, Finished(stage, segments));
  }

  lemma AllAreCollected(next: nat, separated: set<nat>, diarized: set<nat>, transcribed: set<nat>,
                        futures: map<nat, Job>, issued: nat, owner: map<nat, nat>, n: nat)
    requires Owned(next, separated, diarized, transcribed, futures, issued, owner) && next <= n
    ensures |transcribed| <= |diarized| <= |separated| <= n
    ensures |diarized| == n ==> ExactlyBelow(diarized, n)
    ensures |transcribed| == n ==> ExactlyBelow(transcribed, n) && transcribed == diarized == separated
  {
    SetBelowIsSmall(separated, n);
    SetBelowIsSmall(diarized, n);
    SetBelowIsSmall(transcribed, n);
    SmallerSet(transcribed, diarized);
    SmallerSet(diarized, separated);
    if |transcribed| == n {
      assert separated <= transcribed;
    }
  }

  lemma FutureIsNew(next: nat, separated: set<nat>, diarized: set<nat>, transcribed: set<nat>,
                    futures: map<nat, Job>, issued: nat, owner: map<nat, nat>)
    requires Owned(next, separated, diarized, transcribed, futures, issued, owner)
    ensures issued !in futures
  {
  }
}
