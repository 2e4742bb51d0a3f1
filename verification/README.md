# Verified model of the podcast translator

The podcast translator takes a recording, separates voices from background, finds out who speaks
when, transcribes, translates, synthesizes each speaker in the target language, aligns the clips
with the original and mixes the result. This project models the parts of it whose correctness does
not show from reading one function, and proves what they are for.

- **Long audio.** A recording is cut into chunks with padded windows (`ChunkGeometry`). Chunks are
  separated, diarized and transcribed by a scheduler that keeps a bounded number of them in flight
  and takes results in any order (`ChunkScheduler`); it is proved to agree with the plain sequential
  run (`ChunkWork`, `ChunkAggregation`). Speakers of different chunks are reconciled into one cast
  (`SpeakerIdentity`), persisted translations are merged back after a resume (`ResumeMerge`), and
  every clip is cut along the chunks for mixing (`ChunkMixing`).
- **Timeline and batching.** `SpeakerAlignment` compares the fast overlap search with brute force,
  `Translation` and `TranslationResponse` translate against a provider that may do anything,
  `SynthUnits` merges segments greedily, `RateLimiter` spaces requests and `TemporalAlignment`
  schedules the dubbed clips.
- **Stages.** `StageChain` is the chain with its checkpoints, `Progress` the progress bands.
- **Tasks.** `TaskStore` is the task database as a state machine of committed transactions, with
  `StageRuns` for the ledger of attempts and `TaskQuota` for the quota. `TaskRuntime` holds the
  services that commit those transactions, `WorkerTask` the worker that calls them, `TaskLiveness`
  the lease in Redis. `StallReconciler` runs any number of reconciler passes against workers, keys
  and a clock, one command at a time; `AutoResume` and `OrderlyScans` say what its counters and its
  two looks are worth, over runs built in `StallScenarios`.

Times are real numbers, or whole seconds in the task modules. Machine learning, providers, storage
and the queue are functions, parameters or nondeterministic choices: a chunk's stages are functions
of the chunk, a provider is any function of the call number and the texts, and which futures are
done at a wait is arbitrary. A worker's effect on storage counts from the moment its result is
collected. Dictionaries that the code updates in place are fields holding values.

A sign of life is what makes a pass delete the suspicion: a heartbeat or fresh activity at its first
look, any of the three signals at the second, fresh activity of the locked row. A first look that
meets the worker's lock or the dispatch guard ends there and deletes nothing, so it is none.

Six properties hold only under a condition; each has a lemma with a run or an input on which it
fails, and one that says exactly when it holds.

- A segment centre has one owner exactly when the overlap is a second or more and the last core is
  no sliver (`ChunkGeometry.ExactOwnership`).
- The fast speaker search equals brute force exactly when no turn is hidden behind a shorter later
  one (`SpeakerAlignment.FastAlignmentIsExact`).
- Changed text forces the later stages to be redone exactly when the languages differ or no text
  lacks a translation: between equal languages nothing is marked, and a task that lost its
  translations but not the checkpoint of the synthesis restores the old clips
  (`StageChain.OldAudioIsExcludedExactlyWhen`, `StageChain.EqualLanguagesReuseOldAudio`).
- The quota keeps up with the charges exactly while no refunded task is charged again: a refund is
  not taken back when a failed task is completed after all (`TaskQuota.QuotaLeaksExactlyByRevival`,
  `TaskQuota.RevivedTaskIsFree`).
- A sign of life seen between the two looks of the reconciler is forgotten exactly when the pass
  that saw it has not deleted the suspicion by then, because it died or was overtaken
  (`OrderlyScans.SightingIsForgottenExactlyWhenOpen`, with a run of either kind).
- The cap on automatic resumes is kept, while dispatches get counted, exactly when every message is
  sent with room for it, and is exceeded when the reap lock expires under a slow pass and another takes it
  (`AutoResume.CapIsKeptExactlyWithRoom`, `AutoResume.LostReapLockOverspends`).

## Model

| member | source | states |
|---|---|---|
| ChunkGeometry.BuildChunks | podcast_translator/src/pipeline/long_audio.py:146-172 | Cuts a recording of any positive length into cores that are consecutive, non-empty and cover it from zero to its end |
| ChunkGeometry.CoresPartitionTime | podcast_translator/src/pipeline/long_audio.py:146-158 | An instant lies in some core exactly when it lies in the recording, and never in two |
| ChunkGeometry.WindowsMeetOnlyNeighbours | podcast_translator/src/pipeline/long_audio.py:146-158 | A padded window holds its core, stays inside the recording and meets only the windows next to it, by at most twice the overlap |
| ChunkGeometry.ExactOwnership | podcast_translator/src/pipeline/long_audio.py:968-975 | Every centre in the recording has exactly one owning chunk if and only if there is one chunk, or the overlap is at least a second and the last core at least a millisecond |
| ChunkGeometry.InexactOwnershipHasTwoOwners | podcast_translator/src/pipeline/long_audio.py:974-975 | Otherwise there is a centre that two chunks claim |
| ChunkGeometry.ClippingDropsOnlyBeyondCore | podcast_translator/src/pipeline/long_audio.py:977-993 | An accepted segment of positive length is lost to clipping exactly when it starts past the core, which only a chunk without right padding accepts |
| ChunkGeometry.SegmentComesOutOnce | podcast_translator/src/pipeline/long_audio.py:968-993 | With clean edges every segment of the recording is emitted by exactly one chunk, clipped to that core and never empty |
| ChunkGeometry.SegmentToGlobalEmits | podcast_translator/src/pipeline/long_audio.py:968-993 | What a chunk emits for a segment is the part of its time inside the core, under its mapped speaker and otherwise unchanged, exactly when the middle of the segment is the chunk's; at every instant |
| ChunkGeometry.OwnerHearsWholeSegment | podcast_translator/src/pipeline/long_audio.py:146-158 | The owner's padded window contains any segment no longer than twice the overlap |
| ChunkGeometry.ChunkOutputsAreDisjoint | podcast_translator/src/pipeline/long_audio.py:977-993 | What an earlier chunk emits ends before anything a later chunk emits starts |
| ChunkMixing.SelectVoices | podcast_translator/src/pipeline/long_audio.py:1048-1053 | The voices handed to the mixer are one per segment with a clip, in order: the last clip made for it, at its aligned times or else the segment's |
| ChunkMixing.MixChunks | podcast_translator/src/pipeline/long_audio.py:1044-1162 | A chunk gets, from each voice that reaches into its core and no other, in order, one piece: from that voice's file, exactly the part inside the core, delayed to its place to within half a millisecond |
| ChunkMixing.MixedPiecesAddUp | podcast_translator/src/pipeline/long_audio.py:1150-1162 | Over the pieces handed to the mixer for all chunks, each voice plays as long as its span inside the recording lasts |
| ChunkMixing.MixedPiecesAreConsecutive | podcast_translator/src/pipeline/long_audio.py:1150-1162 | and each piece starts in its file where the pieces in earlier chunks stopped |
| ChunkMixing.MixedVoiceIsHeardInPlace | podcast_translator/src/pipeline/long_audio.py:1150-1162 | and is heard at every instant of its span and at no other, at the right position of its file, to within the half millisecond of rounding |
| ChunkMixing.PiecesAddUp | podcast_translator/src/pipeline/long_audio.py:1150-1162 | Over all chunks the pieces of a clip sum to the part of its aligned span inside the recording |
| ChunkMixing.PiecesAreConsecutive | podcast_translator/src/pipeline/long_audio.py:1150-1162 | Each piece begins in the clip where the pieces of the earlier chunks ended |
| ChunkMixing.PieceLandsInPlace | podcast_translator/src/pipeline/long_audio.py:1150-1162 | A piece sounds at its aligned start plus its trim, to within half a millisecond of rounding |
| ChunkMixing.ClipIsHeardOnceInPlace | podcast_translator/src/pipeline/long_audio.py:1150-1162 | At every instant of the recording a clip sounds exactly when the instant is in its span, in one chunk only, and at the right position |
| ChunkMixing.OneVoiceAtATime | podcast_translator/src/pipeline/long_audio.py:1048-1162 | No instant of the output carries two dubbed clips |
| ChunkMixing.EveryAlignedClipHasAVoice | podcast_translator/src/pipeline/long_audio.py:1048-1053 | No aligned clip is lost on the way to the mixer when segment ids are distinct |
| SpeakerIdentity.GlobalSpeakerCap | podcast_translator/src/pipeline/long_audio.py:819-826 | The cap is the configured count where it is 1 to 4, else 4, even when the setting is rejected |
| SpeakerIdentity.SpeakerRegistry.FindMatching | podcast_translator/src/pipeline/long_audio.py:906-950 | The match is the first best voice print over the threshold, or the nearest pitch within tolerance, or the first of unknown pitch; none exactly when no speaker qualifies |
| SpeakerIdentity.MatchIsUnique | podcast_translator/src/pipeline/long_audio.py:906-950 | That description determines the match |
| SpeakerIdentity.SimilarityIsCosine | podcast_translator/src/pipeline/long_audio.py:952-965 | The similarity of two prints times their lengths is their inner product |
| SpeakerIdentity.VoiceMatchIsBest | podcast_translator/src/pipeline/long_audio.py:915-933 | A speaker found by voice print is unused and at least 0.75 alike, the first of the most alike; none is found exactly when no unused speaker is that alike |
| SpeakerIdentity.PitchMatchIsNearest | podcast_translator/src/pipeline/long_audio.py:935-950 | A speaker found without a print is unused and never of the other known gender; within 35 Hz and the nearest, or, when nobody is within 35 Hz, the first whose pitch cannot be compared |
| SpeakerIdentity.NoPitchMatch | podcast_translator/src/pipeline/long_audio.py:935-950 | and none is found exactly when every unused speaker of a fitting gender is known to be further off |
| SpeakerIdentity.UnmatchedVoice | podcast_translator/src/pipeline/long_audio.py:848-873 | A voice nobody matches becomes the next speaker with its own gender, pitch, clip and print while there is room; then the first speaker unused by the chunk stands in, or the first of all, and nobody changes |
| SpeakerIdentity.MatchedVoice | podcast_translator/src/pipeline/long_audio.py:874-904 | A matched voice changes that speaker only: a missing clip is taken over, and the print becomes, up to length, the mean of all prints it stands for |
| SpeakerIdentity.OwnPrintMatches | podcast_translator/src/pipeline/long_audio.py:919-933 | While some unused speaker carries a voice's own print, the voice is matched |
| SpeakerIdentity.MeanIsWeighted | podcast_translator/src/pipeline/long_audio.py:892-904 | Averaging in a new print gives the earlier ones the weight of all they stand for |
| SpeakerIdentity.ScaledToLengthOne | podcast_translator/src/pipeline/long_audio.py:902-904 | The averaged print has length one again, for an exact square root |
| SpeakerIdentity.SpeakerRegistry.MapChunkSpeakers | podcast_translator/src/pipeline/long_audio.py:836-882 | The loop over a chunk's speakers computes the left fold of one assignment per speaker |
| SpeakerIdentity.MappingIsSound | podcast_translator/src/pipeline/long_audio.py:836-882 | A chunk leaves the cast numbered from SPEAKER_00 without gap and within the cap, changes nobody's identity, and maps exactly its own local ids, each to an existing speaker |
| SpeakerIdentity.CastStaysNumbered | podcast_translator/src/pipeline/long_audio.py:836-882 | The same after any number of chunks; whoever is in the cast stays the same person in all later chunks |
| SpeakerIdentity.VoicesStayApartExactlyUpToCap | podcast_translator/src/pipeline/long_audio.py:856-878 | With distinct local ids, voices of one chunk are kept apart if and only if there are no more of them than the cap |
| SpeakerIdentity.FirstChunkFoundsTheCast | podcast_translator/src/pipeline/long_audio.py:848-868 | Up to the cap every voice of the first chunk becomes a speaker of its own, in order |
| ChunkAggregation.SortingSorts | podcast_translator/src/pipeline/long_audio.py:574 | The stitched segments come out in order of start and end |
| ChunkAggregation.SortingIsStable | podcast_translator/src/pipeline/long_audio.py:574 | None is lost or invented and segments with equal times keep their order |
| ChunkAggregation.MostCommonLanguage | podcast_translator/src/pipeline/long_audio.py:600 | The language is the first heard among those heard in most chunks |
| ChunkAggregation.SegmentsNameKnownSpeakers | podcast_translator/src/pipeline/long_audio.py:556-601 | A segment of an announced speaker names a member of the final cast, however many chunks follow |
| ChunkWork.DiarizeChunks | podcast_translator/src/pipeline/long_audio.py:709-756 | The sequential diarization succeeds exactly when every chunk does, and gives the sorted turns and the folded cast |
| ChunkWork.TranscribeChunks | podcast_translator/src/pipeline/long_audio.py:758-817 | The sequential transcription succeeds exactly when every chunk does, and gives the sorted words, the folded cast and the majority language |
| ChunkWork.RunSequentially | podcast_translator/src/pipeline/long_audio.py:647-817 | The plain run: the specification the concurrent one is compared with |
| ChunkWork.TranscriptHoldsTheSpokenWords | podcast_translator/src/pipeline/long_audio.py:576-601 | The final transcript holds every segment with words that some chunk emits, each once and no other, in order of start and end, and of chunk and place where those are equal |
| ChunkWork.TranscriptHoldsTheTurns | podcast_translator/src/pipeline/long_audio.py:556-574 | The same of the turns persisted when diarization is finished, with or without words |
| ChunkWork.TranscriptIsInTheMainLanguage | podcast_translator/src/pipeline/long_audio.py:592-600 | No language was detected in more chunks than the run's, and one detected in as many was heard later; there is none exactly when no chunk detected any |
| ChunkWork.InvalidatedPayloadsAreIgnored | podcast_translator/src/pipeline/long_audio.py:495-554 | Once both stages are to be redone, nothing in storage makes any difference to the result |
| ChunkWork.StoredPayloadsAreReused | podcast_translator/src/pipeline/long_audio.py:495-554 | and over complete storage that still counts the models make none |
| ChunkWork.ChunkStore.EnsureDiarized | podcast_translator/src/pipeline/long_audio.py:495-522 | A stored payload that still counts is used, otherwise the result is computed and stored; other chunks' payloads are untouched |
| ChunkWork.ChunkStore.EnsureTranscribed | podcast_translator/src/pipeline/long_audio.py:524-554 | The same for transcriptions |
| ChunkWork.AggregateDiarizations | podcast_translator/src/pipeline/long_audio.py:556-574 | Aggregating in memory gives the sequential turns and cast |
| ChunkWork.AggregateTranscriptions | podcast_translator/src/pipeline/long_audio.py:576-601 | Aggregating with the diarizations read back from storage gives the sequential transcript and the same cast |
| ChunkScheduler.FrontHalf.Run | podcast_translator/src/pipeline/long_audio.py:174-394 | For any number of chunks, any bound and any order of completion: terminates; succeeds if and only if the sequential run does; leaves the same transcript, cast and language, merged with the persisted segments; announces each stage's start and end once; later stages end up invalidated as they should |
| ChunkScheduler.FrontHalf.InFlightIsBounded | podcast_translator/src/pipeline/long_audio.py:265-270 | There are never more futures than the bound, and exactly as many while chunks wait |
| ChunkScheduler.FuturesAreCounted | podcast_translator/src/pipeline/long_audio.py:252-394 | Futures and unfinished submitted chunks correspond one to one |
| ChunkScheduler.LaterStagesAreOutdated | podcast_translator/src/pipeline/long_audio.py:184-222 | Redoing a front-half stage marks exactly the stages after it |
| ChunkScheduler.FrontHalf.Collect | podcast_translator/src/pipeline/long_audio.py:280-375 | One result leaves one stage less to do, keeps every invariant and touches nobody else's future; a failure means the sequential run fails too |
| ChunkScheduler.FrontHalf.ReportCompletions | podcast_translator/src/pipeline/long_audio.py:350-375 | Separation and diarization are each persisted as soon as, and only when, their last chunk is done; the turns persisted are those of the sequential run |
| ResumeMerge.MergePersistedSegmentFields | podcast_translator/src/pipeline/long_audio.py:995-1042 | Both paths of the merge compute one function of the two lists |
| ResumeMerge.LinedUpTakesByPlace | podcast_translator/src/pipeline/long_audio.py:995-1007 | Lists that line up to a twentieth of a second are merged place by place, every missing field from the persisted segment there |
| ResumeMerge.TwinGivesFieldsBack | podcast_translator/src/pipeline/long_audio.py:1009-1042 | Otherwise a segment takes what it lacks from the persisted one with its times and speaker, provided none before that is within a tenth of a second |
| ResumeMerge.FieldsComeFromNearby | podcast_translator/src/pipeline/long_audio.py:995-1042 | Whatever is filled in comes from a persisted segment of the same speaker within a tenth of a second |
| ResumeMerge.MergeOnlyFillsGaps | podcast_translator/src/pipeline/long_audio.py:1034-1042 | Times, speaker and text stay, nothing present is replaced, and a new translation comes from a matching segment |
| ResumeMerge.MergeIsIdempotent | podcast_translator/src/pipeline/long_audio.py:995-1042 | Merging the same persisted list again changes nothing |
| ResumeMerge.MergeRestoresLostFields | podcast_translator/src/pipeline/long_audio.py:995-1042 | A list stripped of its resume fields gets them all back from its own copy |
| SpeakerAlignment.AlignWhisperToDiarization | podcast_translator/src/pipeline/stages/s3_asr_transcription.py:27-93 | Every sentence keeps its times and text and gets the speaker of a turn that overlaps it, or UNKNOWN; where no turn is hidden, that of a turn that overlaps it most among all, with the tie broken as the scans do, and UNKNOWN when none overlaps |
| SpeakerAlignment.SortSorts | podcast_translator/src/pipeline/stages/s3_asr_transcription.py:47-50 | The turns are put in order of start and none is lost |
| SpeakerAlignment.SortIsStable | podcast_translator/src/pipeline/stages/s3_asr_transcription.py:47-50 | Turns with equal starts stay in the order they came in |
| SpeakerAlignment.FastAlignmentIsExact | podcast_translator/src/pipeline/stages/s3_asr_transcription.py:52-93 | Over turns of positive length the scans agree with brute force on every sentence of positive length if and only if no turn is hidden behind a shorter later one |
| SpeakerAlignment.HiddenTurnIsMissed | podcast_translator/src/pipeline/stages/s3_asr_transcription.py:56-75 | A hidden turn is missed by a sentence that can be named |
| SpeakerAlignment.OrderedEndsSuffice | podcast_translator/src/pipeline/stages/s3_asr_transcription.py:27-93 | When ends are in order too the label is a maximal overlap, and UNKNOWN exactly when nothing overlaps |
| SpeakerAlignment.ScansAreShort | podcast_translator/src/pipeline/stages/s3_asr_transcription.py:62-93 | The scans look at the overlapping turns and at most two more |
| Translation.CallsAreBounded | podcast_translator/src/pipeline/stages/s4_translation.py:284-367 | Whatever the provider does, n texts cost at most 3(2n - 1) calls |
| Translation.SuccessIsAcceptable | podcast_translator/src/pipeline/stages/s4_translation.py:266-367 | On success there is one validated translation per text, in order, however the batch was split |
| Translation.LastCallDecides | podcast_translator/src/pipeline/stages/s4_translation.py:284-367 | A batch that does not succeed ends with its last call: paused by a permanent error or by a transient one on a single text, failed by anything else on a single text |
| Translation.PermanentErrorStopsTheRun | podcast_translator/src/pipeline/stages/s4_translation.py:284-338 | A permanent error pauses the run after that one call |
| Translation.SinglesSuffice | podcast_translator/src/pipeline/stages/s4_translation.py:340-367 | A provider that answers single texts within three attempts makes every batch succeed |
| Translation.TranslationClient.TranslateNonEmptyTexts | podcast_translator/src/pipeline/stages/s4_translation.py:284-367 | Retry loop and recursion compute the specified run, call for call |
| Translation.TranslationClient.TranslateBatch | podcast_translator/src/pipeline/stages/s4_translation.py:369-391 | Results land at the positions of the non-blank texts, blanks stay empty, all pass validation, within the call bound; what ended an unsuccessful batch decides between pausing and failing |
| Translation.TranslationStage.TranslateSegmentList | podcast_translator/src/pipeline/stages/s4_translation.py:430-489 | On success every segment is settled; on failure each is settled or untouched, and the last call decides between pausing and failing; nothing pending means no call and no change |
| Translation.TranslationStage.Process | podcast_translator/src/pipeline/stages/s4_translation.py:491-530 | Afterwards every segment with text has a translation that is not suspect; between different languages those that had one are untouched, and changed text, and only that, discards clips and output and marks the three later stages; between equal ones the text becomes the translation and nothing is marked |
| Translation.PendingMeansChanged | podcast_translator/src/pipeline/stages/s4_translation.py:491-530 | Between different languages a finished run changes some translation exactly when a segment needed one |
| Translation.NewTextIsMarkedExactlyWhen | podcast_translator/src/pipeline/stages/s4_translation.py:499-508 | On a context without the marks, changed text brings them if and only if the languages differ or every translation already was its text |
| Translation.TranslationStage.TranslateSegments | podcast_translator/src/pipeline/stages/s4_translation.py:393-428 | The overlap path settles the same segments and changes nothing else in the context |
| Translation.SettledNeedsNothing | podcast_translator/src/pipeline/stages/s4_translation.py:78-83 | A settled segment no longer needs translation |
| Translation.SecondRunIsFree | podcast_translator/src/pipeline/stages/s4_translation.py:430-489 | After a successful run nothing is pending |
| TranslationResponse.ParseTranslationResponse | podcast_translator/src/pipeline/stages/s4_translation.py:200-243 | Succeeds exactly on usable answers, ids in digits of any script included, and puts each text at the position its id names |
| TranslationResponse.OrderOfObjectsIsIrrelevant | podcast_translator/src/pipeline/stages/s4_translation.py:212-243 | The order of the objects in an answer matters neither to its being usable nor to the texts it gives |
| TranslationResponse.AskedForAnswerIsUnderstood | podcast_translator/src/pipeline/stages/s4_translation.py:200-243 | An answer that gives each text its number, under either of the accepted keys and with ids as numbers or digits, parses to exactly those texts |
| SynthUnits.BuildSynthUnits | podcast_translator/src/pipeline/stages/s5_voice_clone_tts.py:721-761 | The units take every segment with a translation once and in order; each has its segments' one speaker, the stripped translations joined by a space and the outer times, and joins several only within the gap and length limits |
| SynthUnits.UnitsAreValid | podcast_translator/src/pipeline/stages/s5_voice_clone_tts.py:721-761 | The units' segment ids concatenate to the spoken segments in order; every unit is one speaker within the gap and length limits, with the joined text and outer times |
| SynthUnits.GreedyStaysAhead | podcast_translator/src/pipeline/stages/s5_voice_clone_tts.py:735-752 | At every point the greedy units are at most as many as any valid division has, and on a tie the open unit is no longer |
| SynthUnits.FewestUnits | podcast_translator/src/pipeline/stages/s5_voice_clone_tts.py:721-761 | With starts in order, as the pipeline delivers them, no division into valid runs has fewer units |
| SynthUnits.UnorderedStartsCanCostAUnit | podcast_translator/src/pipeline/stages/s5_voice_clone_tts.py:735-752 | An illustration of why the order matters: a script with unordered starts on which greed costs a unit |
| RateLimiter.TokenBucketRateLimiter.ServeAll | podcast_translator/src/pipeline/stages/s5_voice_clone_tts.py:63-75 | Callers served one after another are granted the specified times |
| RateLimiter.GrantRecurrence | podcast_translator/src/pipeline/stages/s5_voice_clone_tts.py:69-75 | A grant is the later of the arrival and the previous grant plus the interval |
| RateLimiter.GrantsAreSpaced | podcast_translator/src/pipeline/stages/s5_voice_clone_tts.py:69-75 | Grants are at least the interval apart, over any distance |
| RateLimiter.WindowHoldsFewGrants | podcast_translator/src/pipeline/stages/s5_voice_clone_tts.py:69-75 | A window of width T holds at most floor(T / interval) + 1 grants |
| RateLimiter.GrantsAreEarliest | podcast_translator/src/pipeline/stages/s5_voice_clone_tts.py:69-75 | No schedule that keeps the spacing serves any caller earlier |
| TemporalAlignment.AlignmentStage.Process | podcast_translator/src/pipeline/stages/s6_temporal_alignment.py:59-146 | The cursor loop writes the specified times into each clip, and fails exactly without clips or segments |
| TemporalAlignment.AlignedClipIsFitted | podcast_translator/src/pipeline/stages/s6_temporal_alignment.py:86-141 | A clip in the output keeps its length and file, unless it is longer than its span by at most 30%, when it is the stretched file and fits; it ends where start and length say |
| TemporalAlignment.OutputIsPlayable | podcast_translator/src/pipeline/stages/s6_temporal_alignment.py:97-141 | The aligned starts in the output come no earlier than the sentences and never over an earlier clip |
| TemporalAlignment.OutputIsEarliest | podcast_translator/src/pipeline/stages/s6_temporal_alignment.py:97-141 | and no other such starts are earlier for any clip |
| TemporalAlignment.FinalDurationFits | podcast_translator/src/pipeline/stages/s6_temporal_alignment.py:93-132 | A clip is sped up exactly when at most 30% makes it fit, and outlasts its span exactly when that would not |
| TemporalAlignment.StartIsMaxPlus | podcast_translator/src/pipeline/stages/s6_temporal_alignment.py:97-135 | A start is the largest, over earlier clips, of original start plus everything played since |
| TemporalAlignment.ScheduleIsLegal | podcast_translator/src/pipeline/stages/s6_temporal_alignment.py:97-135 | The schedule never starts a clip early or over its predecessor |
| TemporalAlignment.ScheduleIsEarliest | podcast_translator/src/pipeline/stages/s6_temporal_alignment.py:97-135 | and no legal schedule starts any clip earlier |
| TemporalAlignment.DriftIsBoundedByExcess | podcast_translator/src/pipeline/stages/s6_temporal_alignment.py:93-135 | Over disjoint ordered originals a clip is late by at most the summed excess of earlier overlong clips, so on time without any |
| TemporalAlignment.AlignedClipsAreDisjoint | podcast_translator/src/pipeline/stages/s6_temporal_alignment.py:75-141 | The aligned clips in the output are ordered and disjoint and none precedes its sentence |
| TemporalAlignment.AtempoChain | podcast_translator/src/pipeline/stages/s6_temporal_alignment.py:22-43 | The factors are each supported and multiply to the clamped ratio |
| TemporalAlignment.AtempoChainIsShortest | podcast_translator/src/pipeline/stages/s6_temporal_alignment.py:22-43 | No chain of supported factors with that product is shorter |
| Progress.BuildBands | podcast_translator/src/pipeline/progress.py:35-69 | The rounded bands abut, do not run backwards and go from 2 to 100 |
| Progress.CursorEndsAtSpanEnd | podcast_translator/src/pipeline/progress.py:53-62 | The unrounded shares add up to the whole span |
| Progress.BandsComeFromFactors | podcast_translator/src/pipeline/progress.py:35-69 | The bands of the actual stages are those the factors give |
| Progress.OverallProgressIsMonotone | podcast_translator/src/pipeline/progress.py:76-80 | More of a stage is never less of the task |
| Progress.RoundTripUnderAnyRounding | podcast_translator/src/pipeline/progress.py:76-90 | For bands of 1 to 99 points, overall to stage to overall is the identity under any rounding within one half |
| Progress.OverallRoundTrip | podcast_translator/src/pipeline/progress.py:76-90 | So it is for every point of every stage's band |
| StageChain.ApplyContextDict | podcast_translator/src/pipeline/checkpoint.py:42-49 | The field loop overwrites exactly the fields present |
| StageChain.SavedContextComesBack | podcast_translator/src/pipeline/checkpoint.py:36-49 | Saving and loading a context gives it back, except for the user of the loading task |
| StageChain.FieldsComeFromData | podcast_translator/src/pipeline/checkpoint.py:42-49 | Each field is taken from the data where the data has it and left alone where not |
| StageChain.StageProcessor.Execute | podcast_translator/src/pipeline/base_stage.py:19-39 | The linked processors make the specified run, with the specified checkpoints and restore decisions |
| StageChain.TaskRun.RestoreCompletedStage | podcast_translator/src/pipeline/base_stage.py:58-77 | An invalidated stage is never restored; a rejected checkpoint has already replaced the context |
| StageChain.WhatAStageDoes | podcast_translator/src/pipeline/base_stage.py:19-77 | Which context a stage works on and whether it works: marked, accepted checkpoint, rejected checkpoint, artifacts, or none of these |
| StageChain.EveryStageIsSaved | podcast_translator/src/pipeline/base_stage.py:19-39 | A run that gets to its end leaves a checkpoint of every stage |
| StageChain.FinishedRunIsRestored | podcast_translator/src/pipeline/base_stage.py:19-77 | and over those a second run on the same input processes nothing and ends in the same context |
| StageChain.BuildChain | podcast_translator/src/pipeline/orchestrator.py:28-60 | The chain is the blueprint from the start stage on, and fails exactly when the blueprint lacks it |
| StageChain.RerunFollowsTrace | podcast_translator/src/pipeline/base_stage.py:19-77 | Over any surviving checkpoints a re-run passes through the contexts of the uninterrupted run, and stops right before the first paused stage if there is one |
| StageChain.EveryRerunEndsTheSame | podcast_translator/src/pipeline/base_stage.py:19-77 | After any number of interrupted attempts and any loss of checkpoints, the attempt that gets through ends where an uninterrupted run ends |
| StageChain.ChangedTextIsNeverMixedWithOldAudio | podcast_translator/src/pipeline/stages/s4_translation.py:516-527 | Between different languages, when translating changes text, every later stage of that run is processed, not restored, whatever checkpoints and artifacts there are |
| StageChain.EqualLanguagesReuseOldAudio | podcast_translator/src/pipeline/stages/s4_translation.py:499-508 | Between equal languages a task with untranslated text and a surviving checkpoint of the next stage gets new text and restores that stage: a run built from any such context |
| StageChain.OldAudioIsExcludedExactlyWhen | podcast_translator/src/pipeline/stages/s4_translation.py:491-530 | For a task without translation checkpoint or marks: changed text forces every later stage to be redone, over all surviving checkpoints, if and only if the languages differ or no text lacks a translation |
| StageChain.RestoredTranslationRedoesTheRest | podcast_translator/src/pipeline/base_stage.py:19-77 | The marks are part of the checkpoint: restoring such a translation redoes everything after it again |
| TaskLiveness.OwnerTokenIsInjective | podcast_translator/src/workers/task_liveness.py:22-23 | Different generations or deliveries never share an owner token |
| TaskLiveness.KeysAreDistinct | podcast_translator/src/workers/task_liveness.py:10-15 | Different tasks never share a key and a lock is never a heartbeat |
| TaskLiveness.Redis.AcquireTaskOwnership | podcast_translator/src/workers/task_liveness.py:50-54 | Succeeds exactly on a free lock |
| TaskLiveness.Redis.RefreshTaskOwnership | podcast_translator/src/workers/task_liveness.py:26-33 | Renews both keys exactly for the lock's holder, and otherwise changes nothing |
| TaskLiveness.Redis.ReleaseTaskOwnership | podcast_translator/src/workers/task_liveness.py:35-47 | Removes each key only if it is the owner's |
| TaskLiveness.LeaseSurvivesOthers | podcast_translator/src/workers/task_liveness.py:26-47 | Under any commands of other owners, for any tasks, a lease stays held with the lifetimes its owner gave it until its keys expire |
| TaskLiveness.LostLeaseTouchesNothing | podcast_translator/src/workers/task_liveness.py:26-47 | Refresh and release by a worker holding neither key change nothing |
| TaskLiveness.HeartbeatNeedsLock | podcast_translator/src/workers/task_liveness.py:26-33 | A heartbeat is only written by the holder of the lock |
| StageRuns.StageRunTable.MarkFinished | podcast_translator/src/services/task_runtime_service.py:830-844 | Finishing closes the active attempt, opening one first when there is none |
| StageRuns.BegunIsSound | podcast_translator/src/services/task_runtime_service.py:782-802 | Starting keeps attempts numbered 1 to n with at most the last unfinished, and rewrites nothing finished |
| StageRuns.ClosedIsSound | podcast_translator/src/services/task_runtime_service.py:830-844 | So does finishing, after which no attempt is open |
| StageRuns.CountedIsSound | podcast_translator/src/services/task_runtime_service.py:804-828 | So does counting items |
| StageRuns.BegunEnds | podcast_translator/src/services/task_runtime_service.py:782-802 | Starting leaves an open attempt as it is, or adds one with the next number that starts now |
| StageRuns.CountedEnds | podcast_translator/src/services/task_runtime_service.py:804-828 | Counting sets what was reported of the current attempt and nothing else |
| StageRuns.ClosedEnds | podcast_translator/src/services/task_runtime_service.py:830-844 | Finishing gives the current attempt its status, time and error code and touches no other |
| TaskStore.TruncateError | podcast_translator/src/services/task_runtime_service.py:34-43 | A stored message is at most 1000 characters, and unchanged exactly when it was |
| TaskStore.ReplayIsSound | podcast_translator/src/services/task_runtime_service.py:218-484 | Over any history every task keeps progress within 0 to 100 and a sound ledger, and ids are never reused |
| TaskStore.TasksOnlyGrow | podcast_translator/src/services/task_runtime_service.py:218-484 | Over any history a task's generation and progress never fall and no finished stage run is reopened or rewritten |
| TaskStore.LedgerStaysSound | podcast_translator/src/services/task_runtime_service.py:782-857 | In every reachable state attempts are exactly 1 to n and only attempt n may be unfinished |
| TaskStore.ContentIsLastStored | podcast_translator/src/services/task_runtime_service.py:379-448 | Over any history a task holds the segments and speakers of the last transaction that stored any, and the last language known to one |
| TaskStore.SupersededWorkersChangeNothing | podcast_translator/src/services/task_runtime_service.py:78-86 | Once a task is past generation g, every history ends in the same database as without the transactions of workers of generation g or older |
| TaskStore.NewGenerationMovesPast | podcast_translator/src/services/task_service.py:309-325 | A resume of a paused task and a confirmed stall each move the task past its old generation |
| TaskQuota.BalanceMovesByDrift | podcast_translator/src/services/quota_service.py:20-39 | Apart from a drift known beforehand, a transaction moves the quota in use exactly as it moves what the user is charged for |
| TaskQuota.RefundMeansNewlyFailed | podcast_translator/src/services/task_runtime_service.py:705-713 | A worker's transaction lowers the quota in use exactly when it takes a task from a status that is not final into failed |
| TaskQuota.QuotaIsConserved | podcast_translator/src/services/task_service.py:83-154 | In histories that never revive a failed task, quota in use is the start value plus what was charged minus what failed |
| TaskQuota.QuotaLeaksExactlyByRevival | podcast_translator/src/services/task_service.py:83-154 | At every step of a history quota in use keeps up with what is charged, if and only if no step charges again for a refunded task or refunds one that stays |
| TaskQuota.RevivedTaskIsFree | podcast_translator/src/services/task_runtime_service.py:226-246 | Reprocessing a failed task by force and completing it leaves its refund in place: a concrete history |
| TaskRuntime.TaskRuntimeService.MarkTaskProcessing | podcast_translator/src/services/task_runtime_service.py:218-246 | A final task is taken up only by force, which drops its output; the row changes in exactly the fields named and progress not at all; a stale generation changes nothing |
| TaskRuntime.TaskRuntimeService.MarkStageStarted | podcast_translator/src/services/task_runtime_service.py:248-273 | On a task that is not blocked, an attempt is opened unless one is open and progress rises at least to the stage's start; nothing else of the task or the database differs; when blocked or stale, nothing at all |
| TaskRuntime.TaskRuntimeService.MarkStageProgress | podcast_translator/src/services/task_runtime_service.py:275-297 | On a task that is not blocked, progress rises to the stage's point of its band and never falls; otherwise, or when stale, nothing changes |
| TaskRuntime.TaskRuntimeService.MarkStageCompleted | podcast_translator/src/services/task_runtime_service.py:299-312 | On a task that is not blocked, the current attempt is closed as completed now and nothing else differs; when blocked or stale, nothing at all |
| TaskRuntime.TaskRuntimeService.MarkStageItemsProgress | podcast_translator/src/services/task_runtime_service.py:314-352 | On a task that is not blocked, the items of the open attempt are set, leaving out what was not reported; otherwise, or when stale, nothing changes |
| TaskRuntime.TaskRuntimeService.MarkAudioPrepared | podcast_translator/src/services/task_runtime_service.py:354-377 | A worker cannot set the duration of a blocked task, an unfenced caller can; a stale generation changes nothing |
| TaskRuntime.TaskRuntimeService.PersistPipelineState | podcast_translator/src/services/task_runtime_service.py:379-448 | With something to persist and a current generation, the row holds exactly those segments and speakers and the language if known, and nothing else differs; with nothing to persist a stale generation goes unnoticed |
| TaskRuntime.TaskRuntimeService.MarkCompleted | podcast_translator/src/services/task_runtime_service.py:450-484 | A current task that is not completed is completed with that content and output at 100 percent, loses its keys, and its source when it is cleaned up; a completed one only takes the content |
| TaskRuntime.TaskRuntimeService.MarkFailed | podcast_translator/src/services/task_runtime_service.py:696-737 | A current task that is not final fails with its reason and closed attempt, one unit is refunded and the keys go; otherwise nothing changes |
| TaskRuntime.TaskRuntimeService.MarkPaused | podcast_translator/src/services/task_runtime_service.py:739-780 | A current task that is not final is paused with its reason and closed attempt, keeps its source, content and quota, and the keys go; otherwise nothing changes |
| TaskRuntime.TaskService.CreateTask | podcast_translator/src/services/task_service.py:74-156 | Exactly which outcome, with its exact effect: a created task is pending from zero; a failed upload or dispatch leaves users and tasks as they were, unless removing the row fails too |
| TaskRuntime.TaskService.ResumeTask | podcast_translator/src/services/task_service.py:264-356 | Only a paused task with a source is resumed; its keys go, its generation rises by one, it is pending, or paused again with a message when the queue is down, and otherwise as it was |
| TaskRuntime.TaskService.RequestPause | podcast_translator/src/services/task_service.py:201-221 | Only leaves a flag, and only on a pending or processing task |
| TaskRuntime.TaskService.RaiseIfUserPaused | podcast_translator/src/pipeline/pause.py:19-41 | The flag is seen once and taken down |
| TaskRuntime.TaskService.DeleteTask | podcast_translator/src/services/task_service.py:223-262 | Refused while running; otherwise row and keys go |
| StallReconciler.BumpsAreConfirmedTwice | podcast_translator/src/services/task_runtime_service.py:548-652 | In every interleaving of passes, workers, key losses and clock, a generation is bumped only on an undeleted suspicion from a stale look at least the confirmation window earlier, with all three signals absent again, on a row inactive for the stall timeout |
| StallReconciler.BumpLocksStalledRow | podcast_translator/src/services/task_runtime_service.py:615-652 | The bump is the transaction of a row found processing and stale under its lock, and adds one to its generation only |
| StallReconciler.FenceHoldsWithoutRedis | podcast_translator/src/services/task_runtime_service.py:78-86 | Whatever happens to the keys, past generation g a run of the system leaves the database it would leave without those workers |
| StallReconciler.RunIsReplay | podcast_translator/src/services/task_runtime_service.py:548-690 | A run of the system is a history of the task database |
| StallReconciler.Reconciler.ReconcileIfStalled | podcast_translator/src/services/task_runtime_service.py:529-690 | An undisturbed pass acts if and only if the task is found stalled twice; then it is failed with its refund, or queued once more under a new generation |
| StallScenarios.LonePassReconciles | podcast_translator/src/services/task_runtime_service.py:529-690 | A pass of the system that is left alone does the same: it acts under the same condition and leaves the same database and keys |
| OrderlyScans.SightingsArePursued | podcast_translator/src/services/task_runtime_service.py:560-626 | In every run a pass that finds a sign of life goes on to delete the suspicion, or died before it could, or is just about to |
| OrderlyScans.SightingIsForgottenExactlyWhenOpen | podcast_translator/src/services/task_runtime_service.py:575-601 | When a suspicion is confirmed, some pass has seen a sign of life since it was recorded if and only if one that has is still about to delete it or has died before it could |
| OrderlyScans.NobodySawLife | podcast_translator/src/services/task_runtime_service.py:560-626 | When no pass confirms a suspicion while another is just about to delete it, and none dies there, no pass saw a sign of life between the two looks; scans may overlap otherwise |
| OrderlyScans.SightingIsForgotten | podcast_translator/src/services/task_runtime_service.py:560-626 | A pass that sees the heartbeat and dies is forgotten: from any initial state with a silent task, a run that ends in a bump |
| OrderlyScans.SightingIsOvertaken | podcast_translator/src/services/task_runtime_service.py:560-626 | So is a pass that the next one overtakes before it deletes the suspicion, with nobody dying but the worker |
| AutoResume.AutoResumesAreBounded | podcast_translator/src/services/task_runtime_service.py:630-690 | Between two resets of the counter there are at most as many re-dispatches as the cap, while no pass reads the counter in order to dispatch between the reading and the counting of another, and dispatches get counted |
| AutoResume.NextStallFails | podcast_translator/src/services/task_runtime_service.py:630-645 | With the cap used up the next confirmed stall fails the task under the new generation |
| AutoResume.ExclusiveReapIsSafe | podcast_translator/src/services/task_runtime_service.py:586-594 | Enough for that is a reap lock that is never taken while a pass still relies on having taken it; it may expire under its holder |
| AutoResume.AccountsAgree | podcast_translator/src/services/task_runtime_service.py:647-690 | While every dispatch gets counted, the dispatches since the last reset are the counter plus those sent and not yet counted |
| AutoResume.CapIsKeptExactlyWithRoom | podcast_translator/src/services/task_runtime_service.py:630-690 | In such a run the cap is kept throughout if and only if every message was sent with room in the counter and the dispatches still to be counted |
| AutoResume.LostReapLockOverspends | podcast_translator/src/services/task_runtime_service.py:586-594 | When the reap lock expires under a slow pass and another takes it, one dispatch too many is made, for every cap: a run from any initial state with a silent task |
| WorkerTask.ResolveResumeStage | podcast_translator/src/workers/tasks.py:45-59 | A task resumes where it stopped, but never before separation |
| WorkerTask.ResumableMessages | podcast_translator/src/workers/tasks.py:35-42 | A failure can be resumed exactly when its message contains one of the two markers |
| WorkerTask.PipelineWorker.RunPipelineTask | podcast_translator/src/workers/tasks.py:444-692 | A stale or duplicate delivery writes nothing and leaves the lease alone, nor does one that finds the task gone on, finished or paused at its second look; any other writes only under its own generation, whatever others commit between its calls. One that gets to its end took the task up, by force exactly when it resumes, wrote its hooks' steps in order, and recorded the end: completed with the output, paused with the reason, or failed with one refund |
| WorkerTask.PipelineWorker.Work | podcast_translator/src/workers/tasks.py:62-198 | The hooks' steps and what others commit are the history, in order, up to the end or to the first write after the lease or the generation is lost |
| WorkerTask.OvertakenDeliveryIsHarmless | podcast_translator/src/workers/tasks.py:455-471 | From the moment the task is past its generation, the rest of the history a delivery records comes to the same without its own writes, but for the source of a task it completed |

## Left out

- Storage, ffmpeg, the models, the language and voice providers, JSON text and the event loop: their results are parameters, and a payload read back from storage is the one that was written.
- Chunk objects in storage other than the two payloads: source, vocal and mixed files are part of whether a stage succeeds.
- Translating chunks while the front half is still running: the scheduler is modelled with that option off; the translation it would call is `Translation.TranslationStage.TranslateSegments`.
- Item and percentage reports of the chunk stages, manifests, and whether a report also moves the task's progress.
- What a failed front half leaves running: futures that were already started are not followed after the failure.
- Rounding of times in ffmpeg arguments, and floating point everywhere; the square root is any function that is positive on positive numbers, and exact where a lemma says so.
- Background level, labels of the mixing filter graph and chunks whose mixed file is reused.
- Alignment of a merged unit looks at the span of its first segment only, as the code does, so the schedule is proved over those spans.
- Character statistics that make a translation look untranslated: any predicate; white space is ASCII white space.
- Voice enrolment, synthesis requests and reuse of synthesized units.
- Elapsed-time estimates of progress and the remaining-time estimate.
- Task states written outside the worker protocol: direct progress updates, the quota reset of the demo login, and the configuration stored with a task apart from its source language.
- Costs and metrics of stage runs, provider error codes, and the classification of error messages.
- Loading the database rows into a pipeline context, and the fall-back genders normalised on the way: re-run equivalence is claimed from the head of the chain, where nothing is taken from the database.
- Row locks: a call up to its commit is one step, and so is resuming a task together with its dispatch.
- Retries of the heartbeat process and of Redis: a pass or worker that loses Redis is one that stops.
- TaskQuota.QuotaIsConserved: histories that revive a failed task, or refund a task whose row could not be removed, are excluded, because the refund is then not taken back.
- AutoResume.AutoResumesAreBounded: runs in which a pass reads the counter in order to dispatch while another has read but not yet counted, or a dispatch is never counted, are excluded, because the cap can then be exceeded.
- AutoResume.CapIsKeptExactlyWithRoom: runs in which the counter is reset under a dispatch about to be counted, or the pass that is to count dies, are excluded, because the counter then says nothing about the dispatches.
- OrderlyScans.NobodySawLife: runs in which a suspicion is confirmed while another pass is about to delete it, or a pass dies at that point, are excluded, because the sighting is then forgotten.
- TaskRuntime.TaskRuntimeService.MarkCompleted: its three transactions follow one another without a transaction of somebody else in between.
- SpeakerIdentity.OwnPrintMatches: requires an exact square root, because the square root itself is not modelled.
- StageChain.EveryRerunEndsTheSame: assumes deterministic stages, artifacts that amount to the stage's result, and a stage whose own check rejects its finished context to leave that context as it is.
