/** The chain of stages and its checkpoints: what survives of an earlier run decides how much is
    redone, never what comes out. */
module StageChain {
  import opened PipelineTypes
  import opened SpeakerIdentity
  import T = Translation

  datatype Context = Context(
    taskId: string,
    userId: string,
    sourceAudioUrl: string,
    status: string,
    errorMessage: string,
    sourceLanguage: string,
    targetLanguage: string,
    config: map<string, string>,
    vocalTrackUrl: string,
    backgroundTrackUrl: string,
    speakers: Option<seq<GlobalSpeaker>>,
    segments: Option<seq<Segment>>,
    synthSegments: Option<seq<Synth>>,
    outputAudioUrl: string,
    invalidated: set<TaskStage>)

  // ----- Contexts as dictionaries -----

  datatype Field =
    | TaskId | SourceAudioUrl | StatusField | ErrorMessage | SourceLanguage | TargetLanguage | ConfigField
    | VocalTrackUrl | BackgroundTrackUrl | Speakers | Segments | SynthSegments | OutputAudioUrl | InvalidatedStages

  datatype Value =
    | Text(text: string)
    | Config(config: map<string, string>)
    | SpeakerList(speakers: Option<seq<GlobalSpeaker>>)
    | SegmentList(segments: Option<seq<Segment>>)
    | SynthList(synths: Option<seq<Synth>>)
    | StageNames(stages: seq<TaskStage>)

  type Dict = map<Field, Value>

  const CONTEXT_FIELDS: seq<Field> := [
    TaskId, SourceAudioUrl, StatusField, ErrorMessage, SourceLanguage, TargetLanguage, ConfigField,
    VocalTrackUrl, BackgroundTrackUrl, Speakers, Segments, SynthSegments, OutputAudioUrl, InvalidatedStages]

  /** The stages in alphabetical order of their stored names. */
  const STAGES_BY_NAME: seq<TaskStage> := [
    Transcribing, StageCompleted, StageFailed, Mixing, Preparing, Separating, Diarizing, Aligning, Translating,
    Uploaded, Synthesizing]

  function SortedStages(stages: set<TaskStage>, n: nat): seq<TaskStage>
    requires n <= |STAGES_BY_NAME|
  {
    if n == 0 then []
    else SortedStages(stages, n - 1) + if STAGES_BY_NAME[n - 1] in stages then [STAGES_BY_NAME[n - 1]] else []
  }

  function StageSet(stages: seq<TaskStage>): set<TaskStage> {
    set stage | stage in stages
  }

  function GetField(ctx: Context, field: Field): Value {
    match field
    case TaskId => Text(ctx.taskId)
    case SourceAudioUrl => Text(ctx.sourceAudioUrl)
    case StatusField => Text(ctx.status)
    case ErrorMessage => Text(ctx.errorMessage)
    case SourceLanguage => Text(ctx.sourceLanguage)
    case TargetLanguage => Text(ctx.targetLanguage)
    case ConfigField => Config(ctx.config)
    case VocalTrackUrl => Text(ctx.vocalTrackUrl)
    case BackgroundTrackUrl => Text(ctx.backgroundTrackUrl)
    case Speakers => SpeakerList(ctx.speakers)
    case Segments => SegmentList(ctx.segments)
    case SynthSegments => SynthList(ctx.synthSegments)
    case OutputAudioUrl => Text(ctx.outputAudioUrl)
    case InvalidatedStages => StageNames(SortedStages(ctx.invalidated, |STAGES_BY_NAME|))
  }

  function SetField(ctx: Context, field: Field, value: Value): Context {
    match (field, value)
    case (TaskId, Text(text)) => ctx.(taskId := text)
    case (SourceAudioUrl, Text(text)) => ctx.(sourceAudioUrl := text)
    case (StatusField, Text(text)) => ctx.(status := text)
    case (ErrorMessage, Text(text)) => ctx.(errorMessage := text)
    case (SourceLanguage, Text(text)) => ctx.(sourceLanguage := text)
    case (TargetLanguage, Text(text)) => ctx.(targetLanguage := text)
    case (ConfigField, Config(config)) => ctx.(config := config)
    case (VocalTrackUrl, Text(text)) => ctx.(vocalTrackUrl := text)
    case (BackgroundTrackUrl, Text(text)) => ctx.(backgroundTrackUrl := text)
    case (Speakers, SpeakerList(speakers)) => ctx.(speakers := speakers)
    case (Segments, SegmentList(segments)) => ctx.(segments := segments)
    case (SynthSegments, SynthList(synths)) => ctx.(synthSegments := synths)
    case (OutputAudioUrl, Text(text)) => ctx.(outputAudioUrl := text)
    case (InvalidatedStages, StageNames(stages)) => ctx.(invalidated := StageSet(stages))
    case _ => ctx
  }

  function ToDict(ctx: Context): Dict {
    map field | field in CONTEXT_FIELDS :: GetField(ctx, field)
  }

  function Applied(ctx: Context, data: Dict, n: nat): Context
    requires n <= |CONTEXT_FIELDS|
  {
    if n == 0 then ctx
    else
      var field := CONTEXT_FIELDS[n - 1];
      var earlier := Applied(ctx, data, n - 1);
      if field in data then SetField(earlier, field, data[field]) else earlier
  }

  /** Fields the data does not have are left alone. */
  method ApplyContextDict(ctx: Context, data: Dict) returns (result: Context)
    ensures result == Applied(ctx, data, |CONTEXT_FIELDS|)
  {
    result := ctx;
    for n := 0 to |CONTEXT_FIELDS|
      invariant result == Applied(ctx, data, n)
    {
      var field := CONTEXT_FIELDS[n];
      if field in data {
        result := SetField(result, field, data[field]);
      }
    }
  }

  lemma {:induction false} SortedStagesHold(stages: set<TaskStage>, n: nat)
    requires n <= |STAGES_BY_NAME|
    ensures forall stage :: stage in SortedStages(stages, n) <==> stage in stages && stage in STAGES_BY_NAME[..n]
  {
    if n > 0 {
      SortedStagesHold(stages, n - 1);
      assert STAGES_BY_NAME[..n] == STAGES_BY_NAME[..n - 1] + [STAGES_BY_NAME[n - 1]];
    }
  }

  lemma InvalidationsSurvive(stages: set<TaskStage>)
    ensures StageSet(SortedStages(stages, |STAGES_BY_NAME|)) == stages
  {
    SortedStagesHold(stages, |STAGES_BY_NAME|);
    assert STAGES_BY_NAME[..|STAGES_BY_NAME|] == STAGES_BY_NAME;
    forall stage: TaskStage ensures stage in STAGES_BY_NAME {
      StageHasName(stage);
    }
  }

  lemma StageHasName(stage: TaskStage)
    ensures stage in STAGES_BY_NAME
  {
    match stage
    case Transcribing => assert STAGES_BY_NAME[0] == stage;
    case StageCompleted => assert STAGES_BY_NAME[1] == stage;
    case StageFailed => assert STAGES_BY_NAME[2] == stage;
    case Mixing => assert STAGES_BY_NAME[3] == stage;
    case Preparing => assert STAGES_BY_NAME[4] == stage;
    case Separating => assert STAGES_BY_NAME[5] == stage;
    case Diarizing => assert STAGES_BY_NAME[6] == stage;
    case Aligning => assert STAGES_BY_NAME[7] == stage;
    case Translating => assert STAGES_BY_NAME[8] == stage;
    case Uploaded => assert STAGES_BY_NAME[9] == stage;
    case Synthesizing => assert STAGES_BY_NAME[10] == stage;
  }

  /** `target` with the first n fields taken from `saved`. */
  function Overwritten(target: Context, saved: Context, n: nat): Context {
    Context(
      if n > 0 then saved.taskId else target.taskId,
      target.userId,
      if n > 1 then saved.sourceAudioUrl else target.sourceAudioUrl,
      if n > 2 then saved.status else target.status,
      if n > 3 then saved.errorMessage else target.errorMessage,
      if n > 4 then saved.sourceLanguage else target.sourceLanguage,
      if n > 5 then saved.targetLanguage else target.targetLanguage,
      if n > 6 then saved.config else target.config,
      if n > 7 then saved.vocalTrackUrl else target.vocalTrackUrl,
      if n > 8 then saved.backgroundTrackUrl else target.backgroundTrackUrl,
      if n > 9 then saved.speakers else target.speakers,
      if n > 10 then saved.segments else target.segments,
      if n > 11 then saved.synthSegments else target.synthSegments,
      if n > 12 then saved.outputAudioUrl else target.outputAudioUrl,
      if n > 13 then saved.invalidated else target.invalidated)
  }

  lemma SetFieldOverwrites(target: Context, saved: Context, n: nat)
    requires n < |CONTEXT_FIELDS|
    ensures SetField(Overwritten(target, saved, n), CONTEXT_FIELDS[n], GetField(saved, CONTEXT_FIELDS[n]))
         == Overwritten(target, saved, n + 1)
  {
    InvalidationsSurvive(saved.invalidated);
  }

  lemma FieldIsSaved(saved: Context, n: nat)
    requires n < |CONTEXT_FIELDS|
    ensures CONTEXT_FIELDS[n] in ToDict(saved) && ToDict(saved)[CONTEXT_FIELDS[n]] == GetField(saved, CONTEXT_FIELDS[n])
  {
    hide GetField;
  }

  lemma {:induction false} AppliedOverwrites(target: Context, saved: Context, n: nat)
    requires n <= |CONTEXT_FIELDS|
    ensures Applied(target, ToDict(saved), n) == Overwritten(target, saved, n)
  {
    hide GetField, SetField, Overwritten, ToDict;
    if n > 0 {
      AppliedOverwrites(target, saved, n - 1);
      SetFieldOverwrites(target, saved, n - 1);
      FieldIsSaved(saved, n - 1);
    } else {
      NothingOverwritten(target, saved);
    }
  }

  lemma NothingOverwritten(target: Context, saved: Context)
    ensures Overwritten(target, saved, 0) == target
  {
  }

  /** Applying a saved context gives it back whole; only the user stays the loading task's. */
  lemma SavedContextComesBack(target: Context, saved: Context)
    ensures Applied(target, ToDict(saved), |CONTEXT_FIELDS|) == saved.(userId := target.userId)
  {
    AppliedOverwrites(target, saved, |CONTEXT_FIELDS|);
  }

  predicate Fits(field: Field, value: Value) {
    match field
    case ConfigField => value.Config?
    case Speakers => value.SpeakerList?
    case Segments => value.SegmentList?
    case SynthSegments => value.SynthList?
    case InvalidatedStages => value.StageNames?
    case _ => value.Text?
  }

  lemma SetFieldSetsOne(ctx: Context, field: Field, value: Value)
    requires Fits(field, value)
    ensures field != InvalidatedStages ==> GetField(SetField(ctx, field, value), field) == value
    ensures field == InvalidatedStages ==> SetField(ctx, field, value).invalidated == StageSet(value.stages)
    ensures forall other :: other != field ==> GetField(SetField(ctx, field, value), other) == GetField(ctx, other)
    ensures field != InvalidatedStages ==> SetField(ctx, field, value).invalidated == ctx.invalidated
    ensures SetField(ctx, field, value).userId == ctx.userId
  {
  }

  /** Each field is taken from the data where the data has it, and left alone where not. */
  lemma {:induction false} FieldsComeFromData(ctx: Context, data: Dict, n: nat)
    requires n <= |CONTEXT_FIELDS| && forall field :: field in data ==> Fits(field, data[field])
    ensures var result := Applied(ctx, data, n);
            && result.userId == ctx.userId
            && forall field :: if field in data && field in CONTEXT_FIELDS[..n] then
                                 && (field != InvalidatedStages ==> GetField(result, field) == data[field])
                                 && (field == InvalidatedStages ==>
                                       data[field].StageNames? && result.invalidated == StageSet(data[field].stages))
                               else GetField(result, field) == GetField(ctx, field)
  {
    hide GetField, SetField, CONTEXT_FIELDS;
    if n > 0 {
      FieldsComeFromData(ctx, data, n - 1);
      var field := CONTEXT_FIELDS[n - 1];
      FieldsAreDistinct(n - 1);
      assert CONTEXT_FIELDS[..n] == CONTEXT_FIELDS[..n - 1] + [field];
      if field in data {
        SetFieldSetsOne(Applied(ctx, data, n - 1), field, data[field]);
        assert field !in CONTEXT_FIELDS[..n - 1];
      }
    }
  }

  lemma FieldsAreDistinct(n: nat)
    requires n < |CONTEXT_FIELDS|
    ensures CONTEXT_FIELDS[n] !in CONTEXT_FIELDS[..n]
  {
  }

  // ----- Executing the chain -----

  /** A stage's work as a function of the context; `None` is an exception. `valid` accepts or
      rejects a context restored from its checkpoint. */
  datatype Stage = Stage(stage: TaskStage, process: Context -> Option<Context>, valid: Context -> bool)

  /** What a run meets: pause requests, unreadable and unwritable checkpoints, and artifacts of an
      earlier run that let a stage be skipped without one. */
  datatype Env = Env(
    paused: TaskStage -> bool,
    loads: TaskStage -> bool,
    saves: TaskStage -> bool,
    restore: (TaskStage, Context) -> Option<Context>)

  datatype Decision = Processed | Restored

  datatype Outcome = Ended | Stopped

  datatype State = State(ctx: Context, checkpoints: map<TaskStage, Dict>, decisions: seq<Decision>)

  function Load(ctx: Context, data: Dict): Context {
    Applied(ctx, data, |CONTEXT_FIELDS|)
  }

  predicate Loads(env: Env, stage: TaskStage, state: State) {
    stage !in state.ctx.invalidated && stage in state.checkpoints && env.loads(stage)
  }

  /** The context a stage works on: a rejected checkpoint has already replaced the original. */
  function Input(env: Env, stage: TaskStage, state: State): Context {
    if Loads(env, stage, state) then Load(state.ctx, state.checkpoints[stage]) else state.ctx
  }

  function Restore(env: Env, body: Stage, state: State): Option<Context> {
    if body.stage in state.ctx.invalidated then None
    else if Loads(env, body.stage, state) then
      var loaded := Input(env, body.stage, state);
      if body.valid(loaded) then Some(loaded) else None
    else env.restore(body.stage, state.ctx)
  }

  /** One stage: `None` when it raises. */
  function StageStep(env: Env, body: Stage, state: State): Option<State> {
    var restored := Restore(env, body, state);
    var result := if restored.Some? then restored else body.process(Input(env, body.stage, state));
    match result
    case None => None
    case Some(ctx) =>
      var after := ctx.(invalidated := ctx.invalidated - {body.stage});
      Some(State(after,
                 if env.saves(body.stage) then state.checkpoints[body.stage := ToDict(after)] else state.checkpoints,
                 state.decisions + [if restored.Some? then Restored else Processed]))
  }

  function ChainRun(env: Env, chain: seq<Stage>, state: State): (Outcome, State) {
    if chain == [] then (Ended, state)
    else if env.paused(chain[0].stage) then (Stopped, state)
    else
      match StageStep(env, chain[0], state)
      case None => (Stopped, state)
      case Some(next) => ChainRun(env, chain[1..], next)
  }

  /** Which context a stage works on, and whether it works at all: a marked stage runs on what it is
      given; an accepted checkpoint stands for the stage and a rejected one is what it runs on; without
      a checkpoint it runs unless artifacts stand in for it. The stage's mark is gone afterwards. */
  lemma WhatAStageDoes(env: Env, body: Stage, state: State)
    ensures var ctx, step := state.ctx, StageStep(env, body, state);
            var has := body.stage in state.checkpoints && env.loads(body.stage);
            var loaded := if has then Load(ctx, state.checkpoints[body.stage]) else ctx;
            && (body.stage in ctx.invalidated ==> StepsTo(body, state, step, Processed, body.process(ctx)))
            && (body.stage !in ctx.invalidated && has && body.valid(loaded) ==> StepsTo(body, state, step, Restored, Some(loaded)))
            && (body.stage !in ctx.invalidated && has && !body.valid(loaded) ==>
                  StepsTo(body, state, step, Processed, body.process(loaded)))
            && (body.stage !in ctx.invalidated && !has && env.restore(body.stage, ctx).Some? ==>
                  StepsTo(body, state, step, Restored, env.restore(body.stage, ctx)))
            && (body.stage !in ctx.invalidated && !has && env.restore(body.stage, ctx) == None ==>
                  StepsTo(body, state, step, Processed, body.process(ctx)))
  {
    hide ToDict, Load;
  }

  ghost predicate StepsTo(body: Stage, state: State, step: Option<State>, decision: Decision, result: Option<Context>) {
    match result
    case None => step == None
    case Some(ctx) =>
      && step.Some? && step.value.decisions == state.decisions + [decision]
      && step.value.ctx == ctx.(invalidated := ctx.invalidated - {body.stage})
  }

  /** The context and the checkpoint store of a running task. */
  class TaskRun {
    var ctx: Context
    var checkpoints: map<TaskStage, Dict>
    var decisions: seq<Decision>

    constructor (ctx: Context, checkpoints: map<TaskStage, Dict>)
      ensures Now() == State(ctx, checkpoints, [])
    {
      this.ctx, this.checkpoints, decisions := ctx, checkpoints, [];
    }

    ghost function Now(): State
      reads this
    {
      State(ctx, checkpoints, decisions)
    }

    method LoadStage(env: Env, stage: TaskStage) returns (loaded: bool)
      modifies this`ctx
      ensures loaded == (stage in checkpoints && env.loads(stage))
      ensures ctx == if loaded then Load(old(ctx), checkpoints[stage]) else old(ctx)
    {
      loaded := stage in checkpoints && env.loads(stage);
      if loaded {
        ctx := ApplyContextDict(ctx, checkpoints[stage]);
      }
    }

    method RestoreCompletedStage(env: Env, body: Stage) returns (restored: bool)
      modifies this`ctx
      ensures restored == Restore(env, body, old(Now())).Some?
      ensures ctx == if restored then Restore(env, body, old(Now())).value else Input(env, body.stage, old(Now()))
    {
      hide Load;
      if body.stage in ctx.invalidated {
        return false;
      }
      var loaded := LoadStage(env, body.stage);
      if loaded {
        return body.valid(ctx);
      }
      var artifacts := env.restore(body.stage, ctx);
      restored := artifacts.Some?;
      if restored {
        ctx := artifacts.value;
      }
    }
  }

  /** A stage and the ones linked after it. */
  class StageProcessor {
    const body: Stage
    const next: StageProcessor?
    ghost const chain: seq<Stage>

    constructor (body: Stage, next: StageProcessor?)
      requires next != null ==> next.Valid()
      ensures Valid() && chain == [body] + if next == null then [] else next.chain
    {
      this.body, this.next := body, next;
      chain := [body] + if next == null then [] else next.chain;
    }

    ghost predicate Valid()
      decreases |chain|
    {
      && chain != [] && chain[0] == body
      && (next == null ==> chain == [body])
      && (next != null ==> chain == [body] + next.chain && next.Valid())
    }

    method Execute(env: Env, run: TaskRun) returns (outcome: Outcome)
      requires Valid()
      modifies run
      ensures var (expected, state) := ChainRun(env, chain, old(run.Now()));
              && outcome == expected && run.checkpoints == state.checkpoints && run.decisions == state.decisions
              && (outcome == Ended ==> run.ctx == state.ctx)
      decreases |chain|
    {
      hide ToDict, Load, Restore, Input;
      if env.paused(body.stage) {
        return Stopped;
      }
      var restored := run.RestoreCompletedStage(env, body);
      if !restored {
        var processed := body.process(run.ctx);
        if processed == None {
          return Stopped;
        }
        run.ctx := processed.value;
      }
      run.decisions := run.decisions + [if restored then Restored else Processed];
      run.ctx := run.ctx.(invalidated := run.ctx.invalidated - {body.stage});
      if env.saves(body.stage) {
        run.checkpoints := run.checkpoints[body.stage := ToDict(run.ctx)];
      }
      assert Some(run.Now()) == StageStep(env, body, old(run.Now()));
      if next != null {
        assert chain[1..] == next.chain;
        outcome := next.Execute(env, run);
      } else {
        assert chain[1..] == [];
        outcome := Ended;
      }
    }
  }

  // ----- Building the chain -----

  const BLUEPRINT: seq<TaskStage> := [Separating, Diarizing, Transcribing, Translating, Synthesizing, Aligning, Mixing]

  function Bodies(stages: TaskStage -> Stage, names: seq<TaskStage>): (bodies: seq<Stage>)
    ensures |bodies| == |names| && forall i :: 0 <= i < |names| ==> bodies[i] == stages(names[i])
  {
    if names == [] then [] else [stages(names[0])] + Bodies(stages, names[1..])
  }

  /** Drops the stages before `start`. */
  method ActiveStages(start: TaskStage) returns (active: seq<TaskStage>, ghost k: nat)
    ensures k <= |BLUEPRINT| && active == BLUEPRINT[k..] && start !in BLUEPRINT[..k]
    ensures active != [] ==> active[0] == start
  {
    hide BLUEPRINT;
    active, k := [], |BLUEPRINT|;
    var started := false;
    for i := 0 to |BLUEPRINT|
      invariant !started ==> active == [] && start !in BLUEPRINT[..i] && k == |BLUEPRINT|
      invariant started ==> k < i && BLUEPRINT[k] == start && active == BLUEPRINT[k..i] && start !in BLUEPRINT[..k]
    {
      if BLUEPRINT[i] == start && !started {
        started, k := true, i;
      }
      if started {
        active := active + [BLUEPRINT[i]];
      }
    }
  }

  /** Links the stages from `start` on, last one first; fails when the blueprint lacks `start`. */
  method BuildChain(stages: TaskStage -> Stage, start: TaskStage) returns (head: StageProcessor?, ghost k: nat)
    ensures head == null <==> start !in BLUEPRINT
    ensures head != null ==>
              && k < |BLUEPRINT| && BLUEPRINT[k] == start && start !in BLUEPRINT[..k]
              && head.Valid() && head.chain == Bodies(stages, BLUEPRINT[k..])
  {
    hide BLUEPRINT;
    var active;
    active, k := ActiveStages(start);
    head := null;
    if active == [] {
      assert BLUEPRINT[..k] == BLUEPRINT;
      return;
    }
    assert BLUEPRINT[k] == active[0];
    head := LinkChain(stages, active);
  }

  method LinkChain(stages: TaskStage -> Stage, names: seq<TaskStage>) returns (head: StageProcessor)
    requires names != []
    ensures head.Valid() && head.chain == Bodies(stages, names)
  {
    hide StageProcessor.Valid;
    var n := |names| - 1;
    assert names[n..] == [names[n]];
    head := new StageProcessor(stages(names[n]), null);
    while n > 0
      invariant 0 <= n < |names|
      invariant head.Valid() && head.chain == Bodies(stages, names[n..])
    {
      n := n - 1;
      assert names[n..] == [names[n]] + names[n + 1..];
      head := new StageProcessor(stages(names[n]), head);
    }
    assert names[0..] == names;
  }

  // ----- Re-running over what survived -----

  /** The context after the first k stages when nothing is restored. */
  function Trace(stages: seq<Stage>, ctx: Context, k: nat): Option<Context>
    requires k <= |stages|
  {
    if k == 0 then Some(ctx)
    else
      match Trace(stages, ctx, k - 1)
      case None => None
      case Some(before) =>
        match stages[k - 1].process(before)
        case None => None
        case Some(after) => Some(after.(invalidated := after.invalidated - {stages[k - 1].stage}))
  }

  /** The uninterrupted run `stages` make from `ctx`: it completes, every stage is deterministic and
      keeps the user, and a stage whose finished context its own check rejects changes nothing
      when run on it again. */
  ghost predicate Repeatable(stages: seq<Stage>, ctx: Context) {
    && (forall i, j :: 0 <= i < j < |stages| ==> stages[i].stage != stages[j].stage)
    && (forall k :: 0 <= k <= |stages| ==> Trace(stages, ctx, k).Some? && Trace(stages, ctx, k).value.userId == ctx.userId)
    && (forall k :: 0 <= k < |stages| ==> SettledAfter(stages, ctx, k))
  }

  ghost predicate SettledAfter(stages: seq<Stage>, ctx: Context, k: nat)
    requires k < |stages| && Trace(stages, ctx, k + 1).Some?
  {
    var after := Trace(stages, ctx, k + 1).value;
    stages[k].valid(after) || stages[k].process(after) == Some(after)
  }

  /** Artifacts stand in for a stage only where they amount to its result. */
  ghost predicate HonestArtifacts(env: Env, stages: seq<Stage>, ctx: Context)
    requires forall k :: 0 <= k <= |stages| ==> Trace(stages, ctx, k).Some?
  {
    forall k :: 0 <= k < |stages| ==>
      var before := Trace(stages, ctx, k).value;
      env.restore(stages[k].stage, before).Some? ==> env.restore(stages[k].stage, before) == stages[k].process(before)
  }

  /** Every checkpoint there is was written by a run on the same input. */
  ghost predicate FromSameInput(stages: seq<Stage>, ctx: Context, checkpoints: map<TaskStage, Dict>)
    requires forall k :: 0 <= k <= |stages| ==> Trace(stages, ctx, k).Some?
  {
    forall k :: 0 <= k < |stages| && stages[k].stage in checkpoints ==>
      checkpoints[stages[k].stage] == ToDict(Trace(stages, ctx, k + 1).value)
  }

  lemma StageFollowsTrace(env: Env, stages: seq<Stage>, ctx: Context, k: nat, state: State)
    requires Repeatable(stages, ctx) && HonestArtifacts(env, stages, ctx)
    requires k < |stages| && Some(state.ctx) == Trace(stages, ctx, k)
    requires FromSameInput(stages, ctx, state.checkpoints)
    ensures var next := StageStep(env, stages[k], state);
            && next.Some? && Some(next.value.ctx) == Trace(stages, ctx, k + 1)
            && |next.value.decisions| == |state.decisions| + 1
            && (next.value.checkpoints == state.checkpoints
                || next.value.checkpoints == state.checkpoints[stages[k].stage := ToDict(next.value.ctx)])
  {
    hide ToDict, Load;
    var body, after := stages[k], Trace(stages, ctx, k + 1).value;
    assert SettledAfter(stages, ctx, k);
    if Loads(env, body.stage, state) {
      assert state.checkpoints[body.stage] == ToDict(after);
      LoadGivesBack(state.ctx, after);
      assert after.invalidated - {body.stage} == after.invalidated;
    }
  }

  lemma LoadGivesBack(ctx: Context, saved: Context)
    ensures Load(ctx, ToDict(saved)) == saved.(userId := ctx.userId)
  {
    SavedContextComesBack(ctx, saved);
  }

  ghost predicate PausesFirst(env: Env, stages: seq<Stage>, k: nat, i: int)
    requires k <= i < |stages|
  {
    env.paused(stages[i].stage) && forall j :: k <= j < i ==> !env.paused(stages[j].stage)
  }

  /** From any point of the run and over any surviving checkpoints, the chain passes through the
      contexts of the uninterrupted run: it stops right before the first stage that is paused, or ends
      where that run ends, and the checkpoints it leaves behind are again those of the same input. */
  lemma {:induction false} RerunFollowsTrace(env: Env, stages: seq<Stage>, ctx: Context, k: nat, state: State)
    requires Repeatable(stages, ctx) && HonestArtifacts(env, stages, ctx)
    requires k <= |stages| && Some(state.ctx) == Trace(stages, ctx, k)
    requires FromSameInput(stages, ctx, state.checkpoints)
    ensures var (outcome, final) := ChainRun(env, stages[k..], state);
            && FromSameInput(stages, ctx, final.checkpoints)
            && (outcome == Ended ==> Some(final.ctx) == Trace(stages, ctx, |stages|))
            && (outcome == Stopped ==>
                  exists i :: k <= i < |stages| && PausesFirst(env, stages, k, i)
                    && Some(final.ctx) == Trace(stages, ctx, i) && |final.decisions| == |state.decisions| + i - k)
    decreases |stages| - k
  {
    hide StageStep, ToDict, Trace, HonestArtifacts;
    if k < |stages| && !env.paused(stages[k].stage) {
      StageFollowsTrace(env, stages, ctx, k, state);
      var next := StageStep(env, stages[k], state).value;
      assert FromSameInput(stages, ctx, next.checkpoints) by {
        assert Some(next.ctx) == Trace(stages, ctx, k + 1);
      }
      assert stages[k..][1..] == stages[k + 1..];
      RerunFollowsTrace(env, stages, ctx, k + 1, next);
    } else if k < |stages| {
      assert PausesFirst(env, stages, k, k);
    }
  }

  /** One attempt at the whole chain, after which some checkpoints may be lost. */
  datatype Attempt = Attempt(env: Env, lost: set<TaskStage>)

  /** The checkpoints left after a number of attempts, each from the head of the chain. */
  function Leftovers(stages: seq<Stage>, ctx: Context, attempts: seq<Attempt>): map<TaskStage, Dict> {
    if attempts == [] then map[]
    else
      var earlier, last := Leftovers(stages, ctx, attempts[..|attempts| - 1]), attempts[|attempts| - 1];
      ChainRun(last.env, stages, State(ctx, earlier, [])).1.checkpoints - last.lost
  }

  lemma {:induction false} LeftoversAreFromSameInput(stages: seq<Stage>, ctx: Context, attempts: seq<Attempt>)
    requires Repeatable(stages, ctx)
    requires forall attempt <- attempts :: HonestArtifacts(attempt.env, stages, ctx)
    ensures FromSameInput(stages, ctx, Leftovers(stages, ctx, attempts))
  {
    hide ChainRun, HonestArtifacts, ToDict;
    if attempts != [] {
      var earlier, last := attempts[..|attempts| - 1], attempts[|attempts| - 1];
      LeftoversAreFromSameInput(stages, ctx, earlier);
      RerunFollowsTrace(last.env, stages, ctx, 0, State(ctx, Leftovers(stages, ctx, earlier), []));
      assert stages[0..] == stages;
    }
  }

  /** However often a task was interrupted and whatever checkpoints were lost in between, the
      attempt that gets through ends in the context of a run that was never interrupted. */
  lemma EveryRerunEndsTheSame(stages: seq<Stage>, ctx: Context, attempts: seq<Attempt>, env: Env)
    requires Repeatable(stages, ctx) && HonestArtifacts(env, stages, ctx)
    requires forall attempt <- attempts :: HonestArtifacts(attempt.env, stages, ctx)
    requires forall stage :: !env.paused(stage)
    ensures var (outcome, final) := ChainRun(env, stages, State(ctx, Leftovers(stages, ctx, attempts), []));
            outcome == Ended && Some(final.ctx) == Trace(stages, ctx, |stages|)
  {
    hide ChainRun, HonestArtifacts, ToDict;
    LeftoversAreFromSameInput(stages, ctx, attempts);
    RerunFollowsTrace(env, stages, ctx, 0, State(ctx, Leftovers(stages, ctx, attempts), []));
    assert stages[0..] == stages;
  }

  // ----- What is saved is not redone -----

  /** A stage that finishes is saved as it was then, whether it was processed or restored. */
  lemma FinishedStageIsSaved(env: Env, body: Stage, state: State)
    requires env.saves(body.stage) && StageStep(env, body, state).Some?
    ensures var next := StageStep(env, body, state).value;
            && body.stage in next.checkpoints && body.stage !in next.ctx.invalidated
            && Load(next.ctx, next.checkpoints[body.stage]) == next.ctx
            && next.checkpoints == state.checkpoints[body.stage := next.checkpoints[body.stage]]
  {
    hide ToDict, Load, Restore, Input;
    LoadGivesBack(StageStep(env, body, state).value.ctx, StageStep(env, body, state).value.ctx);
  }

  /** So a run that gets to its end leaves a checkpoint of every stage. */
  lemma {:induction false} EveryStageIsSaved(env: Env, chain: seq<Stage>, state: State)
    requires forall stage :: env.saves(stage)
    ensures var (outcome, final) := ChainRun(env, chain, state);
            && state.checkpoints.Keys <= final.checkpoints.Keys
            && (outcome == Ended ==> forall body <- chain :: body.stage in final.checkpoints)
    decreases |chain|
  {
    hide StageStep;
    if chain != [] && !env.paused(chain[0].stage) {
      var next := StageStep(env, chain[0], state);
      if next.Some? {
        FinishedStageIsSaved(env, chain[0], state);
        EveryStageIsSaved(env, chain[1..], next.value);
        forall body | body in chain ensures body == chain[0] || body in chain[1..] {
        }
      }
    }
  }

  /** No stage of the uninterrupted run is marked when its turn comes, and each accepts its own
      finished context. */
  ghost predicate Accepted(stages: seq<Stage>, ctx: Context)
    requires forall k :: 0 <= k <= |stages| ==> Trace(stages, ctx, k).Some?
  {
    forall k :: 0 <= k < |stages| ==>
      stages[k].stage !in Trace(stages, ctx, k).value.invalidated && stages[k].valid(Trace(stages, ctx, k + 1).value)
  }

  lemma StageIsRestored(env: Env, stages: seq<Stage>, ctx: Context, k: nat, state: State)
    requires Repeatable(stages, ctx) && Accepted(stages, ctx)
    requires k < |stages| && Some(state.ctx) == Trace(stages, ctx, k) && FromSameInput(stages, ctx, state.checkpoints)
    requires stages[k].stage in state.checkpoints && env.loads(stages[k].stage)
    ensures var next := StageStep(env, stages[k], state);
            && next.Some? && next.value.decisions == state.decisions + [Restored]
            && Some(next.value.ctx) == Trace(stages, ctx, k + 1)
            && next.value.checkpoints.Keys == state.checkpoints.Keys && FromSameInput(stages, ctx, next.value.checkpoints)
  {
    hide ToDict, Load;
    var after := Trace(stages, ctx, k + 1).value;
    assert state.checkpoints[stages[k].stage] == ToDict(after);
    LoadGivesBack(state.ctx, after);
    assert after.invalidated - {stages[k].stage} == after.invalidated;
  }

  /** A run over the checkpoints of a finished one on the same input processes nothing at all. */
  lemma {:induction false} FinishedRunIsRestored(env: Env, stages: seq<Stage>, ctx: Context, k: nat, state: State)
    requires Repeatable(stages, ctx) && Accepted(stages, ctx)
    requires k <= |stages| && Some(state.ctx) == Trace(stages, ctx, k) && FromSameInput(stages, ctx, state.checkpoints)
    requires forall body <- stages :: body.stage in state.checkpoints && env.loads(body.stage) && !env.paused(body.stage)
    ensures var (outcome, final) := ChainRun(env, stages[k..], state);
            && outcome == Ended && Some(final.ctx) == Trace(stages, ctx, |stages|)
            && final.decisions == state.decisions + seq(|stages| - k, _ => Restored)
    decreases |stages| - k
  {
    hide StageStep, Trace, FromSameInput, Accepted, Repeatable;
    if k < |stages| {
      assert stages[k] in stages;
      StageIsRestored(env, stages, ctx, k, state);
      var next := StageStep(env, stages[k], state).value;
      assert stages[k..][1..] == stages[k + 1..];
      FinishedRunIsRestored(env, stages, ctx, k + 1, next);
      assert [Restored] + seq(|stages| - k - 1, _ => Restored) == seq(|stages| - k, _ => Restored);
    }
  }

  // ----- Invalidation -----

  /** A stage may invalidate others but does not clear their marks. */
  ghost predicate KeepsInvalidations(body: Stage) {
    forall ctx :: body.process(ctx).Some? ==> ctx.invalidated - {body.stage} <= body.process(ctx).value.invalidated
  }

  /** Whether a translation looks untranslated, given the target language. */
  type Looks = (string, string, string) -> bool

  function JudgeOf(looks: Looks, ctx: Context): T.Judge {
    var target := Or(ctx.targetLanguage, "zh");
    T.Judge(Or(ctx.sourceLanguage, "en"), target, (original, translation) => looks(target, original, translation))
  }

  predicate LanguagesDiffer(ctx: Context) {
    Or(ctx.sourceLanguage, "en") != Or(ctx.targetLanguage, "zh")
  }

  function SegmentsOf(ctx: Context): seq<Segment> {
    if ctx.segments.Some? then ctx.segments.value else []
  }

  function WorkOf(ctx: Context): T.Work {
    T.Work(SegmentsOf(ctx), ctx.synthSegments, ctx.outputAudioUrl, ctx.invalidated)
  }

  function Translations(ctx: Context): seq<string> {
    T.Translations(SegmentsOf(ctx))
  }

  /** The translation stage: what it does to a context is what `TranslationStage.Process` is proved
      to do, and a restored context counts when its translations are complete. */
  ghost predicate IsTranslation(body: Stage, looks: Looks) {
    && body.stage == Translating
    && (forall ctx :: body.process(ctx).Some? ==> IsTranslated(looks, ctx, body.process(ctx).value))
    && (forall ctx :: body.valid(ctx) == T.IsComplete(JudgeOf(looks, ctx), SegmentsOf(ctx)))
  }

  ghost predicate IsTranslated(looks: Looks, before: Context, after: Context) {
    && after == before.(segments := after.segments, synthSegments := after.synthSegments,
                        outputAudioUrl := after.outputAudioUrl, invalidated := after.invalidated)
    && after.segments.Some? == before.segments.Some?
    && T.ProcessedTo(JudgeOf(looks, before), WorkOf(before), WorkOf(after))
  }

  /** Everything after the first n decisions was processed. */
  ghost predicate AllProcessed(before: seq<Decision>, after: seq<Decision>) {
    before <= after && forall k :: |before| <= k < |after| ==> after[k] == Processed
  }

  lemma MarkedStageIsProcessed(env: Env, body: Stage, state: State)
    requires KeepsInvalidations(body) && body.stage in state.ctx.invalidated && StageStep(env, body, state).Some?
    ensures var next := StageStep(env, body, state).value;
            && next.decisions == state.decisions + [Processed]
            && state.ctx.invalidated - {body.stage} <= next.ctx.invalidated
  {
    hide ToDict, Load;
  }

  /** Stages that are all marked are all processed, whatever checkpoints and artifacts there are. */
  lemma {:induction false} MarkedStagesAreProcessed(env: Env, chain: seq<Stage>, state: State)
    requires forall i, j :: 0 <= i < j < |chain| ==> chain[i].stage != chain[j].stage
    requires forall body <- chain :: KeepsInvalidations(body) && body.stage in state.ctx.invalidated
    ensures AllProcessed(state.decisions, ChainRun(env, chain, state).1.decisions)
    decreases |chain|
  {
    hide StageStep, KeepsInvalidations;
    if chain != [] && !env.paused(chain[0].stage) {
      var next := StageStep(env, chain[0], state);
      if next.Some? {
        MarkedStageIsProcessed(env, chain[0], state);
        MarkedStagesAreProcessed(env, chain[1..], next.value);
      }
    }
  }

  /** The stage was run on a context and changed some translation. */
  ghost predicate Changes(env: Env, body: Stage, state: State) {
    var input := Input(env, body.stage, state);
    && Restore(env, body, state) == None && body.process(input).Some?
    && Translations(body.process(input).value) != Translations(input)
  }

  /** The stages after the translation. */
  ghost predicate AreLater(chain: seq<Stage>) {
    && (forall i, j :: 0 <= i < j < |chain| ==> chain[i].stage != chain[j].stage)
    && forall body <- chain :: KeepsInvalidations(body) && body.stage in T.LATER_STAGES
  }

  lemma ChangedTextMarksLaterStages(env: Env, body: Stage, looks: Looks, state: State)
    requires IsTranslation(body, looks) && Changes(env, body, state)
    requires LanguagesDiffer(Input(env, body.stage, state))
    ensures var next := StageStep(env, body, state);
            && next.Some? && next.value.decisions == state.decisions + [Processed]
            && T.LATER_STAGES <= next.value.ctx.invalidated
  {
    hide Input, Restore, ToDict;
    var input := Input(env, body.stage, state);
    T.PendingMeansChanged(JudgeOf(looks, input), WorkOf(input), WorkOf(body.process(input).value));
  }

  /** Between different languages: when translating changes any text, no later stage of that run
      is restored, whatever checkpoints and artifacts there are. */
  lemma ChangedTextIsNeverMixedWithOldAudio(env: Env, chain: seq<Stage>, looks: Looks, state: State)
    requires chain != [] && IsTranslation(chain[0], looks) && AreLater(chain[1..]) && !env.paused(Translating)
    requires Changes(env, chain[0], state) && LanguagesDiffer(Input(env, Translating, state))
    ensures AllProcessed(state.decisions, ChainRun(env, chain, state).1.decisions)
    ensures |ChainRun(env, chain, state).1.decisions| > |state.decisions|
  {
    hide StageStep, Changes, Input, KeepsInvalidations;
    TranslatesFirst(chain[0], looks);
    ChangedTextMarksLaterStages(env, chain[0], looks, state);
    MarkedStagesAreProcessed(env, chain[1..], StageStep(env, chain[0], state).value);
  }

  lemma TranslatesFirst(body: Stage, looks: Looks)
    requires IsTranslation(body, looks)
    ensures body.stage == Translating
  {
  }

  /** The artifacts that let translating be skipped: complete translations in the context. */
  ghost predicate ReusesTranslations(env: Env, looks: Looks) {
    forall ctx :: env.restore(Translating, ctx) == if T.IsComplete(JudgeOf(looks, ctx), SegmentsOf(ctx)) then Some(ctx) else None
  }

  /** Some segment has text but no translation yet. */
  ghost predicate LacksTranslation(ctx: Context) {
    exists i :: 0 <= i < |SegmentsOf(ctx)| && !Blank(SegmentsOf(ctx)[i].text) && Blank(SegmentsOf(ctx)[i].translation)
  }

  lemma {:induction false} DecisionsAreKept(env: Env, chain: seq<Stage>, state: State)
    ensures state.decisions <= ChainRun(env, chain, state).1.decisions
    decreases |chain|
  {
    hide Restore, Input, ToDict;
    if chain != [] && !env.paused(chain[0].stage) {
      var next := StageStep(env, chain[0], state);
      if next.Some? {
        DecisionsAreKept(env, chain[1..], next.value);
      }
    }
  }

  lemma MissingTextIsFilled(body: Stage, looks: Looks, ctx: Context)
    requires IsTranslation(body, looks) && !LanguagesDiffer(ctx) && LacksTranslation(ctx) && body.process(ctx).Some?
    ensures !T.IsComplete(JudgeOf(looks, ctx), SegmentsOf(ctx))
    ensures body.process(ctx).value.invalidated == ctx.invalidated && body.process(ctx).value.userId == ctx.userId
    ensures Translations(body.process(ctx).value) != Translations(ctx)
  {
    var after := body.process(ctx).value;
    assert IsTranslated(looks, ctx, after);
    var i :| 0 <= i < |SegmentsOf(ctx)| && !Blank(SegmentsOf(ctx)[i].text) && Blank(SegmentsOf(ctx)[i].translation);
    assert T.NeedsTranslation(JudgeOf(looks, ctx), SegmentsOf(ctx)[i]);
    assert Translations(after)[i] == SegmentsOf(ctx)[i].text;
  }

  /** Between equal languages the marks are missing: a task that lost its translations but not the
      checkpoint of the next stage gets new text, and then restores that stage. */
  lemma EqualLanguagesReuseOldAudio(chain: seq<Stage>, looks: Looks, ctx: Context, saved: Context)
      returns (env: Env, checkpoints: map<TaskStage, Dict>)
    requires |chain| > 1 && IsTranslation(chain[0], looks) && AreLater(chain[1..])
    requires Translating !in ctx.invalidated && chain[1].stage !in ctx.invalidated
    requires !LanguagesDiffer(ctx) && LacksTranslation(ctx) && chain[0].process(ctx).Some?
    requires chain[1].valid(saved.(userId := ctx.userId))
    ensures ReusesTranslations(env, looks) && !env.paused(Translating) && Translating !in checkpoints
    ensures Changes(env, chain[0], State(ctx, checkpoints, []))
    ensures [Processed, Restored] <= ChainRun(env, chain, State(ctx, checkpoints, [])).1.decisions
  {
    hide IsTranslation, LacksTranslation, AreLater, Translations, ToDict, Load, T.IsComplete;
    TranslatesFirst(chain[0], looks);
    assert chain[1] in chain[1..] && chain[1].stage in T.LATER_STAGES by {
      assert chain[1..][0] == chain[1];
      LaterStage(chain[1..]);
    }
    MissingTextIsFilled(chain[0], looks, ctx);
    env := Env(_ => false, _ => true, _ => false,
               (stage, c) => if stage == Translating && T.IsComplete(JudgeOf(looks, c), SegmentsOf(c)) then Some(c) else None);
    checkpoints := map[chain[1].stage := ToDict(saved)];
    var first := StageStep(env, chain[0], State(ctx, checkpoints, [])).value;
    LoadGivesBack(first.ctx, saved);
    var second := StageStep(env, chain[1], first).value;
    DecisionsAreKept(env, chain[1..][1..], second);
  }

  lemma LaterStage(chain: seq<Stage>)
    requires chain != [] && AreLater(chain)
    ensures chain[0].stage in T.LATER_STAGES
  {
  }

  /** So for a task whose translation checkpoint is gone, from a context without marks: changed
      text forces every later stage to be redone, whatever checkpoints survive, if and only if the
      languages differ or no text lacks a translation. */
  lemma OldAudioIsExcludedExactlyWhen(chain: seq<Stage>, looks: Looks, ctx: Context, saved: Context)
    requires |chain| > 1 && IsTranslation(chain[0], looks) && AreLater(chain[1..])
    requires Translating !in ctx.invalidated && chain[1].stage !in ctx.invalidated && chain[0].process(ctx).Some?
    requires chain[1].valid(saved.(userId := ctx.userId))
    ensures LanguagesDiffer(ctx) || !LacksTranslation(ctx)
       <==> forall env, checkpoints ::
              ReusesTranslations(env, looks) && !env.paused(Translating) && Translating !in checkpoints
              && Changes(env, chain[0], State(ctx, checkpoints, [])) ==>
                AllProcessed([], ChainRun(env, chain, State(ctx, checkpoints, [])).1.decisions)
  {
    hide ChainRun, Changes, IsTranslation, AreLater;
    if LanguagesDiffer(ctx) || !LacksTranslation(ctx) {
      forall env, checkpoints | ReusesTranslations(env, looks) && !env.paused(Translating) && Translating !in checkpoints
                                && Changes(env, chain[0], State(ctx, checkpoints, []))
        ensures AllProcessed([], ChainRun(env, chain, State(ctx, checkpoints, [])).1.decisions)
      {
        InputIsContext(env, chain[0], looks, State(ctx, checkpoints, []));
        ChangedTextIsNeverMixedWithOldAudio(env, chain, looks, State(ctx, checkpoints, []));
      }
    } else {
      var env, checkpoints := EqualLanguagesReuseOldAudio(chain, looks, ctx, saved);
      assert ChainRun(env, chain, State(ctx, checkpoints, [])).1.decisions[1] == Restored;
    }
  }

  lemma InputIsContext(env: Env, body: Stage, looks: Looks, state: State)
    requires IsTranslation(body, looks) && ReusesTranslations(env, looks) && Changes(env, body, state)
    requires Translating !in state.checkpoints && Translating !in state.ctx.invalidated
    ensures Input(env, Translating, state) == state.ctx
    ensures LanguagesDiffer(state.ctx) || LacksTranslation(state.ctx)
  {
    if !LanguagesDiffer(state.ctx) {
      assert !T.IsComplete(JudgeOf(looks, state.ctx), SegmentsOf(state.ctx));
      if SegmentsOf(state.ctx) != [] {
        var i :| 0 <= i < |SegmentsOf(state.ctx)| && T.NeedsTranslation(JudgeOf(looks, state.ctx), SegmentsOf(state.ctx)[i]);
      }
    }
  }

  /** Those marks are part of the checkpoint: a later run that restores the translation redoes
      everything after it again, even stages whose own checkpoints were written since. */
  lemma RestoredTranslationRedoesTheRest(env: Env, chain: seq<Stage>, state: State)
    requires chain != [] && !env.paused(chain[0].stage) && chain[0].stage == Translating && AreLater(chain[1..])
    requires Restore(env, chain[0], state).Some?
    requires T.LATER_STAGES <= Restore(env, chain[0], state).value.invalidated
    ensures AllProcessed(state.decisions + [Restored], ChainRun(env, chain, state).1.decisions)
  {
    hide Restore, Input, KeepsInvalidations, ToDict;
    MarkedStagesAreProcessed(env, chain[1..], StageStep(env, chain[0], state).value);
  }
}
