/** The services that write tasks: each call locks the row, checks the generation, and commits the
    transaction `TaskStore` describes. */
module TaskRuntime {
  import opened Numeric
  import opened PipelineTypes
  import opened Progress
  import opened StageRuns
  import opened TaskStore

  /** A task's keys in Redis. */
  datatype RuntimeKeys = RuntimeKeys(
    heartbeat: bool,
    workerLock: bool,
    suspectedAt: Option<int>,
    dispatchGuard: bool,
    reapLock: Option<nat>,
    resumeCount: nat,
    pauseRequested: bool)

  const NO_KEYS := RuntimeKeys(false, false, None, false, None, 0, false)

  /** A pause request outlives the task's other keys. */
  function Cleared(keys: RuntimeKeys): RuntimeKeys {
    NO_KEYS.(pauseRequested := keys.pauseRequested)
  }

  datatype Verdict = Ok | NotFound | StaleGeneration

  function VerdictOn(db: Db, id: TaskId, generation: Option<nat>): Verdict {
    if id !in db.tasks then NotFound
    else if Fenced(db.tasks[id], generation) then StaleGeneration
    else Ok
  }

  /** Nothing but the row of one task differs. */
  ghost predicate OnlyTask(before: Db, after: Db, id: TaskId) {
    id in after.tasks && after == before.(tasks := before.tasks[id := after.tasks[id]])
  }

  /** The row is still this generation's, or the caller claims none. */
  predicate IsCurrent(db: Db, id: TaskId, generation: Option<nat>) {
    id in db.tasks && (generation == None || generation == Some(db.tasks[id].generation))
  }

  ghost predicate IsCleared(before: RuntimeKeys, after: RuntimeKeys) {
    && !after.heartbeat && !after.workerLock && after.suspectedAt == None && !after.dispatchGuard && after.reapLock == None
    && after.resumeCount == 0 && after.pauseRequested == before.pauseRequested
  }

  /** Only the keys of one task differ, and of those only a pause request is left. */
  ghost predicate KeysCleared(before: map<TaskId, RuntimeKeys>, after: map<TaskId, RuntimeKeys>, id: TaskId) {
    && id in after && after == before[id := after[id]]
    && IsCleared(if id in before then before[id] else RuntimeKeys(false, false, None, false, None, 0, false), after[id])
  }

  /** The ledger differs in one stage, whose current attempt has become `last`. */
  ghost predicate LedgerWrites(before: Ledger, after: Ledger, stage: TaskStage, now: int, last: StageRun) {
    && stage in after && after == before[stage := after[stage]]
    && EndsWith(Runs(before, stage), after[stage], now, last)
  }

  /** The ledger a failing or pausing task is left with. */
  ghost predicate LedgerCloses(before: Ledger, after: Ledger, stage: Option<TaskStage>, now: int, status: RunStatus, errorCode: string) {
    match stage
    case None => after == before
    case Some(s) =>
      SoundRuns(Runs(before, s)) ==>
        LedgerWrites(before, after, s, now,
                     Current(Runs(before, s), now).(status := status, finishedAt := Some(now), errorCode := errorCode))
  }

  lemma BegunLedgerWrites(before: Ledger, stage: TaskStage, now: int)
    ensures SoundRuns(Runs(before, stage)) ==>
              LedgerWrites(before, before[stage := Begun(Runs(before, stage), now)], stage, now, Current(Runs(before, stage), now))
  {
    if SoundRuns(Runs(before, stage)) {
      BegunEnds(Runs(before, stage), now);
    }
  }

  lemma CountedLedgerWrites(before: Ledger, stage: TaskStage, now: int, itemsTotal: Option<int>, itemsDone: Option<int>)
    ensures SoundRuns(Runs(before, stage)) ==>
              CountsItems(before, before[stage := Counted(Runs(before, stage), now, itemsTotal, itemsDone)], stage, now,
                          itemsTotal, itemsDone)
  {
    hide Counted, Current, EndsWith, SoundRuns;
    if SoundRuns(Runs(before, stage)) {
      CountedEnds(Runs(before, stage), now, itemsTotal, itemsDone);
    }
  }

  lemma ClosedLedgerCloses(before: Ledger, stage: TaskStage, now: int, status: RunStatus, errorCode: string)
    ensures LedgerCloses(before, before[stage := Closed(Runs(before, stage), now, status, errorCode)], Some(stage), now, status, errorCode)
  {
    if SoundRuns(Runs(before, stage)) {
      ClosedEnds(Runs(before, stage), now, status, errorCode);
    }
  }

  predicate Goes(db: Db, id: TaskId, generation: Option<nat>, step: WorkerStep) {
    VerdictOn(db, id, generation) == Ok && Admits(db.tasks[id], generation, step)
  }

  /** The row holds these segments and speakers, and the language if one is known; only its last
      activity moves besides. */
  ghost predicate StoresContentOf(before: TaskRow, after: TaskRow, content: Content, now: int) {
    && after == before.(content := after.content, lastActivity := now)
    && after.content.segments == content.segments && after.content.speakers == content.speakers
    && (content.language != "" ==> after.content.language == content.language)
    && (content.language == "" ==> after.content.language == before.content.language)
  }

  /** The current attempt's counts are those reported, and as they were where nothing was. */
  ghost predicate CountsItems(before: Ledger, after: Ledger, stage: TaskStage, now: int, itemsTotal: Option<int>, itemsDone: Option<int>) {
    var current := Current(Runs(before, stage), now);
    LedgerWrites(before, after, stage, now,
                 current.(itemsTotal := if itemsTotal.Some? then itemsTotal else current.itemsTotal,
                          itemsDone := if itemsDone.Some? then itemsDone else current.itemsDone))
  }

  /** A completed task: the output and the last content, and its source only while it is kept. */
  ghost predicate IsCompletedFrom(before: TaskRow, after: TaskRow, content: Content, output: string, cleanUp: bool, now: int) {
    && after == before.(status := Completed, stage := Some(Mixing), progress := 100, output := output, error := "", pausedAt := None,
                        pauseReason := "", finishedAt := Some(now), lastActivity := now, content := after.content, source := after.source)
    && (if content.segments == [] && content.speakers == [] then after.content == before.content
        else StoresContentOf(before, before.(content := after.content, lastActivity := now), content, now))
    && after.source == (if cleanUp then "" else before.source)
  }

  /** The user has one unit less in use, if there is such a user and any in use; nobody else moves. */
  ghost predicate IsRefund(before: map<UserId, UserRow>, after: map<UserId, UserRow>, user: UserId) {
    if user !in before then after == before
    else user in after && after == before[user := before[user].(monthlyUsed := after[user].monthlyUsed)]
         && (if before[user].monthlyUsed >= 1 then after[user].monthlyUsed == before[user].monthlyUsed - 1
             else after[user].monthlyUsed == 0)
  }

  ghost predicate StopsAt(before: TaskRow, after: TaskRow, stage: Option<TaskStage>) {
    match stage
    case None => after.stage == before.stage && after.progress == before.progress
    case Some(s) =>
      && after.stage == stage && after.progress >= before.progress && after.progress >= StageStart(s)
      && (after.progress == before.progress || after.progress == StageStart(s))
  }

  /** A failed task and a paused one: the reason is kept, the attempt closed, and nothing else lost. */
  ghost predicate IsFailedFrom(before: TaskRow, after: TaskRow, stage: Option<TaskStage>, message: string, now: int) {
    && after == before.(status := Failed, ledger := after.ledger, stage := after.stage, progress := after.progress,
                        error := TruncateError(message), pausedAt := None, pauseReason := "", finishedAt := Some(now), lastActivity := now)
    && StopsAt(before, after, stage) && LedgerCloses(before.ledger, after.ledger, stage, now, RunFailed, "")
  }

  ghost predicate IsPausedFrom(before: TaskRow, after: TaskRow, stage: Option<TaskStage>, message: string, reason: string, now: int) {
    && after == before.(status := Paused, ledger := after.ledger, stage := after.stage, progress := after.progress,
                        error := TruncateError(message), pausedAt := Some(now), pauseReason := reason, finishedAt := None,
                        lastActivity := now)
    && StopsAt(before, after, stage) && LedgerCloses(before.ledger, after.ledger, stage, now, RunPaused, reason)
  }

  /** Postgres and Redis as the services see them. */
  class Backend {
    var db: Db
    var keys: map<TaskId, RuntimeKeys>

    constructor (db: Db, keys: map<TaskId, RuntimeKeys>)
      ensures this.db == db && this.keys == keys
    {
      this.db, this.keys := db, keys;
    }

    function KeysOf(id: TaskId): RuntimeKeys
      reads this`keys
    {
      if id in keys then keys[id] else NO_KEYS
    }

    method ClearRuntimeKeys(id: TaskId)
      modifies this`keys
      ensures keys == old(keys)[id := Cleared(old(KeysOf(id)))]
    {
      keys := keys[id := NO_KEYS.(pauseRequested := KeysOf(id).pauseRequested)];
    }

    method UpdateTask(id: TaskId, row: TaskRow)
      modifies this`db
      ensures db == old(db).(tasks := old(db).tasks[id := row])
    {
      db := db.(tasks := db.tasks[id := row]);
    }

    /** `refund_quota` and the refund of a failing task; a missing user is passed over. */
    method Refund(user: UserId)
      modifies this`db
      ensures db == old(db).(users := Refunded(old(db).users, user))
    {
      if user in db.users {
        var row := db.users[user];
        db := db.(users := db.users[user := row.(monthlyUsed := MaxInt(0, row.monthlyUsed - 1))]);
      }
    }
  }

  class TaskRuntimeService {
    const backend: Backend

    constructor (backend: Backend)
      ensures this.backend == backend
    {
      this.backend := backend;
    }

    method LockForUpdate(id: TaskId, generation: Option<nat>) returns (verdict: Verdict)
      ensures verdict == VerdictOn(backend.db, id, generation)
      ensures (verdict == NotFound <==> id !in backend.db.tasks) && (verdict == Ok <==> IsCurrent(backend.db, id, generation))
    {
      if id !in backend.db.tasks {
        return NotFound;
      }
      if generation.Some? && backend.db.tasks[id].generation != generation.value {
        return StaleGeneration;
      }
      verdict := Ok;
    }

    method MarkTaskProcessing(id: TaskId, force: bool, generation: Option<nat>, now: int) returns (verdict: Verdict)
      modifies backend`db
      ensures verdict == VerdictOn(old(backend.db), id, generation)
      ensures backend.db == Apply(old(backend.db), now, Worker(id, generation, Process(force)))
      ensures verdict == Ok <==> IsCurrent(old(backend.db), id, generation)
      ensures verdict != Ok || (IsTerminal(old(backend.db).tasks[id].status) && !force) ==> backend.db == old(backend.db)
      ensures verdict == Ok && (force || !IsTerminal(old(backend.db).tasks[id].status)) ==>
                OnlyTask(old(backend.db), backend.db, id)
                && var before, after := old(backend.db).tasks[id], backend.db.tasks[id];
                && before.progress <= after.progress && (before.progress >= 0 ==> after.progress == before.progress)
                && after == before.(status := Processing, stage := after.stage, progress := after.progress, error := "", pausedAt := None,
                                    pauseReason := "", lastActivity := now, output := after.output, finishedAt := after.finishedAt)
                && (before.stage.Some? ==> after.stage == before.stage) && (before.stage == None ==> after.stage == Some(Uploaded))
                && (force ==> after.output == "" && after.finishedAt == None)
                && (!force ==> after.output == before.output && after.finishedAt == before.finishedAt)
    {
      hide Begun, Counted, Closed, StageStart, OverallProgress, TruncateError;
      verdict := LockForUpdate(id, generation);
      if verdict != Ok {
        return;
      }
      var row := backend.db.tasks[id];
      if IsTerminal(row.status) && !force {
        return;
      }
      if row.stage == None {
        row := row.(stage := Some(Uploaded));
      }
      row := row.(status := Processing, progress := MaxInt(row.progress, 0), error := "", pausedAt := None, pauseReason := "",
                  lastActivity := now);
      if force {
        row := row.(output := "", finishedAt := None);
      }
      backend.UpdateTask(id, row);
    }

    method MarkStageStarted(id: TaskId, stage: TaskStage, generation: Option<nat>, now: int) returns (verdict: Verdict)
      modifies backend`db
      ensures verdict == VerdictOn(old(backend.db), id, generation)
      ensures backend.db == Apply(old(backend.db), now, Worker(id, generation, StartStage(stage)))
      ensures verdict == Ok <==> IsCurrent(old(backend.db), id, generation)
      ensures verdict != Ok || IsBlocked(old(backend.db).tasks[id].status) ==> backend.db == old(backend.db)
      ensures verdict == Ok && !IsBlocked(old(backend.db).tasks[id].status) ==>
                OnlyTask(old(backend.db), backend.db, id)
                && var before, after := old(backend.db).tasks[id], backend.db.tasks[id];
                && after == before.(ledger := after.ledger, status := Processing, stage := Some(stage), progress := after.progress,
                                    error := "", lastActivity := now)
                && after.progress >= before.progress && after.progress >= StageStart(stage)
                && (after.progress == before.progress || after.progress == StageStart(stage))
                && (SoundRuns(Runs(before.ledger, stage)) ==>
                      LedgerWrites(before.ledger, after.ledger, stage, now, Current(Runs(before.ledger, stage), now)))
    {
      hide Begun, Counted, Closed, StageStart, OverallProgress, TruncateError;
      verdict := LockForUpdate(id, generation);
      if verdict != Ok || IsBlocked(backend.db.tasks[id].status) {
        return;
      }
      var row := backend.db.tasks[id];
      var runs := new StageRunTable(row.ledger);
      BegunLedgerWrites(row.ledger, stage, now);
      runs.MarkStarted(stage, now);
      backend.UpdateTask(id, row.(ledger := runs.ledger, status := Processing, stage := Some(stage),
                                  progress := MaxInt(row.progress, StageStart(stage)), error := "", lastActivity := now));
    }

    method MarkStageProgress(id: TaskId, stage: TaskStage, percent: int, generation: Option<nat>, now: int)
      returns (verdict: Verdict)
      modifies backend`db
      ensures verdict == VerdictOn(old(backend.db), id, generation)
      ensures backend.db == Apply(old(backend.db), now, Worker(id, generation, AdvanceStage(stage, percent)))
      ensures verdict == Ok <==> IsCurrent(old(backend.db), id, generation)
      ensures verdict != Ok || IsBlocked(old(backend.db).tasks[id].status) ==> backend.db == old(backend.db)
      ensures verdict == Ok && !IsBlocked(old(backend.db).tasks[id].status) ==>
                OnlyTask(old(backend.db), backend.db, id)
                && var before, after := old(backend.db).tasks[id], backend.db.tasks[id];
                && after == before.(status := Processing, stage := Some(stage), progress := after.progress, lastActivity := now)
                && after.progress >= before.progress && after.progress >= OverallProgress(stage, percent)
                && (after.progress == before.progress || after.progress == OverallProgress(stage, percent))
    {
      hide Begun, Counted, Closed, StageStart, OverallProgress, TruncateError;
      verdict := LockForUpdate(id, generation);
      if verdict != Ok || IsBlocked(backend.db.tasks[id].status) {
        return;
      }
      var row := backend.db.tasks[id];
      var progress := OverallProgress(stage, percent);
      backend.UpdateTask(id, row.(status := Processing, stage := Some(stage), progress := MaxInt(row.progress, progress),
                                  lastActivity := now));
    }

    method MarkStageCompleted(id: TaskId, stage: TaskStage, generation: Option<nat>, now: int) returns (verdict: Verdict)
      modifies backend`db
      ensures verdict == VerdictOn(old(backend.db), id, generation)
      ensures backend.db == Apply(old(backend.db), now, Worker(id, generation, FinishStage(stage)))
      ensures verdict == Ok <==> IsCurrent(old(backend.db), id, generation)
      ensures verdict != Ok || IsBlocked(old(backend.db).tasks[id].status) ==> backend.db == old(backend.db)
      ensures verdict == Ok && !IsBlocked(old(backend.db).tasks[id].status) ==>
                OnlyTask(old(backend.db), backend.db, id)
                && var before, after := old(backend.db).tasks[id], backend.db.tasks[id];
                && after == before.(ledger := after.ledger, lastActivity := now)
                && LedgerCloses(before.ledger, after.ledger, Some(stage), now, RunCompleted, "")
    {
      hide Begun, Counted, Closed, StageStart, OverallProgress, TruncateError, ActiveRun, SoundRuns;
      verdict := LockForUpdate(id, generation);
      if verdict != Ok || IsBlocked(backend.db.tasks[id].status) {
        return;
      }
      var row := backend.db.tasks[id];
      var runs := new StageRunTable(row.ledger);
      ClosedLedgerCloses(row.ledger, stage, now, RunCompleted, "");
      runs.MarkFinished(stage, now, RunCompleted, "");
      backend.UpdateTask(id, row.(ledger := runs.ledger, lastActivity := now));
    }

    method MarkStageItemsProgress(id: TaskId, stage: TaskStage, itemsTotal: Option<int>, itemsDone: Option<int>,
                                  generation: Option<nat>, now: int)
      returns (verdict: Verdict)
      modifies backend`db
      ensures verdict == VerdictOn(old(backend.db), id, generation)
      ensures backend.db == Apply(old(backend.db), now, Worker(id, generation, CountItems(stage, itemsTotal, itemsDone)))
      ensures verdict == Ok <==> IsCurrent(old(backend.db), id, generation)
      ensures verdict != Ok || IsBlocked(old(backend.db).tasks[id].status) ==> backend.db == old(backend.db)
      ensures verdict == Ok && !IsBlocked(old(backend.db).tasks[id].status) ==>
                OnlyTask(old(backend.db), backend.db, id)
                && var before, after := old(backend.db).tasks[id], backend.db.tasks[id];
                && after == before.(ledger := after.ledger, lastActivity := now)
                && (SoundRuns(Runs(before.ledger, stage)) ==> CountsItems(before.ledger, after.ledger, stage, now, itemsTotal, itemsDone))
    {
      hide Begun, Counted, Closed, StageStart, OverallProgress, TruncateError;
      verdict := LockForUpdate(id, generation);
      if verdict != Ok || IsBlocked(backend.db.tasks[id].status) {
        return;
      }
      var row := backend.db.tasks[id];
      var runs := new StageRunTable(row.ledger);
      CountedLedgerWrites(row.ledger, stage, now, itemsTotal, itemsDone);
      runs.UpdateProgress(stage, now, itemsTotal, itemsDone);
      backend.UpdateTask(id, row.(ledger := runs.ledger, lastActivity := now));
    }

    method MarkAudioPrepared(id: TaskId, duration: real, generation: Option<nat>, now: int) returns (verdict: Verdict)
      modifies backend`db
      ensures verdict == VerdictOn(old(backend.db), id, generation)
      ensures backend.db == Apply(old(backend.db), now, Worker(id, generation, PrepareAudio(duration)))
      ensures verdict == Ok <==> IsCurrent(old(backend.db), id, generation)
      ensures verdict != Ok || (generation.Some? && IsBlocked(old(backend.db).tasks[id].status)) ==> backend.db == old(backend.db)
      ensures verdict == Ok && (generation == None || !IsBlocked(old(backend.db).tasks[id].status)) ==>
                OnlyTask(old(backend.db), backend.db, id)
                && backend.db.tasks[id] == old(backend.db).tasks[id].(audioDuration := duration, lastActivity := now)
    {
      hide Begun, Counted, Closed, StageStart, OverallProgress, TruncateError;
      verdict := LockForUpdate(id, generation);
      if verdict != Ok || (generation.Some? && IsBlocked(backend.db.tasks[id].status)) {
        return;
      }
      backend.UpdateTask(id, backend.db.tasks[id].(audioDuration := duration, lastActivity := now));
    }

    /** With nothing to persist the row is not even looked at, so no stale generation is noticed. */
    method PersistPipelineState(id: TaskId, content: Content, generation: Option<nat>, now: int) returns (verdict: Verdict)
      modifies backend`db
      ensures verdict == if content.segments == [] && content.speakers == [] then Ok
                         else VerdictOn(old(backend.db), id, generation)
      ensures backend.db == Apply(old(backend.db), now, Worker(id, generation, Persist(content)))
      ensures content.segments == [] && content.speakers == [] ==> verdict == Ok && backend.db == old(backend.db)
      ensures content.segments != [] || content.speakers != [] ==>
                && (verdict == Ok <==> IsCurrent(old(backend.db), id, generation))
                && (verdict != Ok ==> backend.db == old(backend.db))
                && (verdict == Ok ==>
                      OnlyTask(old(backend.db), backend.db, id)
                      && StoresContentOf(old(backend.db).tasks[id], backend.db.tasks[id], content, now))
    {
      if content.segments == [] && content.speakers == [] {
        return Ok;
      }
      verdict := LockForUpdate(id, generation);
      if verdict != Ok {
        return;
      }
      var row := backend.db.tasks[id];
      var language := if content.language != "" then content.language else row.content.language;
      backend.UpdateTask(id, row.(content := content.(language := language), lastActivity := now));
    }

    /** Three transactions: the last state of the pipeline, the completion, and the clean-up of
        what the finished task no longer needs, which checks no generation. */
    method MarkCompleted(id: TaskId, content: Content, output: string, generation: Option<nat>, cleanUp: bool, now: int)
      returns (verdict: Verdict)
      modifies backend
      ensures verdict == VerdictOn(old(backend.db), id, generation)
      ensures var persisted := Apply(old(backend.db), now, Worker(id, generation, Persist(content)));
              var completed := Apply(persisted, now, Worker(id, generation, Complete(output)));
              backend.db == (if cleanUp && Goes(persisted, id, generation, Complete(output))
                             then Apply(completed, now, CleanUp(id)) else completed)
              && backend.keys == (if Goes(persisted, id, generation, Complete(output))
                                  then old(backend.keys)[id := Cleared(old(backend.KeysOf(id)))] else old(backend.keys))
      ensures verdict == Ok <==> IsCurrent(old(backend.db), id, generation)
      ensures verdict != Ok ==> backend.db == old(backend.db) && backend.keys == old(backend.keys)
      ensures verdict == Ok ==> OnlyTask(old(backend.db), backend.db, id)
      ensures verdict == Ok && old(backend.db).tasks[id].status != Completed ==>
                && IsCompletedFrom(old(backend.db).tasks[id], backend.db.tasks[id], content, output, cleanUp, now)
                && KeysCleared(old(backend.keys), backend.keys, id)
      ensures verdict == Ok && old(backend.db).tasks[id].status == Completed ==>
                && backend.keys == old(backend.keys)
                && (if content.segments == [] && content.speakers == [] then backend.db == old(backend.db)
                    else StoresContentOf(old(backend.db).tasks[id], backend.db.tasks[id], content, now))
    {
      hide Stepped;
      verdict := PersistPipelineState(id, content, generation, now);
      if verdict != Ok {
        return;
      }
      verdict := LockForUpdate(id, generation);
      if verdict != Ok || backend.db.tasks[id].status == Completed {
        return;
      }
      FinishTask(id, output, now);
      if cleanUp {
        backend.UpdateTask(id, backend.db.tasks[id].(source := ""));
      }
    }

    method FinishTask(id: TaskId, output: string, now: int)
      requires id in backend.db.tasks
      modifies backend
      ensures OnlyTask(old(backend.db), backend.db, id)
      ensures backend.db.tasks[id] == Stepped(old(backend.db).tasks[id], Complete(output), now)
      ensures backend.db.tasks[id]
           == old(backend.db).tasks[id].(status := Completed, stage := Some(Mixing), progress := 100, output := output, error := "",
                                         pausedAt := None, pauseReason := "", finishedAt := Some(now), lastActivity := now)
      ensures backend.keys == old(backend.keys)[id := Cleared(old(backend.KeysOf(id)))]
    {
      var row := backend.db.tasks[id];
      backend.UpdateTask(id, row.(status := Completed, stage := Some(Mixing), progress := 100, output := output, error := "",
                                  pausedAt := None, pauseReason := "", finishedAt := Some(now), lastActivity := now));
      backend.ClearRuntimeKeys(id);
    }

    method MarkFailed(id: TaskId, stage: Option<TaskStage>, message: string, generation: Option<nat>, now: int)
      returns (verdict: Verdict)
      modifies backend
      ensures verdict == VerdictOn(old(backend.db), id, generation)
      ensures backend.db == Apply(old(backend.db), now, Worker(id, generation, Fail(stage, message)))
      ensures verdict == Ok <==> IsCurrent(old(backend.db), id, generation)
      ensures verdict != Ok || IsTerminal(old(backend.db).tasks[id].status) ==>
                backend.db == old(backend.db) && backend.keys == old(backend.keys)
      ensures verdict == Ok && !IsTerminal(old(backend.db).tasks[id].status) ==>
                KeysCleared(old(backend.keys), backend.keys, id)
                && OnlyTask(old(backend.db).(users := backend.db.users), backend.db, id)
                && var before, after := old(backend.db).tasks[id], backend.db.tasks[id];
                && IsRefund(old(backend.db).users, backend.db.users, before.user)
                && IsFailedFrom(before, after, stage, message, now)
      ensures backend.keys == if Goes(old(backend.db), id, generation, Fail(stage, message))
                              then old(backend.keys)[id := Cleared(old(backend.KeysOf(id)))] else old(backend.keys)
    {
      hide Begun, Counted, Closed, StageStart, OverallProgress, TruncateError;
      verdict := LockForUpdate(id, generation);
      if verdict != Ok || IsTerminal(backend.db.tasks[id].status) {
        return;
      }
      var row := backend.db.tasks[id];
      backend.Refund(row.user);
      if stage.Some? {
        var runs := new StageRunTable(row.ledger);
        ClosedLedgerCloses(row.ledger, stage.value, now, RunFailed, "");
        runs.MarkFinished(stage.value, now, RunFailed, "");
        row := row.(ledger := runs.ledger, stage := stage, progress := MaxInt(row.progress, StageStart(stage.value)));
      }
      backend.UpdateTask(id, row.(status := Failed, error := TruncateError(message), pausedAt := None, pauseReason := "",
                                  finishedAt := Some(now), lastActivity := now));
      backend.ClearRuntimeKeys(id);
    }

    method MarkPaused(id: TaskId, stage: Option<TaskStage>, message: string, reason: string, generation: Option<nat>, now: int)
      returns (verdict: Verdict)
      modifies backend
      ensures verdict == VerdictOn(old(backend.db), id, generation)
      ensures backend.db == Apply(old(backend.db), now, Worker(id, generation, Pause(stage, message, reason)))
      ensures verdict == Ok <==> IsCurrent(old(backend.db), id, generation)
      ensures verdict != Ok || IsTerminal(old(backend.db).tasks[id].status) ==>
                backend.db == old(backend.db) && backend.keys == old(backend.keys)
      ensures verdict == Ok && !IsTerminal(old(backend.db).tasks[id].status) ==>
                KeysCleared(old(backend.keys), backend.keys, id)
                && OnlyTask(old(backend.db).(users := backend.db.users), backend.db, id)
                && var before, after := old(backend.db).tasks[id], backend.db.tasks[id];
                && backend.db.users == old(backend.db).users
                && IsPausedFrom(before, after, stage, message, reason, now)
      ensures backend.keys == if Goes(old(backend.db), id, generation, Pause(stage, message, reason))
                              then old(backend.keys)[id := Cleared(old(backend.KeysOf(id)))] else old(backend.keys)
    {
      hide Begun, Counted, Closed, StageStart, OverallProgress, TruncateError;
      verdict := LockForUpdate(id, generation);
      if verdict != Ok || IsTerminal(backend.db.tasks[id].status) {
        return;
      }
      var row := backend.db.tasks[id];
      if stage.Some? {
        var runs := new StageRunTable(row.ledger);
        ClosedLedgerCloses(row.ledger, stage.value, now, RunPaused, reason);
        runs.MarkFinished(stage.value, now, RunPaused, reason);
        row := row.(ledger := runs.ledger, stage := stage, progress := MaxInt(row.progress, StageStart(stage.value)));
      }
      backend.UpdateTask(id, row.(status := Paused, error := TruncateError(message), pausedAt := Some(now),
                                  pauseReason := reason, finishedAt := None, lastActivity := now));
      backend.ClearRuntimeKeys(id);
    }
  }

  datatype Creation = Created | TooManyActive | NoSuchUser | QuotaExceeded | UploadFailed | DispatchFailed

  datatype Resumption = Queued | NoSuchTask | NotPaused | SourceMissing | QueueDown

  function ActiveTasks(db: Db, user: UserId): (active: set<TaskId>)
    ensures forall id :: id in active ==> id in db.tasks && db.tasks[id].user == user && db.tasks[id].status in {Pending, Processing}
    ensures forall id :: id in db.tasks && db.tasks[id].user == user && db.tasks[id].status in {Pending, Processing} ==> id in active
  {
    set id | id in db.tasks.Keys && db.tasks[id].user == user
           && (db.tasks[id].status == Pending || db.tasks[id].status == Processing)
  }

  /** A task as it is queued for the first time. */
  ghost predicate IsNewTask(row: TaskRow, user: UserId, source: string, now: int) {
    && row.user == user && row.status == Pending && row.stage == Some(Uploaded) && row.progress == 0 && row.generation == 0
    && row.lastActivity == now && row.source == source && row.output == "" && row.error == "" && row.pauseReason == ""
    && row.pausedAt == None && row.finishedAt == None && row.ledger == map[] && row.content == Content([], [], "")
  }

  class TaskService {
    const backend: Backend

    constructor (backend: Backend)
      ensures this.backend == backend
    {
      this.backend := backend;
    }

    /** Consumes quota before anything else, and gives it back when the upload or the dispatch
        fails. `drops` says whether removing the row after a failed dispatch succeeds. */
    method CreateTask(user: UserId, id: TaskId, activeLimit: int, source: string,
                      uploads: bool, dispatches: bool, drops: bool, now: int)
      returns (outcome: Creation)
      requires id !in backend.db.issued && SoundDb(backend.db)
      requires user in backend.db.users ==> backend.db.users[user].monthlyUsed >= 0
      modifies backend`db
      ensures SoundDb(backend.db)
      ensures outcome == TooManyActive <==> activeLimit > 0 && |ActiveTasks(old(backend.db), user)| >= activeLimit
      ensures outcome in {TooManyActive, NoSuchUser, QuotaExceeded} ==> backend.db == old(backend.db)
      ensures outcome != TooManyActive ==>
                var users := old(backend.db).users;
                && (outcome == NoSuchUser <==> user !in users)
                && (outcome == QuotaExceeded <==> user in users && users[user].monthlyUsed + 1 > users[user].monthlyQuota)
                && (outcome !in {NoSuchUser, QuotaExceeded} ==>
                      && (outcome == UploadFailed <==> !uploads) && (outcome == DispatchFailed <==> uploads && !dispatches)
                      && (outcome == Created <==> uploads && dispatches))
      ensures outcome == Created ==> id in backend.db.tasks && IsNewTask(backend.db.tasks[id], user, source, now)
      ensures outcome == Created ==>
                && user in old(backend.db).users
                && backend.db.tasks == old(backend.db).tasks[id := NewRow(user, source, now)]
                && backend.db.users == old(backend.db).users[user :=
                     old(backend.db).users[user].(monthlyUsed := old(backend.db).users[user].monthlyUsed + 1)]
      ensures outcome in {UploadFailed, DispatchFailed} ==> backend.db.users == old(backend.db).users
      ensures outcome == UploadFailed || (outcome == DispatchFailed && drops) ==> backend.db.tasks == old(backend.db).tasks
      ensures outcome == DispatchFailed && !drops ==> backend.db.tasks == old(backend.db).tasks[id := NewRow(user, source, now)]
      ensures backend.db.uploads == old(backend.db).uploads && backend.db.dropped == old(backend.db).dropped
    {
      NewRowIs(user, source, now);
      if activeLimit > 0 && |ActiveTasks(backend.db, user)| >= activeLimit {
        return TooManyActive;
      }
      if user !in backend.db.users {
        return NoSuchUser;
      }
      if backend.db.users[user].monthlyUsed + 1 > backend.db.users[user].monthlyQuota {
        return QuotaExceeded;
      }
      outcome := Upload(user, id, source, uploads, dispatches, drops, now);
    }

    method Upload(user: UserId, id: TaskId, source: string, uploads: bool, dispatches: bool, drops: bool, now: int)
      returns (outcome: Creation)
      requires CanBegin(backend.db, id, user)
      modifies backend`db
      ensures SoundDb(backend.db)
      ensures outcome == if !uploads then UploadFailed else if !dispatches then DispatchFailed else Created
      ensures var before := old(backend.db).(issued := old(backend.db).issued + {id});
              var inserted := before.(tasks := before.tasks[id := NewRow(user, source, now)]);
              backend.db == if !uploads then before
                            else if dispatches then inserted.(users := OneMore(before.users, user))
                            else if drops then before else inserted
    {
      hide SoundDb, ApplyUser, CanBegin, OneMore;
      ghost var before := backend.db;
      UploadPaths(before, id, user, source, now);
      Commit(BeginUpload(id, user), now);
      if !uploads {
        Commit(AbandonUpload(id), now);
        return UploadFailed;
      }
      Commit(InsertTask(id, source), now);
      if !dispatches {
        if drops {
          Commit(DropTask(id), now);
          Commit(RefundDropped(id), now);
        } else {
          Commit(RefundKeepingTask(id), now);
        }
        return DispatchFailed;
      }
      outcome := Created;
    }

    method Commit(txn: Txn, now: int)
      requires SoundDb(backend.db) && !txn.Worker?
      modifies backend`db
      ensures SoundDb(backend.db) && backend.db == ApplyUser(old(backend.db), now, txn)
    {
      ApplyIsSound(backend.db, now, txn);
      backend.db := ApplyUser(backend.db, now, txn);
    }

    /** Clears every runtime key before the new generation is assigned. */
    method ResumeTask(id: TaskId, user: UserId, dispatched: bool, now: int) returns (outcome: Resumption)
      modifies backend
      ensures backend.db == Apply(old(backend.db), now, Resume(id, user, dispatched))
      ensures outcome == NoSuchTask <==> id !in old(backend.db).tasks || old(backend.db).tasks[id].user != user
      ensures outcome != NoSuchTask ==>
                var before := old(backend.db).tasks[id];
                && (outcome == NotPaused <==> before.status != Paused)
                && (outcome == SourceMissing <==> before.status == Paused && before.source == "")
                && (outcome in {Queued, QueueDown} ==>
                      OnlyTask(old(backend.db), backend.db, id)
                      && var after := backend.db.tasks[id];
                      && after == before.(status := after.status, generation := before.generation + 1, error := after.error,
                                          pausedAt := after.pausedAt, pauseReason := "", finishedAt := None, lastActivity := now)
                      && (dispatched ==> after.status == Pending && after.error == "" && after.pausedAt == None)
                      && (!dispatched ==> after.status == Paused && after.error == QUEUE_UNAVAILABLE && after.pausedAt == Some(now))
                      && id in backend.keys && backend.keys[id] == RuntimeKeys(false, false, None, false, None, 0, false))
      ensures outcome in {Queued, QueueDown} <==> backend.db != old(backend.db)
      ensures outcome in {Queued, QueueDown} ==>
                && old(backend.db).tasks[id].status == Paused && outcome == (if dispatched then Queued else QueueDown)
                && backend.db.tasks[id].generation == old(backend.db).tasks[id].generation + 1
                && backend.keys == old(backend.keys)[id := NO_KEYS]
      ensures outcome !in {Queued, QueueDown} ==> backend.keys == old(backend.keys)
    {
      if id !in backend.db.tasks || backend.db.tasks[id].user != user {
        return NoSuchTask;
      }
      var row := backend.db.tasks[id];
      if row.status != Paused {
        return NotPaused;
      }
      if row.source == "" {
        return SourceMissing;
      }
      backend.keys := backend.keys[id := NO_KEYS];
      row := row.(status := Pending, generation := row.generation + 1, error := "", pausedAt := None, pauseReason := "",
                  finishedAt := None, lastActivity := now);
      backend.UpdateTask(id, row);
      outcome := Queued;
      if !dispatched {
        backend.UpdateTask(id, row.(status := Paused, pausedAt := Some(now), error := QUEUE_UNAVAILABLE));
        outcome := QueueDown;
      }
      assert backend.db.tasks[id].generation != old(backend.db).tasks[id].generation;
    }

    /** Only leaves a flag; the task keeps running until it next looks. */
    method RequestPause(id: TaskId, user: UserId) returns (accepted: bool)
      modifies backend`keys
      ensures accepted <==> id in backend.db.tasks && backend.db.tasks[id].user == user
                            && (backend.db.tasks[id].status == Pending || backend.db.tasks[id].status == Processing)
      ensures backend.keys == if accepted then old(backend.keys)[id := old(backend.KeysOf(id)).(pauseRequested := true)]
                              else old(backend.keys)
    {
      accepted := id in backend.db.tasks && backend.db.tasks[id].user == user
                  && (backend.db.tasks[id].status == Pending || backend.db.tasks[id].status == Processing);
      if accepted {
        backend.keys := backend.keys[id := backend.KeysOf(id).(pauseRequested := true)];
      }
    }

    /** The pipeline's look at the flag, which takes it down: one request pauses one run. */
    method RaiseIfUserPaused(id: TaskId) returns (paused: bool)
      modifies backend`keys
      ensures paused == old(backend.KeysOf(id)).pauseRequested && !backend.KeysOf(id).pauseRequested
      ensures backend.KeysOf(id) == old(backend.KeysOf(id)).(pauseRequested := false)
    {
      paused := backend.KeysOf(id).pauseRequested;
      if paused {
        backend.keys := backend.keys[id := backend.KeysOf(id).(pauseRequested := false)];
      }
    }

    /** A running task is refused; the worker would go on writing. Quota is not given back. */
    method DeleteTask(id: TaskId, user: UserId, now: int) returns (deleted: bool)
      modifies backend
      ensures backend.db == Apply(old(backend.db), now, Delete(id, user))
      ensures deleted <==> backend.db != old(backend.db)
      ensures deleted <==> id in old(backend.db).tasks && old(backend.db).tasks[id].user == user
                           && old(backend.db).tasks[id].status in {Paused, Completed, Failed}
      ensures deleted ==> backend.db == old(backend.db).(tasks := old(backend.db).tasks - {id})
      ensures backend.keys == if deleted then old(backend.keys)[id := NO_KEYS] else old(backend.keys)
    {
      if id !in backend.db.tasks || backend.db.tasks[id].user != user {
        return false;
      }
      var status := backend.db.tasks[id].status;
      if status == Pending || status == Processing {
        return false;
      }
      backend.keys := backend.keys[id := NO_KEYS];
      backend.db := backend.db.(tasks := backend.db.tasks - {id});
      assert id !in backend.db.tasks;
      deleted := true;
    }
  }

  ghost predicate CanBegin(db: Db, id: TaskId, user: UserId) {
    && SoundDb(db) && id !in db.issued && user in db.users
    && 0 <= db.users[user].monthlyUsed && db.users[user].monthlyUsed + 1 <= db.users[user].monthlyQuota
  }

  function OneMore(users: map<UserId, UserRow>, user: UserId): map<UserId, UserRow>
    requires user in users
  {
    users[user := users[user].(monthlyUsed := users[user].monthlyUsed + 1)]
  }

  lemma RefundRestores(users: map<UserId, UserRow>, user: UserId)
    requires user in users && users[user].monthlyUsed >= 0
    ensures Refunded(OneMore(users, user), user) == users
  {
  }

  /** Where each way through an upload ends. */
  lemma UploadPaths(db: Db, id: TaskId, user: UserId, source: string, now: int)
    requires CanBegin(db, id, user)
    ensures SoundDb(db) && user in db.users
    ensures var begun := ApplyUser(db, now, BeginUpload(id, user));
            var inserted := ApplyUser(begun, now, InsertTask(id, source));
            var known := db.(issued := db.issued + {id});
            && ApplyUser(begun, now, AbandonUpload(id)) == known
            && inserted == known.(tasks := known.tasks[id := NewRow(user, source, now)], users := OneMore(known.users, user))
            && ApplyUser(ApplyUser(inserted, now, DropTask(id)), now, RefundDropped(id)) == known
            && ApplyUser(inserted, now, RefundKeepingTask(id)) == inserted.(users := known.users)
  {
    hide NewRow, SoundRow;
    RefundRestores(db.users, user);
    assert db.uploads[id := user] - {id} == db.uploads;
    assert db.tasks[id := NewRow(user, source, now)] - {id} == db.tasks;
    assert db.dropped[id := user] - {id} == db.dropped;
    NewRowIs(user, source, now);
  }

  lemma NewRowIs(user: UserId, source: string, now: int)
    ensures NewRow(user, source, now).user == user && IsNewTask(NewRow(user, source, now), user, source, now)
  {
  }
}
