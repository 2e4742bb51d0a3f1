/** One delivery of a pipeline task to a worker: what lets it run, what it writes, and how its end
    is recorded. */
module WorkerTask {
  import opened Numeric
  import opened PipelineTypes
  import opened Progress
  import opened StageRuns
  import opened TaskStore
  import opened TaskRuntime
  import opened TaskLiveness

  /** Where an interrupted task takes up again; before separation there is nothing to reuse. */
  function ResolveResumeStage(current: Option<TaskStage>): (stage: TaskStage)
    ensures stage != Uploaded && stage != Preparing
    ensures current.Some? && current.value != Uploaded && current.value != Preparing ==> stage == current.value
    ensures current in {None, Some(Uploaded), Some(Preparing)} ==> stage == Separating
  {
    match current
    case None => Separating
    case Some(stage) => if stage == Uploaded || stage == Preparing then Separating else stage
  }

  const RESUMABLE_MARKERS: seq<string> := ["SoftTimeLimitExceeded", "WorkerLostError"]

  predicate StandsAt(message: string, marker: string, i: int) {
    0 <= i <= |message| - |marker| && message[i..i + |marker|] == marker
  }

  predicate Contains(message: string, marker: string) {
    exists i :: 0 <= i <= |message| && StandsAt(message, marker, i)
  }

  predicate IsResumableFailure(message: string) {
    exists k :: 0 <= k < |RESUMABLE_MARKERS| && Contains(message, RESUMABLE_MARKERS[k])
  }

  lemma ContainsMeansInside(message: string, marker: string)
    ensures Contains(message, marker) <==> exists before: string, after: string :: message == before + marker + after
  {
    if Contains(message, marker) {
      var i :| 0 <= i <= |message| && StandsAt(message, marker, i);
      assert message == message[..i] + marker + message[i + |marker|..];
    }
    if before: string, after: string :| message == before + marker + after {
      assert StandsAt(message, marker, |before|);
    }
  }

  /** A failure can be resumed exactly when its message names a time limit or a lost worker. */
  lemma ResumableMessages(message: string)
    ensures IsResumableFailure(message) <==>
              ((exists before: string, after: string :: message == before + "SoftTimeLimitExceeded" + after)
               || (exists before: string, after: string :: message == before + "WorkerLostError" + after))
  {
    hide Contains;
    var limit, lost := RESUMABLE_MARKERS[0], RESUMABLE_MARKERS[1];
    ContainsMeansInside(message, limit);
    ContainsMeansInside(message, lost);
    assert IsResumableFailure(message) <==> Contains(message, limit) || Contains(message, lost);
  }

  /** What happens while the pipeline runs: its hooks write, others commit, or the lease is lost. */
  datatype Happening = Mine(step: WorkerStep) | Theirs(txn: Txn) | LeaseLost

  /** What others commit before that: between the two looks at the task, and between the second
      look and the first write. */
  datatype Meanwhile = Meanwhile(beforeLease: seq<Txn>, beforeStart: seq<Txn>, script: seq<Happening>)

  const NO_OUTPUT := "Pipeline completed without output audio URL."

  datatype Ending =
    | Finished(content: Content, output: string, lastStage: Option<TaskStage>)
    | Halted(stage: Option<TaskStage>, message: string, reason: string)
    | Broke(stage: Option<TaskStage>, message: string)

  datatype Report = Missing | Stale | Duplicate | Terminal | StillPaused | Ran

  /** A transaction this delivery may have committed itself. */
  predicate IsOwn(txn: Txn, id: TaskId, generation: nat) {
    (txn.Worker? && txn.id == id && txn.generation == Some(generation)) || txn == CleanUp(id)
  }

  predicate IsForeign(txn: Txn, others: Meanwhile) {
    txn in others.beforeLease || txn in others.beforeStart || Theirs(txn) in others.script
  }

  predicate OwnOrForeign(txn: Txn, id: TaskId, generation: nat, others: Meanwhile) {
    IsOwn(txn, id, generation) || IsForeign(txn, others)
  }

  ghost predicate Stamped(history: seq<Timed>, id: TaskId, generation: nat, others: Meanwhile) {
    forall k :: 0 <= k < |history| ==> OwnOrForeign(history[k].txn, id, generation, others)
  }

  function Commits(now: int, txns: seq<Txn>): seq<Timed> {
    seq(|txns|, k requires 0 <= k < |txns| => Timed(now, txns[k]))
  }

  lemma ReplayOneMore(db: Db, history: seq<Timed>, now: int, txn: Txn)
    ensures Replay(db, history + [Timed(now, txn)]) == Apply(Replay(db, history), now, txn)
  {
    hide Apply;
    ReplayAppends(db, history, [Timed(now, txn)]);
    assert [Timed(now, txn)][1..] == [];
    assert Replay(Apply(Replay(db, history), now, txn), []) == Apply(Replay(db, history), now, txn);
  }

  // ----- What a delivery leaves behind -----

  /** What a script writes when nothing stops it: its hooks' steps under this generation, and what
      others commit in between. */
  function Logged(script: seq<Happening>, id: TaskId, generation: nat, now: int): seq<Timed> {
    if script == [] then []
    else
      Logged(script[..|script| - 1], id, generation, now) + Written(script[|script| - 1], id, generation, now)
  }

  function Written(happening: Happening, id: TaskId, generation: nat, now: int): seq<Timed> {
    match happening
    case Mine(step) => [Timed(now, Worker(id, Some(generation), step))]
    case Theirs(txn) => [Timed(now, txn)]
    case LeaseLost => []
  }

  lemma LoggedOneMore(script: seq<Happening>, k: nat, id: TaskId, generation: nat, now: int)
    requires k < |script|
    ensures Logged(script[..k + 1], id, generation, now)
         == Logged(script[..k], id, generation, now) + Written(script[k], id, generation, now)
  {
    assert script[..k + 1][..k] == script[..k];
  }

  lemma NothingLogged(id: TaskId, generation: nat, now: int)
    ensures Logged([], id, generation, now) == []
  {
  }

  lemma {:induction false} LoggedIsStamped(others: Meanwhile, n: nat, id: TaskId, generation: nat, now: int)
    requires n <= |others.script|
    ensures Stamped(Logged(others.script[..n], id, generation, now), id, generation, others)
  {
    if n > 0 {
      LoggedIsStamped(others, n - 1, id, generation, now);
      assert others.script[..n][..n - 1] == others.script[..n - 1];
      assert others.script[n - 1] in others.script;
    }
  }

  lemma StampedJoin(first: seq<Timed>, second: seq<Timed>, id: TaskId, generation: nat, others: Meanwhile)
    requires Stamped(first, id, generation, others) && Stamped(second, id, generation, others)
    ensures Stamped(first + second, id, generation, others)
  {
    hide OwnOrForeign;
  }

  lemma OwnIsStamped(before: seq<Timed>, after: seq<Timed>, id: TaskId, generation: nat, others: Meanwhile)
    requires Stamped(before, id, generation, others) && before <= after
    requires forall k :: |before| <= k < |after| ==> IsOwn(after[k].txn, id, generation)
    ensures Stamped(after, id, generation, others)
  {
    hide IsOwn;
  }

  ghost predicate RecordsFailure(before: Db, after: Db, id: TaskId, stage: Option<TaskStage>, message: string, now: int)
    requires id in before.tasks
  {
    if before.tasks[id].status in {Completed, Failed} then after == before
    else
      && OnlyTask(before.(users := after.users), after, id)
      && IsRefund(before.users, after.users, before.tasks[id].user)
      && IsFailedFrom(before.tasks[id], after.tasks[id], stage, message, now)
  }

  ghost predicate RecordsPause(before: Db, after: Db, id: TaskId, stage: Option<TaskStage>, message: string, reason: string, now: int)
    requires id in before.tasks
  {
    if before.tasks[id].status in {Completed, Failed} then after == before
    else OnlyTask(before, after, id) && IsPausedFrom(before.tasks[id], after.tasks[id], stage, message, reason, now)
  }

  ghost predicate RecordsCompletion(before: Db, after: Db, id: TaskId, content: Content, output: string, cleanUp: bool, now: int)
    requires id in before.tasks
  {
    if before.tasks[id].status != Completed then
      OnlyTask(before, after, id) && IsCompletedFrom(before.tasks[id], after.tasks[id], content, output, cleanUp, now)
    else if content.segments == [] && content.speakers == [] then after == before
    else OnlyTask(before, after, id) && StoresContentOf(before.tasks[id], after.tasks[id], content, now)
  }

  /** How the end of a pipeline shows: a task of this generation that is not final yet is completed
      with its output, paused with its reason, or failed with one refund; an end without output is a
      failure. */
  ghost predicate RecordsEnd(before: Db, after: Db, id: TaskId, generation: nat, ending: Ending, cleanUp: bool, now: int) {
    && id in before.tasks && before.tasks[id].generation == generation
    && match ending
       case Finished(content, output, lastStage) =>
         if output == "" then RecordsFailure(before, after, id, lastStage, NO_OUTPUT, now)
         else RecordsCompletion(before, after, id, content, output, cleanUp, now)
       case Halted(stage, message, reason) => RecordsPause(before, after, id, stage, message, reason, now)
       case Broke(stage, message) => RecordsFailure(before, after, id, stage, message, now)
  }

  lemma PauseIsRecorded(db: Db, id: TaskId, generation: nat, stage: Option<TaskStage>, message: string, reason: string, now: int)
    requires IsCurrent(db, id, Some(generation))
    ensures RecordsPause(db, Apply(db, now, Worker(id, Some(generation), Pause(stage, message, reason))), id, stage, message, reason, now)
  {
    hide Closed, Current, StageStart, TruncateError;
    if stage.Some? {
      ClosedLedgerCloses(db.tasks[id].ledger, stage.value, now, RunPaused, reason);
    }
  }

  lemma FailureIsRecorded(db: Db, id: TaskId, generation: nat, stage: Option<TaskStage>, message: string, now: int)
    requires IsCurrent(db, id, Some(generation))
    ensures RecordsFailure(db, Apply(db, now, Worker(id, Some(generation), Fail(stage, message))), id, stage, message, now)
  {
    hide Closed, Current, StageStart, TruncateError;
    if stage.Some? {
      ClosedLedgerCloses(db.tasks[id].ledger, stage.value, now, RunFailed, "");
    }
  }

  lemma EndIsRecorded(db: Db, id: TaskId, generation: nat, ending: Ending, now: int)
    ensures IsCurrent(db, id, Some(generation)) && ending.Halted? ==>
              RecordsPause(db, Apply(db, now, Worker(id, Some(generation), Pause(ending.stage, ending.message, ending.reason))),
                           id, ending.stage, ending.message, ending.reason, now)
    ensures forall stage, message :: IsCurrent(db, id, Some(generation)) ==>
              RecordsFailure(db, Apply(db, now, Worker(id, Some(generation), Fail(stage, message))), id, stage, message, now)
  {
    hide Apply, RecordsFailure, RecordsPause;
    if IsCurrent(db, id, Some(generation)) {
      if ending.Halted? {
        PauseIsRecorded(db, id, generation, ending.stage, ending.message, ending.reason, now);
      }
      forall stage, message
        ensures RecordsFailure(db, Apply(db, now, Worker(id, Some(generation), Fail(stage, message))), id, stage, message, now)
      {
        FailureIsRecorded(db, id, generation, stage, message, now);
      }
    }
  }

  class PipelineWorker {
    const backend: Backend
    const redis: Redis
    const service: TaskRuntimeService
    ghost var start: Db
    ghost var history: seq<Timed>

    constructor (backend: Backend, redis: Redis)
      ensures this.backend == backend && this.redis == redis && service.backend == backend
    {
      this.backend, this.redis := backend, redis;
      service := new TaskRuntimeService(backend);
      start, history := backend.db, [];
    }

    /** The database is what the recorded history makes of the one this delivery found. */
    ghost predicate Recorded()
      reads this, backend
    {
      service.backend == backend && backend.db == Replay(start, history)
    }

    ghost method Record(now: int, txn: Txn)
      requires service.backend == backend && backend.db == Apply(Replay(start, history), now, txn)
      modifies this`history
      ensures Recorded() && history == old(history) + [Timed(now, txn)]
    {
      hide Apply;
      ReplayOneMore(start, history, now, txn);
      history := history + [Timed(now, txn)];
    }

    /** Hands one write to the service, stamped with the generation. */
    method Write(id: TaskId, generation: nat, step: WorkerStep, now: int) returns (verdict: Verdict)
      requires Recorded() && !step.Complete?
      modifies this`history, backend
      ensures Recorded() && history == old(history) + [Timed(now, Worker(id, Some(generation), step))]
      ensures backend.db == Apply(old(backend.db), now, Worker(id, Some(generation), step))
      ensures !step.Persist? ==> (verdict == Ok <==> IsCurrent(old(backend.db), id, Some(generation)))
    {
      hide Apply;
      var g := Some(generation);
      match step {
        case Process(force) => verdict := service.MarkTaskProcessing(id, force, g, now);
        case StartStage(stage) => verdict := service.MarkStageStarted(id, stage, g, now);
        case AdvanceStage(stage, percent) => verdict := service.MarkStageProgress(id, stage, percent, g, now);
        case FinishStage(stage) => verdict := service.MarkStageCompleted(id, stage, g, now);
        case CountItems(stage, total, done) => verdict := service.MarkStageItemsProgress(id, stage, total, done, g, now);
        case PrepareAudio(duration) => verdict := service.MarkAudioPrepared(id, duration, g, now);
        case Persist(content) => verdict := service.PersistPipelineState(id, content, g, now);
        case Fail(stage, message) => verdict := service.MarkFailed(id, stage, message, g, now);
        case Pause(stage, message, reason) => verdict := service.MarkPaused(id, stage, message, reason, g, now);
      }
      Record(now, Worker(id, g, step));
    }

    /** Completion persists, completes and may clean up, in transactions of their own. */
    method WriteCompletion(id: TaskId, generation: nat, content: Content, output: string, cleanUp: bool, now: int)
      returns (verdict: Verdict)
      requires Recorded()
      modifies this`history, backend
      ensures Recorded() && old(history) <= history
      ensures forall k :: |old(history)| <= k < |history| ==> IsOwn(history[k].txn, id, generation)
      ensures verdict == Ok <==> IsCurrent(old(backend.db), id, Some(generation))
      ensures verdict != Ok ==> backend.db == old(backend.db)
      ensures verdict == Ok ==> RecordsCompletion(old(backend.db), backend.db, id, content, output, cleanUp, now)
    {
      hide Stepped, Admits, Refunded, StoresContentOf, IsCompletedFrom, OnlyTask, KeysCleared;
      ghost var before, g := backend.db, Some(generation);
      verdict := service.MarkCompleted(id, content, output, Some(generation), cleanUp, now);
      ghost var after := backend.db;
      ghost var persist, complete := Worker(id, g, Persist(content)), Worker(id, g, Complete(output));
      ghost var persisted := Apply(before, now, persist);
      ghost var completed := Apply(persisted, now, complete);
      ReplayOneMore(start, history, now, persist);
      history := history + [Timed(now, persist)];
      ReplayOneMore(start, history, now, complete);
      history := history + [Timed(now, complete)];
      if after != completed {
        ReplayOneMore(start, history, now, CleanUp(id));
        history := history + [Timed(now, CleanUp(id))];
      }
    }

    /** The pipeline at work. Before each write the hooks look at the lease; a lost lease or a
        stale generation ends the run there. */
    method Work(id: TaskId, generation: nat, owner: string, others: Meanwhile, now: int) returns (superseded: bool, ghost n: nat)
      requires Recorded() && forall h <- others.script :: h.Mine? ==> !h.step.Complete?
      modifies this`history, backend, redis
      ensures Recorded() && n <= |others.script|
      ensures !superseded ==> n == |others.script|
      ensures superseded ==> n > 0 && others.script[n - 1].Mine?
      ensures history == old(history) + Logged(others.script[..n], id, generation, now)
              || (superseded && history == old(history) + Logged(others.script[..n - 1], id, generation, now))
    {
      hide Apply, Logged;
      NothingLogged(id, generation, now);
      var script := others.script;
      superseded := false;
      n := 0;
      for k := 0 to |script|
        invariant n == k && Recorded()
        invariant history == old(history) + Logged(script[..k], id, generation, now)
      {
        LoggedOneMore(script, k, id, generation, now);
        n := k + 1;
        match script[k] {
          case LeaseLost => redis.store := redis.store - {LockKey(id)};
          case Theirs(txn) =>
            backend.db := Apply(backend.db, now, txn);
            Record(now, txn);
          case Mine(step) =>
            assert script[k] in script;
            if !HoldsLock(redis.store, id, owner) {
              return true, n;
            }
            var verdict := Write(id, generation, step, now);
            if verdict != Ok {
              return true, n;
            }
        }
      }
      assert script[..|script|] == script;
    }

    /** How the end of the pipeline is recorded: completed, paused or failed, each under the same
        generation, and not at all once that is stale. */
    method Conclude(id: TaskId, generation: nat, ending: Ending, cleanUp: bool, now: int) returns (verdict: Verdict)
      requires Recorded()
      modifies this`history, backend
      ensures Recorded() && old(history) <= history
      ensures forall k :: |old(history)| <= k < |history| ==> IsOwn(history[k].txn, id, generation)
      ensures verdict == Ok <==> IsCurrent(old(backend.db), id, Some(generation))
      ensures verdict == Ok ==> RecordsEnd(old(backend.db), backend.db, id, generation, ending, cleanUp, now)
    {
      hide Apply, RecordsFailure, RecordsPause, RecordsCompletion;
      EndIsRecorded(backend.db, id, generation, ending, now);
      match ending {
        case Finished(content, output, lastStage) =>
          if output == "" {
            verdict := Write(id, generation, Fail(lastStage, NO_OUTPUT), now);
            assert verdict == Ok ==>
              RecordsFailure(old(backend.db), backend.db, id, lastStage, NO_OUTPUT, now);
          } else {
            verdict := WriteCompletion(id, generation, content, output, cleanUp, now);
          }
        case Halted(stage, message, reason) =>
          verdict := Write(id, generation, Pause(stage, message, reason), now);
          assert verdict == Ok ==> RecordsPause(old(backend.db), backend.db, id, stage, message, reason, now);
        case Broke(stage, message) =>
          verdict := Write(id, generation, Fail(stage, message), now);
          assert verdict == Ok ==> RecordsFailure(old(backend.db), backend.db, id, stage, message, now);
      }
    }

    /** Others commit, one after the other. */
    method Elsewhere(txns: seq<Txn>, now: int)
      requires Recorded()
      modifies this`history, backend`db
      ensures Recorded() && history == old(history) + Commits(now, txns)
    {
      hide Apply;
      ghost var before := history;
      for n := 0 to |txns|
        invariant Recorded() && history == before + Commits(now, txns[..n])
      {
        backend.db := Apply(backend.db, now, txns[n]);
        Record(now, txns[n]);
        assert Commits(now, txns[..n + 1]) == Commits(now, txns[..n]) + [Timed(now, txns[n])];
      }
      assert txns[..|txns|] == txns;
    }

    /** How a delivery that gets to its end leaves the task it found: it begins by taking the task up,
        by force when it resumes or was told to, its hooks write, and the end is recorded; a task
        whose final output exists already is completed with it at once. */
    ghost predicate Concludes(found: Db, history: seq<Timed>, early: seq<Timed>, id: TaskId, generation: nat,
                              startStage: Option<TaskStage>, forceResume: bool, finalOutput: Option<string>,
                              others: Meanwhile, ending: Ending, cleanUp: bool, now: int)
      reads this, backend
    {
      var begin := early + Commits(now, others.beforeStart);
      id in found.tasks
      && if startStage == None && finalOutput.Some? then
           var before := Replay(start, begin);
           && begin <= history && IsCurrent(before, id, Some(generation))
           && RecordsCompletion(before, backend.db, id, Content([], [], ""), finalOutput.value, cleanUp, now)
         else
           var row := found.tasks[id];
           var force := startStage.Some? || forceResume || (row.status == Failed && IsResumableFailure(row.error));
           var worked := begin + [Timed(now, Worker(id, Some(generation), Process(force)))]
                         + Logged(others.script, id, generation, now);
           worked <= history && RecordsEnd(Replay(start, worked), backend.db, id, generation, ending, cleanUp, now)
    }

    method RunPipelineTask(id: TaskId, startStage: Option<TaskStage>, forceResume: bool, asked: Option<nat>,
                           celeryTaskId: string, leaseTtl: int, finalOutput: Option<string>,
                           others: Meanwhile, ending: Ending, cleanUp: bool, now: int)
      returns (report: Report)
      requires service.backend == backend
      requires forall h <- others.script :: h.Mine? ==> !h.step.Complete?
      modifies this, backend, redis
      ensures Recorded() && start == old(backend.db)
      ensures var generation := if asked.Some? then asked.value else 0;
              var early := Commits(now, others.beforeLease);
              var found := Replay(start, early);
              && Stamped(history, id, generation, others)
              && (id !in start.tasks ==> report == Missing)
              && (id in start.tasks && start.tasks[id].generation != generation ==> report == Stale)
              && (id !in start.tasks || start.tasks[id].generation != generation ==>
                    history == [] && redis.store == old(redis.store))
              && (id in start.tasks && start.tasks[id].generation == generation ==>
                    && (report == Duplicate <==> LockKey(id) in old(redis.store))
                    && (report == Duplicate ==> history == early && redis.store == old(redis.store))
                    && (report != Duplicate ==>
                          && early <= history
                          && !HoldsLock(redis.store, id, OwnerToken(generation, celeryTaskId))
                          && (id !in found.tasks ==> report == Missing)
                          && (id in found.tasks && found.tasks[id].generation != generation ==>
                                report == Stale && history == early)
                          && (id in found.tasks && found.tasks[id].generation == generation ==>
                                var row := found.tasks[id];
                                && (report == StillPaused <==> startStage == None && !forceResume && row.status == Paused)
                                && (report == Terminal <==>
                                      startStage == None
                                      && (row.status == Completed
                                          || (row.status == Failed && !forceResume && !IsResumableFailure(row.error)))))
                          && (report in {Terminal, StillPaused} ==> history == early)
                          && (report == Ran ==>
                                Concludes(found, history, early, id, generation, startStage, forceResume, finalOutput, others, ending,
                                          cleanUp, now))))
    {
      hide Apply, OwnerToken, Replay;
      start, history := backend.db, [];
      assert Recorded() by {
        NothingReplayed(start);
      }
      var generation := 0;
      if asked.Some? {
        generation := asked.value;
      }
      if id !in backend.db.tasks {
        return Missing;
      }
      if backend.db.tasks[id].generation != generation {
        return Stale;
      }
      Elsewhere(others.beforeLease, now);
      assert history == Commits(now, others.beforeLease);
      var owner := OwnerToken(generation, celeryTaskId);
      var acquired := redis.AcquireTaskOwnership(id, owner, leaseTtl);
      if !acquired {
        return Duplicate;
      }
      report := RunWithLease(id, startStage, forceResume, generation, owner, finalOutput, others, ending, cleanUp, now);
      redis.ReleaseTaskOwnership(id, owner);
    }

    /** The second look at the task, and the run itself. Recording the failure to find a task that
        is gone by then finds nothing either. */
    method RunWithLease(id: TaskId, startStage: Option<TaskStage>, forceResume: bool, generation: nat, owner: string,
                        finalOutput: Option<string>, others: Meanwhile, ending: Ending, cleanUp: bool, now: int)
      returns (report: Report)
      requires Recorded() && Stamped(history, id, generation, others)
      requires forall h <- others.script :: h.Mine? ==> !h.step.Complete?
      modifies this`history, backend, redis
      ensures Recorded() && Stamped(history, id, generation, others) && old(history) <= history && report != Duplicate
      ensures id !in old(backend.db).tasks ==> report == Missing
      ensures id in old(backend.db).tasks ==>
                var row := old(backend.db).tasks[id];
                && (row.generation != generation ==> report == Stale && history == old(history))
                && (row.generation == generation ==>
                      && (report == StillPaused <==> startStage == None && !forceResume && row.status == Paused)
                      && (report == Terminal <==>
                            startStage == None
                            && (row.status == Completed
                                || (row.status == Failed && !forceResume && !IsResumableFailure(row.error)))))
                && (report in {Terminal, StillPaused} ==> history == old(history))
                && (report == Ran ==>
                      Concludes(old(backend.db), history, old(history), id, generation, startStage, forceResume, finalOutput, others,
                                ending, cleanUp, now))
    {
      hide Apply, RecordsEnd, RecordsCompletion, Replay, Stamped;
      ghost var early := history;
      if id !in backend.db.tasks {
        var _ := Write(id, generation, Fail(None, "Task not found."), now);
        OwnIsStamped(early, history, id, generation, others);
        return Missing;
      }
      var row := backend.db.tasks[id];
      if row.generation != generation {
        return Stale;
      }
      if startStage == None && (row.status == Completed
                                || (row.status == Failed && !IsResumableFailure(row.error) && !forceResume)) {
        return Terminal;
      }
      if startStage == None && row.status == Paused && !forceResume {
        return StillPaused;
      }
      Elsewhere(others.beforeStart, now);
      OthersAreStamped(others, id, generation, now);
      StampedJoin(early, Commits(now, others.beforeStart), id, generation, others);
      ghost var begin := history;
      if startStage == None && finalOutput.Some? {
        var verdict := WriteCompletion(id, generation, Content([], [], ""), finalOutput.value, cleanUp, now);
        OwnIsStamped(begin, history, id, generation, others);
        return if verdict == Ok then Ran else Stale;
      }
      report := RunPipeline(id, startStage, forceResume, row, generation, owner, others, ending, cleanUp, now);
    }

    method RunPipeline(id: TaskId, startStage: Option<TaskStage>, forceResume: bool, row: TaskRow, generation: nat, owner: string,
                       others: Meanwhile, ending: Ending, cleanUp: bool, now: int)
      returns (report: Report)
      requires Recorded() && Stamped(history, id, generation, others)
      requires forall h <- others.script :: h.Mine? ==> !h.step.Complete?
      modifies this`history, backend, redis
      ensures Recorded() && Stamped(history, id, generation, others) && old(history) <= history && report in {Ran, Stale}
      ensures report == Ran ==>
                var force := startStage.Some? || forceResume || (row.status == Failed && IsResumableFailure(row.error));
                var worked := old(history) + [Timed(now, Worker(id, Some(generation), Process(force)))]
                              + Logged(others.script, id, generation, now);
                worked <= history && RecordsEnd(Replay(start, worked), backend.db, id, generation, ending, cleanUp, now)
    {
      hide Apply, RecordsEnd, Replay, Stamped, Logged;
      ghost var begin := history;
      var resumesFailure := row.status == Failed && IsResumableFailure(row.error);
      var begun := Write(id, generation, Process(startStage.Some? || resumesFailure || forceResume), now);
      OwnIsStamped(begin, history, id, generation, others);
      ghost var working := history;
      if begun != Ok {
        return Stale;
      }
      var superseded, n := Work(id, generation, owner, others, now);
      if n > 0 {
        LoggedIsStamped(others, n - 1, id, generation, now);
        StampedJoin(working, Logged(others.script[..n - 1], id, generation, now), id, generation, others);
      }
      LoggedIsStamped(others, n, id, generation, now);
      StampedJoin(working, Logged(others.script[..n], id, generation, now), id, generation, others);
      if superseded {
        return Stale;
      }
      assert others.script[..n] == others.script;
      ghost var worked := history;
      var verdict := Conclude(id, generation, ending, cleanUp, now);
      OwnIsStamped(worked, history, id, generation, others);
      report := if verdict == Ok then Ran else Stale;
    }
  }

  lemma OthersAreStamped(others: Meanwhile, id: TaskId, generation: nat, now: int)
    ensures Stamped(Commits(now, others.beforeLease), id, generation, others)
    ensures Stamped(Commits(now, others.beforeStart), id, generation, others)
  {
  }

  lemma NothingReplayed(db: Db)
    ensures Replay(db, []) == db
  {
  }

  /** Take the history a delivery records, and a moment at which the task is past the delivery's
      generation: from there on the database comes out as if the delivery had written nothing more,
      but for the source of a task it completed, and what others did is all that counts. */
  lemma OvertakenDeliveryIsHarmless(start: Db, history: seq<Timed>, k: nat, id: TaskId, generation: nat, others: Meanwhile)
    requires SoundDb(start) && Stamped(history, id, generation, others)
    requires k <= |history| && MovedPast(Replay(start, history[..k]), id, generation)
    ensures var rest := WithoutStale(history[k..], id, generation);
            && Replay(start, history) == Replay(Replay(start, history[..k]), rest)
            && forall n :: 0 <= n < |rest| ==> rest[n].txn == CleanUp(id) || IsForeign(rest[n].txn, others)
  {
    hide Replay, Apply, SoundDb, MovedPast, IsForeign;
    var late := history[k..];
    assert history == history[..k] + late;
    ReplayAppends(start, history[..k], late);
    ReplayIsSound(start, history[..k]);
    SupersededWorkersChangeNothing(Replay(start, history[..k]), late, id, generation);
    StaleAreGone(late, id, generation);
    forall n | 0 <= n < |WithoutStale(late, id, generation)|
      ensures WithoutStale(late, id, generation)[n].txn == CleanUp(id) || IsForeign(WithoutStale(late, id, generation)[n].txn, others)
    {
      var timed := WithoutStale(late, id, generation)[n];
      var m :| 0 <= m < |late| && late[m] == timed;
      assert history[k + m] == timed;
      assert OwnOrForeign(history[k + m].txn, id, generation, others);
    }
  }

  lemma {:induction false} StaleAreGone(history: seq<Timed>, id: TaskId, generation: nat)
    ensures forall k :: 0 <= k < |WithoutStale(history, id, generation)| ==>
              WithoutStale(history, id, generation)[k] in history
              && !IsStale(WithoutStale(history, id, generation)[k].txn, id, generation)
  {
    if history != [] {
      StaleAreGone(history[1..], id, generation);
    }
  }
}
