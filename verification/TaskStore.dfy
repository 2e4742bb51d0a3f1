/** The task database as a state machine: every committed transaction of the workers, the users
    and the reconciler is one step. */
module TaskStore {
  import opened Numeric
  import opened PipelineTypes
  import opened Progress
  import opened SpeakerIdentity
  import opened StageRuns

  type TaskId = string
  type UserId = string

  datatype Status = Pending | Processing | Paused | Completed | Failed

  /** The speakers, segments and languages the pipeline persisted last. */
  datatype Content = Content(speakers: seq<GlobalSpeaker>, segments: seq<Segment>, language: string)

  datatype TaskRow = TaskRow(
    user: UserId,
    status: Status,
    stage: Option<TaskStage>,
    progress: int,
    generation: nat,
    lastActivity: int,
    source: string,
    output: string,
    error: string,
    pauseReason: string,
    pausedAt: Option<int>,
    finishedAt: Option<int>,
    audioDuration: real,
    content: Content,
    ledger: Ledger)

  datatype UserRow = UserRow(monthlyUsed: int, monthlyQuota: int)

  /** `uploads` have consumed quota and have no row yet; `dropped` lost their row and are still to
      be refunded; `issued` are all ids ever drawn. */
  datatype Db = Db(
    tasks: map<TaskId, TaskRow>,
    users: map<UserId, UserRow>,
    uploads: map<TaskId, UserId>,
    dropped: map<TaskId, UserId>,
    issued: set<TaskId>)

  predicate IsTerminal(status: Status) {
    status == Completed || status == Failed
  }

  predicate IsBlocked(status: Status) {
    IsTerminal(status) || status == Paused
  }

  const MAX_ERROR_LENGTH := 1000
  const TRUNCATION_MARK := "\n...[truncated]"

  function TruncateError(message: string): (stored: string)
    ensures |stored| <= MAX_ERROR_LENGTH
    ensures |message| <= MAX_ERROR_LENGTH <==> stored == message
    ensures |message| > MAX_ERROR_LENGTH ==>
              |stored| == MAX_ERROR_LENGTH && exists n :: 0 <= n <= |message| && stored == message[..n] + TRUNCATION_MARK
  {
    if |message| <= MAX_ERROR_LENGTH then message
    else message[..MAX_ERROR_LENGTH - |TRUNCATION_MARK|] + TRUNCATION_MARK
  }

  // ----- Transactions -----

  datatype WorkerStep =
    | Process(force: bool)
    | StartStage(stage: TaskStage)
    | AdvanceStage(stage: TaskStage, percent: int)
    | FinishStage(stage: TaskStage)
    | CountItems(stage: TaskStage, itemsTotal: Option<int>, itemsDone: Option<int>)
    | PrepareAudio(duration: real)
    | Persist(content: Content)
    | Complete(output: string)
    | Fail(failedStage: Option<TaskStage>, message: string)
    | Pause(pausedStage: Option<TaskStage>, message: string, reason: string)

  datatype Txn =
    | Worker(id: TaskId, generation: Option<nat>, step: WorkerStep)
    | CleanUp(id: TaskId)
    | ConfirmStall(id: TaskId, timeout: int)
    | BeginUpload(id: TaskId, user: UserId)
    | InsertTask(id: TaskId, source: string)
    | AbandonUpload(id: TaskId)
    | DropTask(id: TaskId)
    | RefundDropped(id: TaskId)
    | RefundKeepingTask(id: TaskId)
    | Resume(id: TaskId, user: UserId, dispatched: bool)
    | Delete(id: TaskId, user: UserId)

  /** `_assert_generation` */
  predicate Fenced(row: TaskRow, generation: Option<nat>) {
    generation.Some? && generation.value != row.generation
  }

  /** Whether the step goes on once the row is locked and the generation checked. */
  predicate Admits(row: TaskRow, generation: Option<nat>, step: WorkerStep) {
    match step
    case Process(force) => force || !IsTerminal(row.status)
    case PrepareAudio(_) => generation == None || !IsBlocked(row.status)
    case Persist(content) => content.segments != [] || content.speakers != []
    case Complete(_) => row.status != Completed
    case Fail(_, _) => !IsTerminal(row.status)
    case Pause(_, _, _) => !IsTerminal(row.status)
    case _ => !IsBlocked(row.status)
  }

  function AtLeast(row: TaskRow, stage: Option<TaskStage>): int {
    match stage case Some(s) => MaxInt(row.progress, StageStart(s)) case None => row.progress
  }

  /** The row an admitted step leaves. */
  function Stepped(row: TaskRow, step: WorkerStep, now: int): TaskRow {
    match step
    case Process(force) =>
      row.(status := Processing, stage := if row.stage.Some? then row.stage else Some(Uploaded),
           progress := MaxInt(row.progress, 0), error := "", pausedAt := None, pauseReason := "", lastActivity := now,
           output := if force then "" else row.output, finishedAt := if force then None else row.finishedAt)
    case StartStage(stage) =>
      row.(ledger := row.ledger[stage := Begun(Runs(row.ledger, stage), now)], status := Processing,
           stage := Some(stage), progress := MaxInt(row.progress, StageStart(stage)), error := "", lastActivity := now)
    case AdvanceStage(stage, percent) =>
      row.(status := Processing, stage := Some(stage),
           progress := MaxInt(row.progress, OverallProgress(stage, percent)), lastActivity := now)
    case FinishStage(stage) =>
      row.(ledger := row.ledger[stage := Closed(Runs(row.ledger, stage), now, RunCompleted, "")], lastActivity := now)
    case CountItems(stage, total, done) =>
      row.(ledger := row.ledger[stage := Counted(Runs(row.ledger, stage), now, total, done)], lastActivity := now)
    case PrepareAudio(duration) => row.(audioDuration := duration, lastActivity := now)
    case Persist(content) =>
      row.(content := content.(language := Or(content.language, row.content.language)), lastActivity := now)
    case Complete(output) =>
      row.(status := Completed, stage := Some(Mixing), progress := 100, output := output, error := "", pausedAt := None,
           pauseReason := "", finishedAt := Some(now), lastActivity := now)
    case Fail(stage, message) =>
      row.(ledger := if stage.Some?
                     then row.ledger[stage.value := Closed(Runs(row.ledger, stage.value), now, RunFailed, "")] else row.ledger,
           status := Failed, stage := if stage.Some? then stage else row.stage, progress := AtLeast(row, stage),
           error := TruncateError(message), pausedAt := None, pauseReason := "", finishedAt := Some(now), lastActivity := now)
    case Pause(stage, message, reason) =>
      row.(ledger := if stage.Some?
                     then row.ledger[stage.value := Closed(Runs(row.ledger, stage.value), now, RunPaused, reason)] else row.ledger,
           status := Paused, stage := if stage.Some? then stage else row.stage, progress := AtLeast(row, stage),
           error := TruncateError(message), pausedAt := Some(now), pauseReason := reason, finishedAt := None,
           lastActivity := now)
  }

  /** One unit of quota back; a missing user is passed over. */
  function Refunded(users: map<UserId, UserRow>, user: UserId): map<UserId, UserRow> {
    if user in users then users[user := users[user].(monthlyUsed := MaxInt(0, users[user].monthlyUsed - 1))] else users
  }

  function NewRow(user: UserId, source: string, now: int): TaskRow {
    TaskRow(user, Pending, Some(Uploaded), 0, 0, now, source, "", "", "", None, None, 0.0, Content([], [], ""), map[])
  }

  function ApplyWorker(db: Db, now: int, id: TaskId, generation: Option<nat>, step: WorkerStep): Db {
    if id !in db.tasks || Fenced(db.tasks[id], generation) || !Admits(db.tasks[id], generation, step) then db
    else
      db.(tasks := db.tasks[id := Stepped(db.tasks[id], step, now)],
          users := if step.Fail? then Refunded(db.users, db.tasks[id].user) else db.users)
  }

  function ApplyUser(db: Db, now: int, txn: Txn): Db
    requires !txn.Worker?
  {
    match txn
    case CleanUp(id) =>
      if id !in db.tasks then db else db.(tasks := db.tasks[id := db.tasks[id].(source := "")])
    case ConfirmStall(id, timeout) =>
      if id !in db.tasks || db.tasks[id].status != Processing || now - db.tasks[id].lastActivity < timeout then db
      else db.(tasks := db.tasks[id := db.tasks[id].(generation := db.tasks[id].generation + 1)])
    case BeginUpload(id, user) =>
      if id in db.issued || user !in db.users || db.users[user].monthlyUsed + 1 > db.users[user].monthlyQuota then db
      else db.(users := db.users[user := db.users[user].(monthlyUsed := db.users[user].monthlyUsed + 1)],
               uploads := db.uploads[id := user], issued := db.issued + {id})
    case InsertTask(id, source) =>
      if id !in db.uploads then db
      else db.(tasks := db.tasks[id := NewRow(db.uploads[id], source, now)], uploads := db.uploads - {id})
    case AbandonUpload(id) =>
      if id !in db.uploads then db
      else db.(users := Refunded(db.users, db.uploads[id]), uploads := db.uploads - {id})
    case DropTask(id) =>
      if id !in db.tasks then db
      else db.(dropped := db.dropped[id := db.tasks[id].user], tasks := db.tasks - {id})
    case RefundDropped(id) =>
      if id !in db.dropped then db
      else db.(users := Refunded(db.users, db.dropped[id]), dropped := db.dropped - {id})
    case RefundKeepingTask(id) =>
      if id !in db.tasks then db else db.(users := Refunded(db.users, db.tasks[id].user))
    case Resume(id, user, dispatched) =>
      if id !in db.tasks || db.tasks[id].user != user || db.tasks[id].status != Paused || db.tasks[id].source == "" then db
      else db.(tasks := db.tasks[id := Resumed(db.tasks[id], dispatched, now)])
    case Delete(id, user) =>
      if id !in db.tasks || db.tasks[id].user != user || db.tasks[id].status == Pending || db.tasks[id].status == Processing then db
      else db.(tasks := db.tasks - {id})
  }

  const QUEUE_UNAVAILABLE := "The processing queue is temporarily unavailable."

  /** A resumed task is queued under a new generation; when the queue is down it is paused again,
      still under the new one. */
  function Resumed(row: TaskRow, dispatched: bool, now: int): TaskRow {
    var queued := row.(status := Pending, generation := row.generation + 1, error := "", pausedAt := None, pauseReason := "",
                       finishedAt := None, lastActivity := now);
    if dispatched then queued else queued.(status := Paused, pausedAt := Some(now), error := QUEUE_UNAVAILABLE)
  }

  function Apply(db: Db, now: int, txn: Txn): Db {
    match txn
    case Worker(id, generation, step) => ApplyWorker(db, now, id, generation, step)
    case _ => ApplyUser(db, now, txn)
  }

  datatype Timed = Timed(now: int, txn: Txn)

  /** A whole history of committed transactions. */
  function Replay(db: Db, history: seq<Timed>): Db
    decreases |history|
  {
    if history == [] then db else Replay(Apply(db, history[0].now, history[0].txn), history[1..])
  }

  lemma {:induction false} ReplayAppends(db: Db, first: seq<Timed>, second: seq<Timed>)
    ensures Replay(db, first + second) == Replay(Replay(db, first), second)
    decreases |first|
  {
    hide Apply;
    if first == [] {
      assert first + second == second;
    } else {
      assert (first + second)[1..] == first[1..] + second;
      ReplayAppends(Apply(db, first[0].now, first[0].txn), first[1..], second);
    }
  }

  // ----- Well-formed databases -----

  ghost predicate SoundRow(row: TaskRow) {
    0 <= row.progress <= 100 && SoundLedger(row.ledger)
  }

  ghost predicate SoundDb(db: Db) {
    && (forall id :: id in db.tasks ==> SoundRow(db.tasks[id]) && id in db.issued && id !in db.uploads && id !in db.dropped)
    && (forall id :: id in db.uploads ==> id in db.issued && id !in db.dropped)
    && (forall id :: id in db.dropped ==> id in db.issued)
  }

  lemma SteppedIsSound(row: TaskRow, step: WorkerStep, now: int)
    requires SoundRow(row)
    ensures SoundRow(Stepped(row, step, now))
  {
    hide Begun, Closed, Counted, SoundRuns, StageStart, OverallProgress;
    match step {
      case StartStage(stage) => RunsAreSound(row.ledger, stage); BegunIsSound(Runs(row.ledger, stage), now);
      case FinishStage(stage) => RunsAreSound(row.ledger, stage); ClosedIsSound(Runs(row.ledger, stage), now, RunCompleted, "");
      case CountItems(stage, total, done) => RunsAreSound(row.ledger, stage); CountedIsSound(Runs(row.ledger, stage), now, total, done);
      case Fail(Some(stage), _) => RunsAreSound(row.ledger, stage); ClosedIsSound(Runs(row.ledger, stage), now, RunFailed, "");
      case Pause(Some(stage), _, reason) => RunsAreSound(row.ledger, stage); ClosedIsSound(Runs(row.ledger, stage), now, RunPaused, reason);
      case AdvanceStage(stage, percent) => PercentIsBounded(stage, percent);
      case _ =>
    }
  }

  lemma PercentIsBounded(stage: TaskStage, percent: int)
    ensures 0 <= OverallProgress(stage, percent) <= 100
  {
    OverallStaysInBand(stage, percent);
  }

  lemma RunsAreSound(ledger: Ledger, stage: TaskStage)
    requires SoundLedger(ledger)
    ensures SoundRuns(Runs(ledger, stage))
  {
  }

  lemma EmptyLedgerIsSound()
    ensures SoundLedger(map[])
  {
  }

  lemma ApplyIsSound(db: Db, now: int, txn: Txn)
    requires SoundDb(db)
    ensures SoundDb(Apply(db, now, txn))
  {
    hide Stepped, SoundLedger, Refunded;
    if txn.Worker? && txn.id in db.tasks {
      SteppedIsSound(db.tasks[txn.id], txn.step, now);
    }
    EmptyLedgerIsSound();
  }

  lemma {:induction false} ReplayIsSound(db: Db, history: seq<Timed>)
    requires SoundDb(db)
    ensures SoundDb(Replay(db, history))
    decreases |history|
  {
    hide Apply, SoundDb;
    if history != [] {
      ApplyIsSound(db, history[0].now, history[0].txn);
      ReplayIsSound(Apply(db, history[0].now, history[0].txn), history[1..]);
    }
  }

  // ----- What no transaction undoes -----

  /** From one state of a task to a later one: generations and progress only grow, the owner
      stays, and finished stage runs stand as they are. */
  ghost predicate Grows(before: TaskRow, after: TaskRow) {
    && before.user == after.user
    && before.generation <= after.generation
    && before.progress <= after.progress
    && forall stage :: |Runs(before.ledger, stage)| <= |Runs(after.ledger, stage)|
         && forall k :: 0 <= k < |Runs(before.ledger, stage)| && Runs(before.ledger, stage)[k].finishedAt.Some? ==>
              Runs(after.ledger, stage)[k] == Runs(before.ledger, stage)[k]
  }

  lemma SameLedgerGrows(before: TaskRow, after: TaskRow)
    requires before.user == after.user && before.generation <= after.generation && before.progress <= after.progress
    requires before.ledger == after.ledger
    ensures Grows(before, after)
  {
  }

  lemma OneStageGrows(before: TaskRow, after: TaskRow, stage: TaskStage, runs: seq<StageRun>)
    requires before.user == after.user && before.generation <= after.generation && before.progress <= after.progress
    requires after.ledger == before.ledger[stage := runs] && KeepsFinished(Runs(before.ledger, stage), runs)
    ensures Grows(before, after)
  {
    forall s ensures Runs(after.ledger, s) == if s == stage then runs else Runs(before.ledger, s) {
    }
  }

  lemma GrowsOn(a: TaskRow, b: TaskRow, c: TaskRow)
    requires Grows(a, b) && Grows(b, c)
    ensures Grows(a, c)
  {
  }

  lemma SteppedGrows(row: TaskRow, step: WorkerStep, now: int)
    requires SoundRow(row)
    ensures Grows(row, Stepped(row, step, now))
  {
    hide Begun, Closed, Counted, SoundRuns, KeepsFinished, StageStart, OverallProgress, Grows;
    var after := Stepped(row, step, now);
    match step {
      case StartStage(stage) =>
        RunsAreSound(row.ledger, stage);
        BegunIsSound(Runs(row.ledger, stage), now);
        OneStageGrows(row, after, stage, Begun(Runs(row.ledger, stage), now));
      case FinishStage(stage) =>
        RunsAreSound(row.ledger, stage);
        ClosedIsSound(Runs(row.ledger, stage), now, RunCompleted, "");
        OneStageGrows(row, after, stage, Closed(Runs(row.ledger, stage), now, RunCompleted, ""));
      case CountItems(stage, total, done) =>
        RunsAreSound(row.ledger, stage);
        CountedIsSound(Runs(row.ledger, stage), now, total, done);
        OneStageGrows(row, after, stage, Counted(Runs(row.ledger, stage), now, total, done));
      case Fail(Some(stage), _) =>
        RunsAreSound(row.ledger, stage);
        ClosedIsSound(Runs(row.ledger, stage), now, RunFailed, "");
        OneStageGrows(row, after, stage, Closed(Runs(row.ledger, stage), now, RunFailed, ""));
      case Pause(Some(stage), _, reason) =>
        RunsAreSound(row.ledger, stage);
        ClosedIsSound(Runs(row.ledger, stage), now, RunPaused, reason);
        OneStageGrows(row, after, stage, Closed(Runs(row.ledger, stage), now, RunPaused, reason));
      case _ => SameLedgerGrows(row, after);
    }
  }

  lemma ApplyGrows(db: Db, now: int, txn: Txn, id: TaskId)
    requires SoundDb(db) && id in db.tasks && id in Apply(db, now, txn).tasks
    ensures Grows(db.tasks[id], Apply(db, now, txn).tasks[id])
  {
    hide Stepped, Grows, Refunded, SoundRow;
    var row, after := db.tasks[id], Apply(db, now, txn).tasks[id];
    if txn.Worker? && txn.id == id {
      SteppedGrows(row, txn.step, now);
    }
    if !txn.Worker? {
      SameLedgerGrows(row, after);
    }
    SameLedgerGrows(row, row);
  }

  lemma DeletedStaysDeleted(db: Db, now: int, txn: Txn, id: TaskId)
    requires SoundDb(db) && id in db.issued && id !in db.tasks && id !in db.uploads
    ensures id in Apply(db, now, txn).issued && id !in Apply(db, now, txn).tasks && id !in Apply(db, now, txn).uploads
  {
  }

  /** Over any history: the generation and the progress of a task never fall, and a finished stage
      run is never reopened or rewritten. */
  lemma {:induction false} TasksOnlyGrow(db: Db, history: seq<Timed>, id: TaskId)
    requires SoundDb(db) && id in db.tasks && id in Replay(db, history).tasks
    ensures Grows(db.tasks[id], Replay(db, history).tasks[id])
    ensures Replay(db, history).tasks[id].progress <= 100
    decreases |history|
  {
    hide Apply, Grows, SoundDb;
    ReplayIsSound(db, history);
    SoundTask(Replay(db, history), id);
    if history == [] {
      SameLedgerGrows(db.tasks[id], db.tasks[id]);
    } else {
      var next := Apply(db, history[0].now, history[0].txn);
      ApplyIsSound(db, history[0].now, history[0].txn);
      if id in next.tasks {
        ApplyGrows(db, history[0].now, history[0].txn, id);
        TasksOnlyGrow(next, history[1..], id);
        GrowsOn(db.tasks[id], next.tasks[id], Replay(db, history).tasks[id]);
      } else {
        RemovedTaskIsGone(db, history[0].now, history[0].txn, id);
        GoneForGood(next, history[1..], id);
      }
    }
  }

  lemma SoundTask(db: Db, id: TaskId)
    requires SoundDb(db) && id in db.tasks
    ensures SoundRow(db.tasks[id]) && id in db.issued && id !in db.uploads
  {
  }

  lemma RemovedTaskIsGone(db: Db, now: int, txn: Txn, id: TaskId)
    requires SoundDb(db) && id in db.tasks && id !in Apply(db, now, txn).tasks
    ensures id in Apply(db, now, txn).issued && id !in Apply(db, now, txn).uploads
  {
  }

  lemma {:induction false} GoneForGood(db: Db, history: seq<Timed>, id: TaskId)
    requires SoundDb(db) && id in db.issued && id !in db.tasks && id !in db.uploads
    ensures id !in Replay(db, history).tasks
    decreases |history|
  {
    hide Apply, SoundDb;
    if history != [] {
      ApplyIsSound(db, history[0].now, history[0].txn);
      DeletedStaysDeleted(db, history[0].now, history[0].txn, id);
      GoneForGood(Apply(db, history[0].now, history[0].txn), history[1..], id);
    }
  }

  /** In every reachable state each stage's attempts are numbered 1 to n and only attempt n may be
      unfinished. */
  lemma LedgerStaysSound(db: Db, history: seq<Timed>, id: TaskId, stage: TaskStage)
    requires SoundDb(db) && id in Replay(db, history).tasks
    ensures SoundRuns(Runs(Replay(db, history).tasks[id].ledger, stage))
  {
    hide Replay;
    ReplayIsSound(db, history);
  }

  // ----- What a task's content is -----

  /** The transaction stores new content for the task. */
  predicate StoresContent(db: Db, txn: Txn, id: TaskId) {
    && txn.Worker? && txn.id == id && txn.step.Persist? && id in db.tasks
    && (txn.generation == None || txn.generation == Some(db.tasks[id].generation))
    && (txn.step.content.segments != [] || txn.step.content.speakers != [])
  }

  /** The content after a history that started with `content`: speakers and segments of the last
      transaction that stored any, and the last language that was known to one. */
  function LastStored(db: Db, history: seq<Timed>, id: TaskId, content: Content): Content
    decreases |history|
  {
    if history == [] then content
    else
      var txn := history[0].txn;
      LastStored(Apply(db, history[0].now, txn), history[1..], id,
                 if !StoresContent(db, txn, id) then content
                 else if txn.step.content.language == "" then txn.step.content.(language := content.language)
                 else txn.step.content)
  }

  lemma ContentMoves(db: Db, now: int, txn: Txn, id: TaskId)
    requires SoundDb(db) && id in db.tasks && id in Apply(db, now, txn).tasks
    ensures var before, after := db.tasks[id].content, Apply(db, now, txn).tasks[id].content;
            if !StoresContent(db, txn, id) then after == before
            else && after.segments == txn.step.content.segments && after.speakers == txn.step.content.speakers
                 && after.language == if txn.step.content.language == "" then before.language else txn.step.content.language
  {
    hide Begun, Closed, Counted, SoundRow, Refunded, TruncateError, OverallProgress, StageStart;
  }

  /** Over any history a task holds exactly what was stored for it last. */
  lemma {:induction false} ContentIsLastStored(db: Db, history: seq<Timed>, id: TaskId)
    requires SoundDb(db) && id in db.tasks && id in Replay(db, history).tasks
    ensures Replay(db, history).tasks[id].content == LastStored(db, history, id, db.tasks[id].content)
    decreases |history|
  {
    hide Apply, SoundDb;
    if history != [] {
      var now, txn := history[0].now, history[0].txn;
      var next := Apply(db, now, txn);
      ApplyIsSound(db, now, txn);
      if id !in next.tasks {
        RemovedTaskIsGone(db, now, txn, id);
        GoneForGood(next, history[1..], id);
      } else {
        ContentMoves(db, now, txn, id);
        ContentIsLastStored(next, history[1..], id);
      }
    }
  }

  // ----- Superseded workers -----

  /** A transaction of a worker holding generation g or an older one. */
  predicate IsStale(txn: Txn, id: TaskId, g: nat) {
    txn.Worker? && txn.id == id && txn.generation.Some? && txn.generation.value <= g
  }

  function WithoutStale(history: seq<Timed>, id: TaskId, g: nat): seq<Timed> {
    if history == [] then []
    else (if IsStale(history[0].txn, id, g) then [] else [history[0]]) + WithoutStale(history[1..], id, g)
  }

  /** The task has moved past generation g, or has been deleted. */
  ghost predicate MovedPast(db: Db, id: TaskId, g: nat) {
    if id in db.tasks then db.tasks[id].generation > g else id in db.issued && id !in db.uploads
  }

  lemma StaleStepIsNothing(db: Db, now: int, txn: Txn, id: TaskId, g: nat)
    requires MovedPast(db, id, g) && IsStale(txn, id, g)
    ensures Apply(db, now, txn) == db
  {
  }

  lemma MovedPastStays(db: Db, now: int, txn: Txn, id: TaskId, g: nat)
    requires SoundDb(db) && MovedPast(db, id, g)
    ensures MovedPast(Apply(db, now, txn), id, g)
  {
    hide Apply, SoundDb, Grows;
    if id in db.tasks {
      if id in Apply(db, now, txn).tasks {
        ApplyGrows(db, now, txn, id);
        GenerationGrows(db.tasks[id], Apply(db, now, txn).tasks[id]);
      } else {
        RemovedTaskIsGone(db, now, txn, id);
      }
    } else {
      DeletedStaysDeleted(db, now, txn, id);
    }
  }

  lemma GenerationGrows(before: TaskRow, after: TaskRow)
    requires Grows(before, after)
    ensures before.generation <= after.generation
  {
  }

  /** Once a task has moved past generation g, the workers of generation g and older might as well
      not exist: under any interleaving with anybody else's transactions, the whole database comes
      out the same without theirs. */
  lemma {:induction false} SupersededWorkersChangeNothing(db: Db, history: seq<Timed>, id: TaskId, g: nat)
    requires SoundDb(db) && MovedPast(db, id, g)
    ensures Replay(db, history) == Replay(db, WithoutStale(history, id, g))
    decreases |history|
  {
    hide Apply, SoundDb, MovedPast, IsStale;
    if history != [] {
      var now, txn := history[0].now, history[0].txn;
      var next := Apply(db, now, txn);
      ApplyIsSound(db, now, txn);
      MovedPastStays(db, now, txn, id, g);
      SupersededWorkersChangeNothing(next, history[1..], id, g);
      var rest := WithoutStale(history[1..], id, g);
      if IsStale(txn, id, g) {
        StaleStepIsNothing(db, now, txn, id, g);
        assert [] + rest == rest;
      } else {
        assert ([history[0]] + rest)[1..] == rest;
      }
    }
  }

  /** A resume, and a confirmed stall, move a task past the generation it had. */
  lemma NewGenerationMovesPast(db: Db, now: int, txn: Txn)
    requires txn.Resume? || txn.ConfirmStall?
    requires SoundDb(db) && txn.id in db.tasks && Apply(db, now, txn) != db
    ensures MovedPast(Apply(db, now, txn), txn.id, db.tasks[txn.id].generation)
    ensures txn.Resume? ==> db.tasks[txn.id].status == Paused
    ensures txn.ConfirmStall? ==>
              db.tasks[txn.id].status == Processing && now - db.tasks[txn.id].lastActivity >= txn.timeout
  {
  }
}
