/** The ledger of attempts at each stage of a task. */
module StageRuns {
  import opened Numeric
  import opened PipelineTypes

  datatype RunStatus = RunProcessing | RunCompleted | RunPaused | RunFailed

  datatype StageRun = StageRun(
    attempt: nat,
    status: RunStatus,
    startedAt: int,
    finishedAt: Option<int>,
    itemsTotal: Option<int>,
    itemsDone: Option<int>,
    errorCode: string)

  /** The rows of one task, stage by stage, in the order they were inserted. */
  type Ledger = map<TaskStage, seq<StageRun>>

  function Runs(ledger: Ledger, stage: TaskStage): seq<StageRun> {
    if stage in ledger then ledger[stage] else []
  }

  /** `max(attempt)`, zero without rows. */
  function MaxAttempt(runs: seq<StageRun>): nat {
    if runs == [] then 0
    else MaxInt(MaxAttempt(runs[..|runs| - 1]), runs[|runs| - 1].attempt)
  }

  /** The unfinished row with the highest attempt. */
  function ActiveRun(runs: seq<StageRun>): (active: Option<int>)
    ensures active.Some? ==> 0 <= active.value < |runs| && runs[active.value].finishedAt == None
    ensures active == None ==> forall k :: 0 <= k < |runs| ==> runs[k].finishedAt.Some?
  {
    if runs == [] then None
    else
      var earlier, last := ActiveRun(runs[..|runs| - 1]), |runs| - 1;
      if runs[last].finishedAt == None && (earlier == None || runs[earlier.value].attempt < runs[last].attempt)
      then Some(last) else earlier
  }

  function Begun(runs: seq<StageRun>, now: int): (begun: seq<StageRun>)
    ensures ActiveRun(begun).Some?
  {
    if ActiveRun(runs).Some? then runs
    else runs + [StageRun(MaxAttempt(runs) + 1, RunProcessing, now, None, None, None, "")]
  }

  function Counted(runs: seq<StageRun>, now: int, itemsTotal: Option<int>, itemsDone: Option<int>): seq<StageRun> {
    var begun := Begun(runs, now);
    var i := ActiveRun(begun).value;
    begun[i := begun[i].(itemsTotal := if itemsTotal.Some? then itemsTotal else begun[i].itemsTotal,
                         itemsDone := if itemsDone.Some? then itemsDone else begun[i].itemsDone)]
  }

  function Closed(runs: seq<StageRun>, now: int, status: RunStatus, errorCode: string): seq<StageRun> {
    var begun := Begun(runs, now);
    var i := ActiveRun(begun).value;
    begun[i := begun[i].(status := status, finishedAt := Some(now), errorCode := errorCode)]
  }

  /** One task's rows, written the way the service writes them. */
  class StageRunTable {
    var ledger: Ledger

    constructor (ledger: Ledger)
      ensures this.ledger == ledger
    {
      this.ledger := ledger;
    }

    method MarkStarted(stage: TaskStage, now: int)
      modifies this
      ensures ledger == old(ledger)[stage := Begun(Runs(old(ledger), stage), now)]
    {
      var runs := Runs(ledger, stage);
      if ActiveRun(runs) == None {
        runs := runs + [StageRun(MaxAttempt(runs) + 1, RunProcessing, now, None, None, None, "")];
      }
      ledger := ledger[stage := runs];
    }

    method UpdateProgress(stage: TaskStage, now: int, itemsTotal: Option<int>, itemsDone: Option<int>)
      modifies this
      ensures ledger == old(ledger)[stage := Counted(Runs(old(ledger), stage), now, itemsTotal, itemsDone)]
    {
      MarkStarted(stage, now);
      var runs := ledger[stage];
      var i := ActiveRun(runs).value;
      var run := runs[i];
      if itemsTotal.Some? {
        run := run.(itemsTotal := itemsTotal);
      }
      if itemsDone.Some? {
        run := run.(itemsDone := itemsDone);
      }
      ledger := ledger[stage := runs[i := run]];
    }

    method MarkFinished(stage: TaskStage, now: int, status: RunStatus, errorCode: string)
      modifies this
      ensures ledger == old(ledger)[stage := Closed(Runs(old(ledger), stage), now, status, errorCode)]
    {
      MarkStarted(stage, now);
      var runs := ledger[stage];
      var i := ActiveRun(runs).value;
      ledger := ledger[stage := runs[i := runs[i].(status := status, finishedAt := Some(now), errorCode := errorCode)]];
    }
  }

  // ----- What every write keeps -----

  /** Attempts are numbered from one without a gap, and only the last may be unfinished. */
  ghost predicate SoundRuns(runs: seq<StageRun>) {
    && (forall k :: 0 <= k < |runs| ==> runs[k].attempt == k + 1)
    && (forall k :: 0 <= k < |runs| - 1 ==> runs[k].finishedAt.Some?)
  }

  ghost predicate SoundLedger(ledger: Ledger) {
    forall stage :: stage in ledger ==> SoundRuns(ledger[stage])
  }

  /** Nothing finished is touched: the finished rows of `before` stand unchanged in `after`. */
  ghost predicate KeepsFinished(before: seq<StageRun>, after: seq<StageRun>) {
    && |before| <= |after| <= |before| + 1
    && forall k :: 0 <= k < |before| && before[k].finishedAt.Some? ==> after[k] == before[k]
  }

  lemma {:induction false} SoundMaxAttempt(runs: seq<StageRun>)
    requires SoundRuns(runs)
    ensures MaxAttempt(runs) == |runs|
  {
    if runs != [] {
      SoundMaxAttempt(runs[..|runs| - 1]);
    }
  }

  lemma SoundActive(runs: seq<StageRun>)
    requires SoundRuns(runs)
    ensures ActiveRun(runs) == if runs != [] && runs[|runs| - 1].finishedAt == None then Some(|runs| - 1) else None
  {
    hide ActiveRun;
  }

  /** `after` is `before` with its open attempt, or else a new one, replaced by `last`. */
  ghost predicate EndsWith(before: seq<StageRun>, after: seq<StageRun>, now: int, last: StageRun) {
    && (if IsOpen(before) then |after| == |before| else |after| == |before| + 1)
    && after[..|after| - 1] == before[..|after| - 1]
    && after[|after| - 1] == last
  }

  ghost predicate IsOpen(runs: seq<StageRun>) {
    runs != [] && runs[|runs| - 1].finishedAt == None
  }

  /** The attempt that is written to: the open one, or a new one that starts now with the next number. */
  ghost function Current(runs: seq<StageRun>, now: int): StageRun {
    if IsOpen(runs) then runs[|runs| - 1] else StageRun(|runs| + 1, RunProcessing, now, None, None, None, "")
  }

  /** Starting opens a new attempt unless one is open, */
  lemma BegunEnds(runs: seq<StageRun>, now: int)
    requires SoundRuns(runs)
    ensures EndsWith(runs, Begun(runs, now), now, Current(runs, now))
    ensures IsOpen(runs) ==> Begun(runs, now) == runs
  {
    hide ActiveRun;
    SoundMaxAttempt(runs);
    SoundActive(runs);
  }

  /** counting sets what was reported of the current one, and */
  lemma CountedEnds(runs: seq<StageRun>, now: int, itemsTotal: Option<int>, itemsDone: Option<int>)
    requires SoundRuns(runs)
    ensures var current := Current(runs, now);
            EndsWith(runs, Counted(runs, now, itemsTotal, itemsDone), now,
                     current.(itemsTotal := if itemsTotal.Some? then itemsTotal else current.itemsTotal,
                              itemsDone := if itemsDone.Some? then itemsDone else current.itemsDone))
  {
    hide ActiveRun, MaxAttempt;
    BegunIsSound(runs, now);
    BegunEnds(runs, now);
  }

  /** finishing closes it with a status, a time and an error code. */
  lemma ClosedEnds(runs: seq<StageRun>, now: int, status: RunStatus, errorCode: string)
    requires SoundRuns(runs)
    ensures EndsWith(runs, Closed(runs, now, status, errorCode), now,
                     Current(runs, now).(status := status, finishedAt := Some(now), errorCode := errorCode))
  {
    hide ActiveRun, MaxAttempt;
    BegunIsSound(runs, now);
    BegunEnds(runs, now);
  }

  lemma BegunIsSound(runs: seq<StageRun>, now: int)
    requires SoundRuns(runs)
    ensures SoundRuns(Begun(runs, now)) && KeepsFinished(runs, Begun(runs, now))
    ensures ActiveRun(Begun(runs, now)) == Some(|Begun(runs, now)| - 1)
  {
    hide ActiveRun;
    SoundMaxAttempt(runs);
    SoundActive(runs);
    SoundActive(Begun(runs, now));
  }

  /** Counting items keeps the numbering and leaves finished attempts alone. */
  lemma CountedIsSound(runs: seq<StageRun>, now: int, itemsTotal: Option<int>, itemsDone: Option<int>)
    requires SoundRuns(runs)
    ensures SoundRuns(Counted(runs, now, itemsTotal, itemsDone))
    ensures KeepsFinished(runs, Counted(runs, now, itemsTotal, itemsDone))
  {
    hide ActiveRun, MaxAttempt;
    BegunIsSound(runs, now);
    SoundActive(runs);
  }

  /** So does finishing, after which no attempt is open. */
  lemma ClosedIsSound(runs: seq<StageRun>, now: int, status: RunStatus, errorCode: string)
    requires SoundRuns(runs)
    ensures SoundRuns(Closed(runs, now, status, errorCode))
    ensures KeepsFinished(runs, Closed(runs, now, status, errorCode))
    ensures forall k :: 0 <= k < |Closed(runs, now, status, errorCode)| ==> Closed(runs, now, status, errorCode)[k].finishedAt.Some?
  {
    hide ActiveRun, MaxAttempt;
    BegunIsSound(runs, now);
    SoundActive(runs);
  }
}
