/** How often a stalled task is dispatched again before it is given up. */
module AutoResume {
  import opened Numeric
  import opened PipelineTypes
  import opened TaskStore
  import opened TaskRuntime
  import opened StallReconciler
  import opened StallScenarios

  /** Re-dispatches since the auto-resume counter was last reset. */
  function Dispatches(log: seq<Event>): nat {
    if log == [] then 0
    else
      var last := log[|log| - 1];
      if last == CountGone then 0
      else Dispatches(log[..|log| - 1]) + if last.Redispatched? then 1 else 0
  }

  lemma DispatchesAppend(log: seq<Event>, event: Event)
    ensures Dispatches(log + [event])
         == if event == CountGone then 0 else Dispatches(log) + if event.Redispatched? then 1 else 0
  {
    assert (log + [event])[..|log|] == log;
  }

  lemma LogUnmoved(log: seq<Event>, event: Event)
    requires event != CountGone && !event.Redispatched?
    ensures Dispatches(log + [event]) == Dispatches(log)
  {
    DispatchesAppend(log, event);
  }

  // ----- The bound -----

  /** Between reading the counter and counting the dispatch. */
  predicate IsExposed(pc: Pc) {
    pc.SetGuard? || pc.Send? || pc.CountResume?
  }

  ghost predicate SomeExposed(sys: Sys) {
    exists p :: p in sys.passes && IsExposed(sys.passes[p].pc)
  }

  /** Whether a pass at the locked row goes on to dispatch. */
  predicate WillDispatch(limits: Limits, id: TaskId, sys: Sys) {
    && id in sys.db.tasks && sys.db.tasks[id].status == Processing && sys.db.tasks[id].source != ""
    && sys.clock - sys.db.tasks[id].lastActivity >= StallTimeout(limits)
    && sys.keys.resumeCount < ResumeCap(limits)
  }

  /** No pass reads the counter in order to dispatch while another has read it and not yet counted,
      and a pass that has dispatched gets to count it. */
  ghost predicate IsSafe(limits: Limits, id: TaskId, sys: Sys, action: Action) {
    && (action.Proceed? && action.pass in sys.passes && sys.passes[action.pass].pc == LockRow && WillDispatch(limits, id, sys)
        ==> !SomeExposed(sys))
    && (action.Crash? && action.pass in sys.passes ==> sys.passes[action.pass].pc != CountResume)
  }

  ghost predicate SafeRun(limits: Limits, id: TaskId, sys: Sys, actions: seq<Action>)
    decreases |actions|
  {
    actions == []
    || (SafeRun(limits, id, sys, actions[..|actions| - 1])
        && IsSafe(limits, id, Run(limits, id, sys, actions[..|actions| - 1]), actions[|actions| - 1]))
  }

  ghost predicate OneExposed(sys: Sys) {
    forall p, q :: p in sys.passes && q in sys.passes && IsExposed(sys.passes[p].pc) && IsExposed(sys.passes[q].pc) ==> p == q
  }

  ghost predicate Counting(sys: Sys) {
    exists p :: p in sys.passes && sys.passes[p].pc == CountResume
  }

  predicate HasRoom(cap: nat, keys: RuntimeKeys, pc: Pc) {
    IsExposed(pc) ==> keys.resumeCount < cap
  }

  /** Every dispatch is counted, except one that a pass is just about to count; and a pass about to
      dispatch has found room under the cap. */
  ghost predicate Accounted(cap: nat, sys: Sys) {
    && Dispatches(sys.log) <= sys.keys.resumeCount + (if Counting(sys) then 1 else 0)
    && Dispatches(sys.log) <= cap
    && forall p :: p in sys.passes ==> HasRoom(cap, sys.keys, sys.passes[p].pc)
  }

  ghost predicate Bounded(limits: Limits, sys: Sys) {
    OneExposed(sys) && Accounted(ResumeCap(limits), sys) && forall p :: p in sys.passes ==> p in sys.begun
  }

  lemma RoomOf(limits: Limits, sys: Sys, p: nat)
    requires Bounded(limits, sys) && p in sys.passes
    ensures HasRoom(ResumeCap(limits), sys.keys, sys.passes[p].pc) && p in sys.begun
  {
  }

  /** Steps that leave the counter and the dispatches alone, and end or move one pass without
      exposing it anew. */
  lemma QuietStep(limits: Limits, sys: Sys, after: Sys, p: nat)
    requires Bounded(limits, sys) && (p in sys.passes ==> sys.passes[p].pc != CountResume)
    requires after.keys.resumeCount == sys.keys.resumeCount && Dispatches(after.log) == Dispatches(sys.log)
    requires sys.begun <= after.begun && (p in after.passes ==> p in after.begun)
    requires forall q :: q != p ==> (q in sys.passes <==> q in after.passes)
    requires forall q :: q != p && q in sys.passes ==> after.passes[q] == sys.passes[q]
    requires p in after.passes && IsExposed(after.passes[p].pc) ==>
               !after.passes[p].pc.CountResume? && HasRoom(ResumeCap(limits), sys.keys, after.passes[p].pc)
               && ((p in sys.passes && IsExposed(sys.passes[p].pc)) || !SomeExposed(sys))
    ensures Bounded(limits, after)
  {
    if Counting(sys) {
      var q :| q in sys.passes && sys.passes[q].pc == CountResume;
      assert q != p && after.passes[q].pc == CountResume;
    }
    forall q | q in after.passes ensures HasRoom(ResumeCap(limits), after.keys, after.passes[q].pc) {
      if q != p {
        assert HasRoom(ResumeCap(limits), sys.keys, sys.passes[q].pc);
      }
    }
  }

  /** Steps that touch no pass, counter or dispatch. */
  lemma StillStep(limits: Limits, sys: Sys, after: Sys)
    requires Bounded(limits, sys) && after.passes == sys.passes && after.begun == sys.begun
    requires after.keys.resumeCount == sys.keys.resumeCount && Dispatches(after.log) == Dispatches(sys.log)
    ensures Bounded(limits, after)
  {
  }

  /** Steps that reset the counter, and end at most some passes. */
  lemma ResetStep(limits: Limits, sys: Sys, after: Sys, log: seq<Event>)
    requires Bounded(limits, sys) && after.keys.resumeCount == 0 && after.begun == sys.begun
    requires after.log == log + [CountGone]
    requires forall q :: q in after.passes ==> q in sys.passes && after.passes[q] == sys.passes[q]
    ensures Bounded(limits, after)
  {
    hide Dispatches;
    DispatchesAppend(log, CountGone);
    forall q | q in after.passes ensures HasRoom(ResumeCap(limits), after.keys, after.passes[q].pc) {
      assert HasRoom(ResumeCap(limits), sys.keys, sys.passes[q].pc);
    }
  }

  lemma LockRowStep(limits: Limits, id: TaskId, sys: Sys, p: nat)
    requires Bounded(limits, sys) && p in sys.passes && sys.passes[p].pc == LockRow && IsSafe(limits, id, sys, Proceed(p))
    ensures Bounded(limits, Advance(limits, id, sys, p))
  {
    hide Dispatches, Apply, Bounded;
    LogUnmoved(sys.log, SawLife(p));
    if id in sys.db.tasks {
      LogUnmoved(sys.log, Bumped(p, sys.clock, sys.db.tasks[id].lastActivity, sys.db.tasks[id].generation + 1));
    }
    RoomOf(limits, sys, p);
    QuietStep(limits, sys, Advance(limits, id, sys, p), p);
  }

  lemma SendStep(limits: Limits, id: TaskId, sys: Sys, p: nat)
    requires Bounded(limits, sys) && p in sys.passes && sys.passes[p].pc.Send?
    ensures Bounded(limits, Advance(limits, id, sys, p))
  {
    hide Dispatches;
    RoomOf(limits, sys, p);
    DispatchesAppend(sys.log, Redispatched(p, sys.passes[p].pc.generation));
    assert !Counting(sys);
    var after := Advance(limits, id, sys, p);
    assert after.passes[p].pc == CountResume;
    forall q | q in after.passes ensures HasRoom(ResumeCap(limits), after.keys, after.passes[q].pc) {
      if q != p {
        assert HasRoom(ResumeCap(limits), sys.keys, sys.passes[q].pc);
      }
    }
  }

  lemma CountStep(limits: Limits, id: TaskId, sys: Sys, p: nat)
    requires Bounded(limits, sys) && p in sys.passes && sys.passes[p].pc == CountResume
    ensures Bounded(limits, Advance(limits, id, sys, p))
  {
    hide Dispatches;
    var after := Advance(limits, id, sys, p);
    forall q | q in after.passes ensures HasRoom(ResumeCap(limits), after.keys, after.passes[q].pc) {
      if q != p {
        assert !IsExposed(sys.passes[q].pc);
      }
    }
  }

  lemma LookingStep(limits: Limits, id: TaskId, sys: Sys, p: nat)
    requires Bounded(limits, sys) && p in sys.passes
    requires sys.passes[p].pc in {ReadHeartbeat, CheckActivity, ReadLock, ReadGuard, ReadSuspicion, TakeReap}
    ensures Bounded(limits, Advance(limits, id, sys, p))
  {
    hide Dispatches, Bounded;
    var pass := sys.passes[p];
    LogUnmoved(sys.log, SawLife(p));
    LogUnmoved(sys.log, FoundStale(p, sys.clock));
    if sys.keys.suspectedAt.Some? {
      LogUnmoved(sys.log, Confirmed(p, sys.keys.suspectedAt.value, pass.now));
    }
    RoomOf(limits, sys, p);
    QuietStep(limits, sys, Advance(limits, id, sys, p), p);
  }

  lemma SuspicionStep(limits: Limits, id: TaskId, sys: Sys, p: nat)
    requires Bounded(limits, sys) && p in sys.passes
    requires sys.passes[p].pc in {RecordSuspicion, ClearSuspicion, ForgetSuspicion}
    ensures Bounded(limits, Advance(limits, id, sys, p))
  {
    hide Dispatches, Bounded;
    LogUnmoved(sys.log, SuspicionGone(Some(p)));
    LogUnmoved(sys.log, Recorded(p, sys.passes[p].now));
    RoomOf(limits, sys, p);
    QuietStep(limits, sys, Advance(limits, id, sys, p), p);
  }

  lemma RecheckStep(limits: Limits, id: TaskId, sys: Sys, p: nat)
    requires Bounded(limits, sys) && p in sys.passes
    requires sys.passes[p].pc in {RecheckHeartbeat, RecheckLock, RecheckGuard}
    ensures Bounded(limits, Advance(limits, id, sys, p))
  {
    hide Dispatches, Bounded;
    LogUnmoved(sys.log, SawLife(p));
    LogUnmoved(sys.log, Absent(p, HeartbeatSignal));
    LogUnmoved(sys.log, Absent(p, LockSignal));
    LogUnmoved(sys.log, Absent(p, GuardSignal));
    RoomOf(limits, sys, p);
    QuietStep(limits, sys, Advance(limits, id, sys, p), p);
  }

  lemma ActingStep(limits: Limits, id: TaskId, sys: Sys, p: nat)
    requires Bounded(limits, sys) && p in sys.passes
    requires sys.passes[p].pc.FailTask? || sys.passes[p].pc.SetGuard? || sys.passes[p].pc.DropGuard?
    ensures Bounded(limits, Advance(limits, id, sys, p))
  {
    hide Dispatches, Bounded, Apply, Goes;
    RoomOf(limits, sys, p);
    QuietStep(limits, sys, Advance(limits, id, sys, p), p);
  }

  lemma ProceedIsBounded(limits: Limits, id: TaskId, sys: Sys, p: nat)
    requires Bounded(limits, sys) && p in sys.passes && IsSafe(limits, id, sys, Proceed(p))
    ensures Bounded(limits, Advance(limits, id, sys, p))
  {
    hide Dispatches, Bounded, IsSafe;
    match sys.passes[p].pc {
      case LockRow => LockRowStep(limits, id, sys, p);
      case Send(_) => SendStep(limits, id, sys, p);
      case CountResume => CountStep(limits, id, sys, p);
      case ClearAll => ResetStep(limits, sys, Advance(limits, id, sys, p), sys.log + [SuspicionGone(Some(p))]);
      case FailTask(_, _) => ActingStep(limits, id, sys, p);
      case SetGuard(_) => ActingStep(limits, id, sys, p);
      case DropGuard => ActingStep(limits, id, sys, p);
      case RecheckHeartbeat => RecheckStep(limits, id, sys, p);
      case RecheckLock => RecheckStep(limits, id, sys, p);
      case RecheckGuard => RecheckStep(limits, id, sys, p);
      case RecordSuspicion => SuspicionStep(limits, id, sys, p);
      case ClearSuspicion => SuspicionStep(limits, id, sys, p);
      case ForgetSuspicion => SuspicionStep(limits, id, sys, p);
      case _ => LookingStep(limits, id, sys, p);
    }
  }

  lemma SafeStepIsBounded(limits: Limits, id: TaskId, sys: Sys, action: Action)
    requires Bounded(limits, sys) && IsSafe(limits, id, sys, action)
    ensures Bounded(limits, Step(limits, id, sys, action))
  {
    hide Dispatches, Bounded, Advance, Apply;
    var after := Step(limits, id, sys, action);
    match action {
      case Begin(p) =>
        if after != sys {
          NewPassIsNew(limits, sys, p);
          QuietStep(limits, sys, after, p);
        }
      case Proceed(p) => if p in sys.passes { ProceedIsBounded(limits, id, sys, p); }
      case Crash(p) =>
        if p in sys.passes {
          LogUnmoved(sys.log, Died(p));
          QuietStep(limits, sys, after, p);
        }
      case RefuseDispatch(p) =>
        if after != sys {
          RoomOf(limits, sys, p);
          QuietStep(limits, sys, after, p);
        }
      case SuspicionExpires =>
        LogUnmoved(sys.log, SuspicionGone(None));
        StillStep(limits, sys, after);
      case CountExpires => ResetStep(limits, sys, after, sys.log);
      case AllKeysCleared => ResetStep(limits, sys, after, sys.log + [SuspicionGone(None)]);
      case _ => StillStep(limits, sys, after);
    }
  }

  lemma NewPassIsNew(limits: Limits, sys: Sys, p: nat)
    requires Bounded(limits, sys) && p !in sys.begun
    ensures p !in sys.passes
  {
  }

  /** Between two resets of the counter a task is dispatched again at most as often as the cap
      allows, over every run in which no pass reads the counter between another's reading and
      counting, and dispatches get counted; whatever becomes of the reap lock. */
  lemma {:induction false} AutoResumesAreBounded(limits: Limits, id: TaskId, sys: Sys, actions: seq<Action>)
    requires Initial(sys) && SafeRun(limits, id, sys, actions)
    ensures Bounded(limits, Run(limits, id, sys, actions))
    ensures Dispatches(Run(limits, id, sys, actions).log) <= ResumeCap(limits)
    decreases |actions|
  {
    hide Step, Dispatches, IsSafe;
    if actions == [] {
      InitialIsBounded(limits, sys);
    } else {
      var earlier := actions[..|actions| - 1];
      AutoResumesAreBounded(limits, id, sys, earlier);
      SafeStepIsBounded(limits, id, Run(limits, id, sys, earlier), actions[|actions| - 1]);
    }
  }

  lemma InitialIsBounded(limits: Limits, sys: Sys)
    requires Initial(sys)
    ensures Bounded(limits, sys)
  {
  }

  /** When the cap is used up, the next confirmed stall does not dispatch: the pass goes on to fail
      the task, and does so unless somebody has moved the task on since. */
  lemma NextStallFails(limits: Limits, id: TaskId, sys: Sys, p: nat)
    requires Bounded(limits, sys) && p in sys.passes && sys.passes[p].pc == LockRow && IsSafe(limits, id, sys, Proceed(p))
    requires Dispatches(sys.log) == ResumeCap(limits) && id in sys.db.tasks
    ensures var after := Advance(limits, id, sys, p);
            after.db != sys.db ==>
              && p in after.passes && after.passes[p].pc.FailTask?
              && var failed := Advance(limits, id, after, p).db.tasks[id];
                 failed.status == Failed && failed.generation == sys.db.tasks[id].generation + 1
  {
    hide Dispatches;
    assert Counting(sys) ==> SomeExposed(sys);
    assert WillDispatch(limits, id, sys) ==> sys.keys.resumeCount >= ResumeCap(limits);
  }

  // ----- What the reap lock is for -----

  /** Between taking the reap lock and being done with the task. */
  predicate IsCritical(pc: Pc) {
    IsExposed(pc) || pc in {RecheckHeartbeat, RecheckLock, RecheckGuard, LockRow}
  }

  ghost predicate OneCritical(sys: Sys) {
    forall p, q :: p in sys.passes && q in sys.passes && IsCritical(sys.passes[p].pc) && IsCritical(sys.passes[q].pc) ==> p == q
  }

  ghost predicate SomeCritical(sys: Sys) {
    exists p :: p in sys.passes && IsCritical(sys.passes[p].pc)
  }

  /** The reap lock is never taken while a pass still relies on having taken it. It may be lost
      under its holder, as long as nobody else takes it then. */
  ghost predicate IsExclusive(sys: Sys, action: Action) {
    && (action.Proceed? && action.pass in sys.passes && sys.passes[action.pass].pc == TakeReap && sys.keys.reapLock == None
        ==> !SomeCritical(sys))
    && (action.Crash? && action.pass in sys.passes ==> sys.passes[action.pass].pc != CountResume)
  }

  ghost predicate ExclusiveRun(limits: Limits, id: TaskId, sys: Sys, actions: seq<Action>)
    decreases |actions|
  {
    actions == []
    || (ExclusiveRun(limits, id, sys, actions[..|actions| - 1])
        && IsExclusive(Run(limits, id, sys, actions[..|actions| - 1]), actions[|actions| - 1]))
  }

  /** What one command can do to the passes and to the counter. */
  ghost predicate Moves(sys: Sys, p: nat, after: Sys)
    requires p in sys.passes
  {
    var pc := sys.passes[p].pc;
    && after.begun == sys.begun
    && (if p in after.passes then after.passes == sys.passes[p := after.passes[p]] else after.passes == sys.passes - {p})
    && (p in after.passes && IsCritical(after.passes[p].pc) ==> IsCritical(pc) || pc == TakeReap)
    && (p in after.passes && after.passes[p].pc == CountResume <==> pc.Send?)
    && after.keys.resumeCount == (if pc == ClearAll then 0 else sys.keys.resumeCount + if pc == CountResume then 1 else 0)
  }

  lemma LookMoves(limits: Limits, id: TaskId, sys: Sys, p: nat)
    requires p in sys.passes
    requires sys.passes[p].pc in {ReadHeartbeat, CheckActivity, ReadLock, ReadGuard, ReadSuspicion, RecordSuspicion, ClearSuspicion}
    ensures Moves(sys, p, Advance(limits, id, sys, p))
  {
  }

  lemma RecheckMoves(limits: Limits, id: TaskId, sys: Sys, p: nat)
    requires p in sys.passes && sys.passes[p].pc in {TakeReap, RecheckHeartbeat, RecheckLock, RecheckGuard, LockRow}
    ensures Moves(sys, p, Advance(limits, id, sys, p))
  {
    hide Apply;
  }

  lemma ActionMoves(limits: Limits, id: TaskId, sys: Sys, p: nat)
    requires p in sys.passes
    requires var pc := sys.passes[p].pc;
             pc.FailTask? || pc.SetGuard? || pc.Send? || pc in {ClearAll, DropGuard, CountResume, ForgetSuspicion}
    ensures Moves(sys, p, Advance(limits, id, sys, p))
  {
    hide Apply, Goes;
  }

  lemma ProceedMoves(limits: Limits, id: TaskId, sys: Sys, p: nat)
    requires p in sys.passes
    ensures Moves(sys, p, Advance(limits, id, sys, p))
  {
    hide Moves, Advance;
    var pc := sys.passes[p].pc;
    if pc in {ReadHeartbeat, CheckActivity, ReadLock, ReadGuard, ReadSuspicion, RecordSuspicion, ClearSuspicion} {
      LookMoves(limits, id, sys, p);
    } else if pc in {TakeReap, RecheckHeartbeat, RecheckLock, RecheckGuard, LockRow} {
      RecheckMoves(limits, id, sys, p);
    } else {
      ActionMoves(limits, id, sys, p);
    }
  }

  lemma ProceedKeepsOneCritical(limits: Limits, id: TaskId, sys: Sys, p: nat)
    requires OneCritical(sys) && p in sys.passes && IsExclusive(sys, Proceed(p))
    ensures OneCritical(Advance(limits, id, sys, p))
  {
    ProceedMoves(limits, id, sys, p);
    if sys.passes[p].pc == TakeReap && sys.keys.reapLock.Some? {
      assert p !in Advance(limits, id, sys, p).passes;
    }
    hide Advance, IsCritical;
  }

  lemma ExclusiveStep(limits: Limits, id: TaskId, sys: Sys, action: Action)
    requires OneCritical(sys) && IsExclusive(sys, action)
    ensures OneCritical(Step(limits, id, sys, action)) && IsSafe(limits, id, sys, action)
  {
    hide Advance, Apply;
    if action.Proceed? && action.pass in sys.passes {
      ProceedKeepsOneCritical(limits, id, sys, action.pass);
    }
  }

  /** An exclusive reap lock makes a run safe. */
  lemma {:induction false} ExclusiveReapIsSafe(limits: Limits, id: TaskId, sys: Sys, actions: seq<Action>)
    requires Initial(sys) && ExclusiveRun(limits, id, sys, actions)
    ensures SafeRun(limits, id, sys, actions) && OneCritical(Run(limits, id, sys, actions))
    decreases |actions|
  {
    hide Step, IsSafe, IsExclusive;
    if actions != [] {
      var earlier := actions[..|actions| - 1];
      ExclusiveReapIsSafe(limits, id, sys, earlier);
      ExclusiveStep(limits, id, Run(limits, id, sys, earlier), actions[|actions| - 1]);
    }
  }

  // ----- Exactly when the cap is overspent -----

  ghost function CountingPasses(sys: Sys): set<nat> {
    set p | p in sys.passes && sys.passes[p].pc == CountResume
  }

  predicate IsSend(sys: Sys, action: Action) {
    action.Proceed? && action.pass in sys.passes && sys.passes[action.pass].pc.Send?
  }

  predicate IsReset(sys: Sys, action: Action) {
    || action.CountExpires? || action.AllKeysCleared?
    || (action.Proceed? && action.pass in sys.passes && sys.passes[action.pass].pc == ClearAll)
  }

  /** No dispatch escapes the counter: it is not reset while one is about to be counted, and the
      pass that is to count it does. */
  ghost predicate IsAccurate(sys: Sys, action: Action) {
    && (IsReset(sys, action) ==> CountingPasses(sys) == {})
    && (action.Crash? && action.pass in sys.passes ==> sys.passes[action.pass].pc != CountResume)
  }

  ghost predicate AccurateRun(limits: Limits, id: TaskId, sys: Sys, actions: seq<Action>)
    decreases |actions|
  {
    actions == []
    || (AccurateRun(limits, id, sys, actions[..|actions| - 1])
        && IsAccurate(Run(limits, id, sys, actions[..|actions| - 1]), actions[|actions| - 1]))
  }

  /** At the moment of sending, the counter and the dispatches still to be counted leave room. */
  ghost predicate SendsHaveRoom(limits: Limits, id: TaskId, sys: Sys, actions: seq<Action>)
    decreases |actions|
  {
    actions == []
    || (SendsHaveRoom(limits, id, sys, actions[..|actions| - 1])
        && var before := Run(limits, id, sys, actions[..|actions| - 1]);
           IsSend(before, actions[|actions| - 1]) ==> before.keys.resumeCount + |CountingPasses(before)| < ResumeCap(limits))
  }

  ghost predicate NeverOverspent(limits: Limits, id: TaskId, sys: Sys, actions: seq<Action>)
    decreases |actions|
  {
    && Dispatches(Run(limits, id, sys, actions).log) <= ResumeCap(limits)
    && (actions != [] ==> NeverOverspent(limits, id, sys, actions[..|actions| - 1]))
  }

  lemma LooksDispatchNothing(limits: Limits, id: TaskId, sys: Sys, p: nat)
    requires p in sys.passes
    requires sys.passes[p].pc in {ReadHeartbeat, CheckActivity, ReadSuspicion, RecordSuspicion, ClearSuspicion, ForgetSuspicion}
    ensures Dispatches(Advance(limits, id, sys, p).log) == Dispatches(sys.log)
  {
    hide Dispatches;
    var pass := sys.passes[p];
    LogUnmoved(sys.log, SawLife(p));
    LogUnmoved(sys.log, FoundStale(p, sys.clock));
    LogUnmoved(sys.log, Recorded(p, pass.now));
    LogUnmoved(sys.log, SuspicionGone(Some(p)));
    if sys.keys.suspectedAt.Some? {
      LogUnmoved(sys.log, Confirmed(p, sys.keys.suspectedAt.value, pass.now));
    }
  }

  lemma RechecksDispatchNothing(limits: Limits, id: TaskId, sys: Sys, p: nat)
    requires p in sys.passes && sys.passes[p].pc in {RecheckHeartbeat, RecheckLock, RecheckGuard, LockRow}
    ensures Dispatches(Advance(limits, id, sys, p).log) == Dispatches(sys.log)
  {
    hide Dispatches, Apply;
    LogUnmoved(sys.log, SawLife(p));
    LogUnmoved(sys.log, Absent(p, HeartbeatSignal));
    LogUnmoved(sys.log, Absent(p, LockSignal));
    LogUnmoved(sys.log, Absent(p, GuardSignal));
    if id in sys.db.tasks {
      LogUnmoved(sys.log, Bumped(p, sys.clock, sys.db.tasks[id].lastActivity, sys.db.tasks[id].generation + 1));
    }
  }

  /** Only sending adds to the dispatches. */
  lemma ProceedDispatches(limits: Limits, id: TaskId, sys: Sys, p: nat)
    requires p in sys.passes
    ensures Dispatches(Advance(limits, id, sys, p).log)
         == if sys.passes[p].pc == ClearAll then 0 else Dispatches(sys.log) + if sys.passes[p].pc.Send? then 1 else 0
  {
    hide Dispatches, Apply, Goes;
    var pc := sys.passes[p].pc;
    if pc in {ReadHeartbeat, CheckActivity, ReadSuspicion, RecordSuspicion, ClearSuspicion, ForgetSuspicion} {
      LooksDispatchNothing(limits, id, sys, p);
    } else if pc in {RecheckHeartbeat, RecheckLock, RecheckGuard, LockRow} {
      RechecksDispatchNothing(limits, id, sys, p);
    } else if pc == ClearAll {
      DispatchesAppend(sys.log + [SuspicionGone(Some(p))], CountGone);
    } else if pc.Send? {
      DispatchesAppend(sys.log, Redispatched(p, pc.generation));
    }
  }

  lemma StepDispatches(limits: Limits, id: TaskId, sys: Sys, action: Action)
    ensures Dispatches(Step(limits, id, sys, action).log)
         == if IsReset(sys, action) then 0 else Dispatches(sys.log) + if IsSend(sys, action) then 1 else 0
  {
    hide Dispatches, Advance, Apply;
    match action {
      case Proceed(p) => if p in sys.passes { ProceedDispatches(limits, id, sys, p); }
      case Crash(p) => LogUnmoved(sys.log, Died(p));
      case SuspicionExpires => LogUnmoved(sys.log, SuspicionGone(None));
      case CountExpires => DispatchesAppend(sys.log, CountGone);
      case AllKeysCleared => DispatchesAppend(sys.log + [SuspicionGone(None)], CountGone);
      case _ =>
    }
  }

  /** A dispatch that is sent waits to be counted until its pass counts it. */
  lemma ProceedKeepsAccount(sys: Sys, p: nat, after: Sys)
    requires p in sys.passes && Moves(sys, p, after) && (sys.passes[p].pc == ClearAll ==> CountingPasses(sys) == {})
    ensures after.keys.resumeCount + |CountingPasses(after)|
         == if sys.passes[p].pc == ClearAll then 0
            else sys.keys.resumeCount + |CountingPasses(sys)| + if sys.passes[p].pc.Send? then 1 else 0
  {
    hide CountingPasses, IsCritical;
    ProceedCounts(sys, p, after);
    CountsAdd(sys, after, p);
  }

  lemma OthersKeepAccount(limits: Limits, id: TaskId, sys: Sys, action: Action)
    requires IsAccurate(sys, action) && !action.Proceed? && forall p :: p in sys.passes ==> p in sys.begun
    ensures var after := Step(limits, id, sys, action);
            && (forall p :: p in after.passes ==> p in after.begun)
            && CountingPasses(after) == CountingPasses(sys)
            && (after.keys.resumeCount == if IsReset(sys, action) then 0 else sys.keys.resumeCount)
  {
    hide Apply;
  }

  /** Counter and dispatches yet to be counted move together. */
  lemma StepCounts(limits: Limits, id: TaskId, sys: Sys, action: Action)
    requires IsAccurate(sys, action) && forall p :: p in sys.passes ==> p in sys.begun
    ensures var after := Step(limits, id, sys, action);
            && (forall p :: p in after.passes ==> p in after.begun)
            && after.keys.resumeCount + |CountingPasses(after)|
               == if IsReset(sys, action) then 0
                  else sys.keys.resumeCount + |CountingPasses(sys)| + if IsSend(sys, action) then 1 else 0
  {
    if action.Proceed? {
      var p := action.pass;
      if p in sys.passes {
        hide Advance, CountingPasses;
        ProceedMoves(limits, id, sys, p);
        ProceedKeepsAccount(sys, p, Advance(limits, id, sys, p));
      }
    } else {
      hide Step, CountingPasses;
      OthersKeepAccount(limits, id, sys, action);
    }
  }

  lemma CountsAdd(sys: Sys, after: Sys, p: nat)
    requires p in sys.passes
    requires CountingPasses(after) == if sys.passes[p].pc.Send? then CountingPasses(sys) + {p} else CountingPasses(sys) - {p}
    ensures |CountingPasses(after)| - |CountingPasses(sys)|
         == (if sys.passes[p].pc.Send? then 1 else 0) - (if sys.passes[p].pc == CountResume then 1 else 0)
  {
    var counting := CountingPasses(sys);
    assert p in counting <==> sys.passes[p].pc == CountResume;
    assert p !in counting ==> counting - {p} == counting;
  }

  lemma ProceedCounts(sys: Sys, p: nat, after: Sys)
    requires p in sys.passes && Moves(sys, p, after)
    ensures after.begun == sys.begun && forall q :: q in after.passes ==> q in sys.passes
    ensures CountingPasses(after) == (if sys.passes[p].pc.Send? then CountingPasses(sys) + {p} else CountingPasses(sys) - {p})
    ensures after.keys.resumeCount == (if sys.passes[p].pc == ClearAll then 0
                                       else sys.keys.resumeCount + if sys.passes[p].pc == CountResume then 1 else 0)
  {
    hide IsCritical;
  }

  /** The two accounts agree along an accurate run. */
  lemma {:induction false} AccountsAgree(limits: Limits, id: TaskId, sys: Sys, actions: seq<Action>)
    requires Initial(sys) && AccurateRun(limits, id, sys, actions)
    ensures var after := Run(limits, id, sys, actions);
            && (forall p :: p in after.passes ==> p in after.begun)
            && Dispatches(after.log) == after.keys.resumeCount + |CountingPasses(after)|
    decreases |actions|
  {
    hide Step, Dispatches, CountingPasses, IsAccurate, IsReset, IsSend;
    if actions == [] {
      NothingCounted(sys);
    } else {
      var earlier, last := actions[..|actions| - 1], actions[|actions| - 1];
      AccountsAgree(limits, id, sys, earlier);
      StepDispatches(limits, id, Run(limits, id, sys, earlier), last);
      StepCounts(limits, id, Run(limits, id, sys, earlier), last);
    }
  }

  lemma NothingCounted(sys: Sys)
    requires Initial(sys)
    ensures CountingPasses(sys) == {} && Dispatches(sys.log) == 0
  {
  }

  /** While no dispatch escapes the counter, the cap is kept throughout a run if and only if every
      message was sent with room for it in the counter and the dispatches still to be counted. */
  lemma {:induction false} CapIsKeptExactlyWithRoom(limits: Limits, id: TaskId, sys: Sys, actions: seq<Action>)
    requires Initial(sys) && AccurateRun(limits, id, sys, actions)
    ensures NeverOverspent(limits, id, sys, actions) <==> SendsHaveRoom(limits, id, sys, actions)
    decreases |actions|
  {
    hide Step, Dispatches, CountingPasses, IsAccurate;
    if actions == [] {
      NothingCounted(sys);
    } else {
      var earlier, last := actions[..|actions| - 1], actions[|actions| - 1];
      CapIsKeptExactlyWithRoom(limits, id, sys, earlier);
      AccountsAgree(limits, id, sys, earlier);
      StepDispatches(limits, id, Run(limits, id, sys, earlier), last);
    }
  }

  // ----- A run that overspends -----

  /** Between two rounds: nobody at work on a silent task, and passes below `unused` used up. */
  ghost predicate IsIdle(limits: Limits, id: TaskId, sys: Sys, unused: nat) {
    && IsSilent(limits, id, sys) && sys.keys.suspectedAt == None && sys.keys.reapLock == None
    && sys.passes == map[] && forall p :: p in sys.begun ==> p < unused
  }

  lemma FirstLookDispatchesNothing(limits: Limits, sys: Sys, p: nat)
    ensures Dispatches(Suspected(limits, sys, p).log) == Dispatches(sys.log)
  {
    hide Dispatches;
    LogUnmoved(sys.log, FoundStale(p, sys.clock));
    LogUnmoved(sys.log + [FoundStale(p, sys.clock)], Recorded(p, sys.clock));
  }

  lemma SecondLookDispatchesNothing(log: seq<Event>, p: nat, at: int, now: int)
    ensures Dispatches(log + SecondLook(p, at, now)) == Dispatches(log)
  {
    hide Dispatches;
    var longer := log + [FoundStale(p, now)];
    LogUnmoved(log, FoundStale(p, now));
    LogUnmoved(longer, Confirmed(p, at, now));
    longer := longer + [Confirmed(p, at, now)];
    LogUnmoved(longer, Absent(p, HeartbeatSignal));
    longer := longer + [Absent(p, HeartbeatSignal)];
    LogUnmoved(longer, Absent(p, LockSignal));
    longer := longer + [Absent(p, LockSignal)];
    LogUnmoved(longer, Absent(p, GuardSignal));
    assert log + SecondLook(p, at, now) == longer + [Absent(p, GuardSignal)];
  }

  lemma DispatchedOnceMore(id: TaskId, sys: Sys, p: nat)
    requires id in sys.db.tasks && p in sys.passes
    ensures Dispatches(Dispatched(id, sys, p).log) == Dispatches(sys.log) + 1
  {
    hide Dispatches;
    var row := sys.db.tasks[id];
    var bumped := Bumped(p, sys.clock, row.lastActivity, row.generation + 1);
    DispatchesAppend(sys.log, bumped);
    DispatchesAppend(sys.log + [bumped], Redispatched(p, row.generation + 1));
  }

  /** A full round on a silent task: suspected, confirmed, dispatched and counted, and the
      dispatched worker dies as silently as the one before. */
  lemma OneRound(limits: Limits, id: TaskId, start: Sys, before: seq<Action>, unused: nat) returns (actions: seq<Action>)
    requires var sys := Run(limits, id, start, before);
             IsIdle(limits, id, sys, unused) && sys.keys.resumeCount < ResumeCap(limits)
    ensures var sys, after := Run(limits, id, start, before), Run(limits, id, start, actions);
            && IsIdle(limits, id, after, unused + 2) && after.keys.resumeCount == sys.keys.resumeCount + 1
            && Dispatches(after.log) == Dispatches(sys.log) + 1
  {
    hide Run, Dispatches, SecondLook;
    var sys := Run(limits, id, start, before);
    actions := PassSuspects(limits, id, start, before, unused);
    FirstLookDispatchesNothing(limits, sys, unused);
    var suspected := Run(limits, id, start, actions);
    actions := PassReachesRow(limits, id, start, actions, unused + 1);
    SecondLookDispatchesNothing(suspected.log, unused + 1, suspected.keys.suspectedAt.value, suspected.clock);
    var locked := Run(limits, id, start, actions);
    actions := PassDispatches(limits, id, start, actions, unused + 1);
    DispatchedOnceMore(id, locked, unused + 1);
    actions := RoundEnds(limits, id, start, actions, unused + 1);
  }

  lemma RoundEnds(limits: Limits, id: TaskId, start: Sys, before: seq<Action>, p: nat) returns (actions: seq<Action>)
    requires var sys := Run(limits, id, start, before); sys.passes.Keys == {p} && sys.passes[p].pc == CountResume
    ensures var sys, after := Run(limits, id, start, before), Run(limits, id, start, actions);
            && after.db == sys.db && after.clock == sys.clock && after.begun == sys.begun && after.passes == map[]
            && after.keys == sys.keys.(resumeCount := sys.keys.resumeCount + 1, suspectedAt := None, dispatchGuard := false,
                                       reapLock := None)
            && Dispatches(after.log) == Dispatches(sys.log)
  {
    hide Run, Dispatches;
    var sys := Run(limits, id, start, before);
    LogUnmoved(sys.log, SuspicionGone(Some(p)));
    actions := RunProceeds(limits, id, start, before, p);
    actions := RunProceeds(limits, id, start, actions, p);
    assert Run(limits, id, start, actions).passes.Keys == {};
    RunSteps(limits, id, start, actions, GuardGone);
    actions := actions + [GuardGone];
    RunSteps(limits, id, start, actions, ReapGone);
    actions := actions + [ReapGone];
  }

  lemma {:induction false} Rounds(limits: Limits, id: TaskId, start: Sys, n: nat) returns (actions: seq<Action>)
    requires Initial(start) && IsIdle(limits, id, start, 0) && n <= ResumeCap(limits)
    ensures var after := Run(limits, id, start, actions);
            IsIdle(limits, id, after, 2 * n) && Dispatches(after.log) == after.keys.resumeCount == n
  {
    if n == 0 {
      actions := [];
      NothingCounted(start);
    } else {
      hide Run, Dispatches;
      actions := Rounds(limits, id, start, n - 1);
      actions := OneRound(limits, id, start, actions, 2 * (n - 1));
    }
  }

  /** Without such care the cap does not hold, whatever it is: from an initial state with a silent
      task, all resumes but one are spent in good order; then the reap lock expires under a slow
      pass, a second one passes the same checks, and both dispatch on the last resume. */
  lemma LostReapLockOverspends(limits: Limits, id: TaskId, start: Sys) returns (actions: seq<Action>)
    requires Initial(start) && IsIdle(limits, id, start, 0) && ResumeCap(limits) > 0
    ensures Dispatches(Run(limits, id, start, actions).log) == ResumeCap(limits) + 1
  {
    hide Run, Dispatches, SecondLook;
    var cap := ResumeCap(limits);
    actions := Rounds(limits, id, start, cap - 1);
    var unused := 2 * (cap - 1);
    var idle := Run(limits, id, start, actions);
    actions := PassSuspects(limits, id, start, actions, unused);
    FirstLookDispatchesNothing(limits, idle, unused);
    var first := Run(limits, id, start, actions);
    actions := PassReachesRow(limits, id, start, actions, unused + 1);
    SecondLookDispatchesNothing(first.log, unused + 1, first.keys.suspectedAt.value, first.clock);
    RunSteps(limits, id, start, actions, ReapGone);
    actions := actions + [ReapGone];
    var second := Run(limits, id, start, actions);
    actions := PassReachesRow(limits, id, start, actions, unused + 2);
    SecondLookDispatchesNothing(second.log, unused + 2, second.keys.suspectedAt.value, second.clock);
    actions := BothDispatch(limits, id, start, actions, unused + 1, unused + 2);
  }

  lemma BothDispatch(limits: Limits, id: TaskId, start: Sys, before: seq<Action>, p: nat, q: nat) returns (actions: seq<Action>)
    requires var sys := Run(limits, id, start, before);
             && p != q && p in sys.passes && q in sys.passes && sys.passes[p].pc == LockRow && sys.passes[q].pc == LockRow
             && IsSilent(limits, id, sys) && sys.keys.resumeCount < ResumeCap(limits)
    ensures Dispatches(Run(limits, id, start, actions).log) == Dispatches(Run(limits, id, start, before).log) + 2
  {
    hide Run, Dispatches;
    var sys := Run(limits, id, start, before);
    actions := PassDispatches(limits, id, start, before, p);
    DispatchedOnceMore(id, sys, p);
    var once := Run(limits, id, start, actions);
    actions := PassDispatches(limits, id, start, actions, q);
    DispatchedOnceMore(id, once, q);
  }
}
