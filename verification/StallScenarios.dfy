/** Runs of the stall reconciler, built step by step from an initial state. */
module StallScenarios {
  import opened Numeric
  import opened PipelineTypes
  import opened TaskStore
  import opened TaskRuntime
  import opened StallReconciler

  /** A processing task whose worker is gone and has been silent for long enough. */
  ghost predicate IsSilent(limits: Limits, id: TaskId, sys: Sys) {
    && id in sys.db.tasks && sys.db.tasks[id].status == Processing && sys.db.tasks[id].source != ""
    && sys.clock - sys.db.tasks[id].lastActivity >= StallTimeout(limits)
    && !sys.keys.heartbeat && !sys.keys.workerLock && !sys.keys.dispatchGuard
  }

  /** Such a task with a suspicion old enough to act on. */
  ghost predicate IsDead(limits: Limits, id: TaskId, sys: Sys) {
    && IsSilent(limits, id, sys)
    && sys.keys.suspectedAt.Some? && sys.clock - sys.keys.suspectedAt.value >= Confirmation(limits)
  }

  function PassAt(id: TaskId, sys: Sys, p: nat, pc: Pc): Pass
    requires id in sys.db.tasks
  {
    Pass(pc, sys.db.tasks[id].lastActivity, sys.clock)
  }

  lemma NoActions(limits: Limits, id: TaskId, sys: Sys)
    ensures Run(limits, id, sys, []) == sys
  {
  }

  lemma RunSteps(limits: Limits, id: TaskId, sys: Sys, actions: seq<Action>, action: Action)
    ensures Run(limits, id, sys, actions + [action]) == Step(limits, id, Run(limits, id, sys, actions), action)
  {
    assert (actions + [action])[..|actions|] == actions;
  }

  lemma RunProceeds(limits: Limits, id: TaskId, sys: Sys, actions: seq<Action>, p: nat) returns (longer: seq<Action>)
    requires p in Run(limits, id, sys, actions).passes
    ensures longer == actions + [Proceed(p)]
    ensures Run(limits, id, sys, longer) == Advance(limits, id, Run(limits, id, sys, actions), p)
  {
    RunSteps(limits, id, sys, actions, Proceed(p));
    longer := actions + [Proceed(p)];
  }

  /** The first look at a silent task, and the wait for the second. */
  function Suspected(limits: Limits, sys: Sys, p: nat): Sys {
    sys.(keys := sys.keys.(suspectedAt := Some(sys.clock)), begun := sys.begun + {p}, clock := sys.clock + Confirmation(limits),
         log := sys.log + [FoundStale(p, sys.clock)] + [Recorded(p, sys.clock)])
  }

  lemma PassSuspects(limits: Limits, id: TaskId, start: Sys, before: seq<Action>, p: nat) returns (actions: seq<Action>)
    requires var sys := Run(limits, id, start, before);
             IsSilent(limits, id, sys) && p !in sys.begun && p !in sys.passes && sys.keys.suspectedAt == None
    ensures Run(limits, id, start, actions) == Suspected(limits, Run(limits, id, start, before), p)
    ensures IsDead(limits, id, Run(limits, id, start, actions))
  {
    hide Run;
    var sys := Run(limits, id, start, before);
    actions := PassReachesSuspicion(limits, id, start, before, p);
    actions := RunProceeds(limits, id, start, actions, p);
    assert Run(limits, id, start, actions).passes == sys.passes[p := PassAt(id, sys, p, RecordSuspicion)];
    actions := RunProceeds(limits, id, start, actions, p);
    assert Run(limits, id, start, actions).passes == sys.passes;
    RunSteps(limits, id, start, actions, Tick(Confirmation(limits)));
    actions := actions + [Tick(Confirmation(limits))];
  }

  lemma PassReachesSuspicion(limits: Limits, id: TaskId, start: Sys, before: seq<Action>, p: nat) returns (actions: seq<Action>)
    requires var sys := Run(limits, id, start, before); IsSilent(limits, id, sys) && p !in sys.begun
    ensures var sys := Run(limits, id, start, before);
            Run(limits, id, start, actions)
            == sys.(passes := sys.passes[p := PassAt(id, sys, p, ReadSuspicion)], begun := sys.begun + {p},
                    log := sys.log + [FoundStale(p, sys.clock)])
  {
    hide Run;
    var sys := Run(limits, id, start, before);
    RunSteps(limits, id, start, before, Begin(p));
    actions := before + [Begin(p)];
    actions := RunProceeds(limits, id, start, actions, p);
    actions := RunProceeds(limits, id, start, actions, p);
    actions := RunProceeds(limits, id, start, actions, p);
    actions := RunProceeds(limits, id, start, actions, p);
    assert Run(limits, id, start, actions).passes == sys.passes[p := PassAt(id, sys, p, ReadSuspicion)];
  }

  /** What the second look adds to the log before the row is locked. */
  function SecondLook(p: nat, at: int, now: int): seq<Event> {
    [FoundStale(p, now), Confirmed(p, at, now), Absent(p, HeartbeatSignal), Absent(p, LockSignal), Absent(p, GuardSignal)]
  }

  /** Where a pass over a dead task stands right before it locks the row. */
  function AtRow(id: TaskId, sys: Sys, p: nat): Sys
    requires id in sys.db.tasks && sys.keys.suspectedAt.Some?
  {
    sys.(keys := sys.keys.(reapLock := Some(p)),
         passes := sys.passes[p := PassAt(id, sys, p, LockRow)],
         begun := sys.begun + {p},
         log := sys.log + SecondLook(p, sys.keys.suspectedAt.value, sys.clock))
  }

  lemma PassReachesRow(limits: Limits, id: TaskId, start: Sys, before: seq<Action>, p: nat) returns (actions: seq<Action>)
    requires var sys := Run(limits, id, start, before);
             IsDead(limits, id, sys) && p !in sys.begun && sys.keys.reapLock == None
    ensures Run(limits, id, start, actions) == AtRow(id, Run(limits, id, start, before), p)
  {
    hide Run;
    var sys := Run(limits, id, start, before);
    actions := PassReachesSuspicion(limits, id, start, before, p);
    actions := RunProceeds(limits, id, start, actions, p);
    actions := RunProceeds(limits, id, start, actions, p);
    actions := RunProceeds(limits, id, start, actions, p);
    actions := RunProceeds(limits, id, start, actions, p);
    actions := RunProceeds(limits, id, start, actions, p);
    assert Run(limits, id, start, actions).passes == sys.passes[p := PassAt(id, sys, p, LockRow)];
  }

  /** From the locked row to the sent message, as long as the counter leaves room. */
  lemma PassDispatches(limits: Limits, id: TaskId, start: Sys, before: seq<Action>, p: nat) returns (actions: seq<Action>)
    requires var sys := Run(limits, id, start, before);
             && p in sys.passes && sys.passes[p].pc == LockRow && sys.keys.resumeCount < ResumeCap(limits)
             && id in sys.db.tasks && sys.db.tasks[id].status == Processing && sys.db.tasks[id].source != ""
             && sys.clock - sys.db.tasks[id].lastActivity >= StallTimeout(limits)
    ensures Run(limits, id, start, actions) == Dispatched(id, Run(limits, id, start, before), p)
  {
    hide Run;
    var sys := Run(limits, id, start, before);
    actions := RunProceeds(limits, id, start, before, p);
    actions := RunProceeds(limits, id, start, actions, p);
    actions := RunProceeds(limits, id, start, actions, p);
    assert Run(limits, id, start, actions).passes == sys.passes[p := sys.passes[p].(pc := CountResume)];
  }

  function Dispatched(id: TaskId, sys: Sys, p: nat): Sys
    requires id in sys.db.tasks && p in sys.passes
  {
    var row := sys.db.tasks[id];
    sys.(db := sys.db.(tasks := sys.db.tasks[id := row.(generation := row.generation + 1)]),
         keys := sys.keys.(dispatchGuard := true),
         passes := sys.passes[p := sys.passes[p].(pc := CountResume)],
         log := sys.log + [Bumped(p, sys.clock, row.lastActivity, row.generation + 1)] + [Redispatched(p, row.generation + 1)])
  }

  // ----- The system and the reconciler agree on a pass that nobody disturbs -----

  /** At most n commands of one pass and nothing else. */
  function Alone(limits: Limits, id: TaskId, sys: Sys, p: nat, n: nat): Sys
    decreases n
  {
    if n == 0 || p !in sys.passes then sys else Alone(limits, id, Advance(limits, id, sys, p), p, n - 1)
  }

  lemma AloneGoesOn(limits: Limits, id: TaskId, sys: Sys, p: nat, n: nat)
    requires p in sys.passes && n > 0
    ensures Alone(limits, id, sys, p, n) == Alone(limits, id, Advance(limits, id, sys, p), p, n - 1)
  {
  }

  lemma AloneEnds(limits: Limits, id: TaskId, sys: Sys, p: nat, n: nat)
    requires p !in sys.passes
    ensures Alone(limits, id, sys, p, n) == sys
  {
  }

  /** The pass is here, with the activity and the clock it began with, over these keys. */
  ghost predicate IsAt(id: TaskId, start: Sys, sys: Sys, p: nat, pc: Pc, keys: RuntimeKeys)
    requires id in start.db.tasks
  {
    && sys.db == start.db && sys.clock == start.clock && sys.keys == keys
    && p in sys.passes && sys.passes[p] == Pass(pc, start.db.tasks[id].lastActivity, start.clock)
  }

  ghost predicate IsDone(start: Sys, sys: Sys, p: nat, db: Db, keys: RuntimeKeys) {
    p !in sys.passes && sys.db == db && sys.keys == keys
  }

  /** One command of a look: where it goes, or with which keys it ends. */
  lemma LookGoes(limits: Limits, id: TaskId, start: Sys, sys: Sys, p: nat, pc: Pc)
    requires id in start.db.tasks && IsAt(id, start, sys, p, pc, start.keys)
    requires pc in {ReadHeartbeat, CheckActivity, ReadLock, ReadGuard, ReadSuspicion, RecordSuspicion, ClearSuspicion, TakeReap}
    ensures var row, keys, after := start.db.tasks[id], start.keys, Advance(limits, id, sys, p);
            match pc
            case ReadHeartbeat => IsAt(id, start, after, p, if keys.heartbeat then ClearSuspicion else CheckActivity, keys)
            case CheckActivity =>
              IsAt(id, start, after, p, if start.clock - row.lastActivity < StallTimeout(limits) then ClearSuspicion else ReadLock, keys)
            case ReadLock =>
              if keys.workerLock then IsDone(start, after, p, start.db, keys) else IsAt(id, start, after, p, ReadGuard, keys)
            case ReadGuard =>
              if keys.dispatchGuard then IsDone(start, after, p, start.db, keys) else IsAt(id, start, after, p, ReadSuspicion, keys)
            case ReadSuspicion =>
              if keys.suspectedAt == None then IsAt(id, start, after, p, RecordSuspicion, keys)
              else if start.clock - keys.suspectedAt.value < Confirmation(limits) then IsDone(start, after, p, start.db, keys)
              else IsAt(id, start, after, p, TakeReap, keys)
            case RecordSuspicion =>
              keys.suspectedAt == None ==> IsDone(start, after, p, start.db, keys.(suspectedAt := Some(start.clock)))
            case ClearSuspicion => IsDone(start, after, p, start.db, keys.(suspectedAt := None))
            case TakeReap =>
              if keys.reapLock.Some? then IsDone(start, after, p, start.db, keys)
              else IsAt(id, start, after, p, RecheckHeartbeat, keys.(reapLock := Some(p)))
            case _ => true
  {
  }

  /** A pass that finds nothing to act on leaves the keys `KeysAfterLook` names. */
  lemma LonePassLooks(limits: Limits, id: TaskId, start: Sys, p: nat)
    requires id in start.db.tasks && start.db.tasks[id].status == Processing
    requires IsAt(id, start, start, p, ReadHeartbeat, start.keys)
    requires !ActsOn(limits, start.db.tasks[id], start.keys, start.clock)
    ensures IsDone(start, Alone(limits, id, start, p, 15), p, start.db, KeysAfterLook(limits, start.db.tasks[id], start.keys, start.clock))
  {
    hide Advance, Alone;
    var sys, pc, n: nat := start, ReadHeartbeat, 15;
    while p in sys.passes && n > 8
      invariant 8 <= n <= 15 && Alone(limits, id, sys, p, n) == Alone(limits, id, start, p, 15)
      invariant p in sys.passes ==> IsAt(id, start, sys, p, pc, start.keys) && OnItsWay(limits, id, start, pc, n)
      invariant p !in sys.passes ==> IsDone(start, sys, p, start.db, KeysAfterLook(limits, start.db.tasks[id], start.keys, start.clock))
      decreases n
    {
      LookGoes(limits, id, start, sys, p, pc);
      AloneGoesOn(limits, id, sys, p, n);
      sys := Advance(limits, id, sys, p);
      n := n - 1;
      if p in sys.passes {
        pc := sys.passes[p].pc;
      }
    }
    AloneEnds(limits, id, sys, p, n);
  }

  /** How far a look that will not act can have come with n of its fifteen commands left. */
  ghost predicate OnItsWay(limits: Limits, id: TaskId, start: Sys, pc: Pc, n: nat)
    requires id in start.db.tasks
  {
    var row, keys := start.db.tasks[id], start.keys;
    var recent := start.clock - row.lastActivity < StallTimeout(limits);
    match pc
    case ReadHeartbeat => n == 15
    case CheckActivity => n == 14 && !keys.heartbeat
    case ReadLock => n == 13 && !keys.heartbeat && !recent
    case ReadGuard => n == 12 && !keys.heartbeat && !recent && !keys.workerLock
    case ReadSuspicion => n == 11 && !keys.heartbeat && !recent && !keys.workerLock && !keys.dispatchGuard
    case RecordSuspicion => n == 10 && !keys.heartbeat && !recent && !keys.workerLock && !keys.dispatchGuard && keys.suspectedAt == None
    case TakeReap =>
      n == 10 && !keys.heartbeat && !recent && !keys.workerLock && !keys.dispatchGuard && keys.suspectedAt.Some?
      && start.clock - keys.suspectedAt.value >= Confirmation(limits)
    case ClearSuspicion => n >= 13 && (keys.heartbeat || recent)
    case _ => false
  }

  lemma RecheckGoes(limits: Limits, id: TaskId, start: Sys, sys: Sys, p: nat, pc: Pc, keys: RuntimeKeys)
    requires id in start.db.tasks && IsAt(id, start, sys, p, pc, keys)
    requires !keys.heartbeat && !keys.workerLock && !keys.dispatchGuard && pc in {RecheckHeartbeat, RecheckLock, RecheckGuard}
    ensures IsAt(id, start, Advance(limits, id, sys, p), p,
                 if pc == RecheckHeartbeat then RecheckLock else if pc == RecheckLock then RecheckGuard else LockRow, keys)
  {
  }

  /** One command of pass `p`, and what is left of n of them. */
  lemma Onward(limits: Limits, id: TaskId, sys: Sys, p: nat, n: nat) returns (next: Sys)
    requires p in sys.passes && n > 0
    ensures next == Advance(limits, id, sys, p) && Alone(limits, id, sys, p, n) == Alone(limits, id, next, p, n - 1)
  {
    next := Advance(limits, id, sys, p);
  }

  /** One command of an acting look, with n left. */
  lemma LookGoesOn(limits: Limits, id: TaskId, start: Sys, sys: Sys, p: nat, pc: Pc, to: Pc, n: nat) returns (next: Sys)
    requires id in start.db.tasks && ActsOn(limits, start.db.tasks[id], start.keys, start.clock) && n > 0
    requires IsAt(id, start, sys, p, pc, start.keys)
    requires pc in {ReadHeartbeat, CheckActivity, ReadLock, ReadGuard, ReadSuspicion}
    requires to == match pc
                   case ReadHeartbeat => CheckActivity
                   case CheckActivity => ReadLock
                   case ReadLock => ReadGuard
                   case ReadGuard => ReadSuspicion
                   case _ => TakeReap
    ensures IsAt(id, start, next, p, to, start.keys) && Alone(limits, id, sys, p, n) == Alone(limits, id, next, p, n - 1)
  {
    hide Advance, Alone;
    LookGoes(limits, id, start, sys, p, pc);
    next := Onward(limits, id, sys, p, n);
  }

  lemma RecheckGoesOn(limits: Limits, id: TaskId, start: Sys, sys: Sys, p: nat, pc: Pc, keys: RuntimeKeys, to: Pc, n: nat)
    returns (next: Sys)
    requires id in start.db.tasks && IsAt(id, start, sys, p, pc, keys) && n > 0
    requires !keys.heartbeat && !keys.workerLock && !keys.dispatchGuard && pc in {RecheckHeartbeat, RecheckLock, RecheckGuard}
    requires to == if pc == RecheckHeartbeat then RecheckLock else if pc == RecheckLock then RecheckGuard else LockRow
    ensures IsAt(id, start, next, p, to, keys) && Alone(limits, id, sys, p, n) == Alone(limits, id, next, p, n - 1)
  {
    hide Advance, Alone;
    RecheckGoes(limits, id, start, sys, p, pc, keys);
    next := Onward(limits, id, sys, p, n);
  }

  lemma ReapIsTaken(limits: Limits, id: TaskId, start: Sys, sys: Sys, p: nat, n: nat) returns (next: Sys)
    requires id in start.db.tasks && IsAt(id, start, sys, p, TakeReap, start.keys) && start.keys.reapLock == None && n > 0
    ensures IsAt(id, start, next, p, RecheckHeartbeat, start.keys.(reapLock := Some(p)))
    ensures Alone(limits, id, sys, p, n) == Alone(limits, id, next, p, n - 1)
  {
    hide Advance, Alone;
    LookGoes(limits, id, start, sys, p, TakeReap);
    next := Onward(limits, id, sys, p, n);
  }

  lemma LonePassReachesRow(limits: Limits, id: TaskId, start: Sys, p: nat) returns (sys: Sys)
    requires id in start.db.tasks && start.db.tasks[id].status == Processing
    requires IsAt(id, start, start, p, ReadHeartbeat, start.keys)
    requires ActsOn(limits, start.db.tasks[id], start.keys, start.clock)
    ensures Alone(limits, id, start, p, 15) == Alone(limits, id, sys, p, 6)
    ensures IsAt(id, start, sys, p, LockRow, start.keys.(reapLock := Some(p)))
  {
    hide Advance, Alone, IsAt;
    var keys := start.keys.(reapLock := Some(p));
    sys := LookGoesOn(limits, id, start, start, p, ReadHeartbeat, CheckActivity, 15);
    sys := LookGoesOn(limits, id, start, sys, p, CheckActivity, ReadLock, 14);
    sys := LookGoesOn(limits, id, start, sys, p, ReadLock, ReadGuard, 13);
    sys := LookGoesOn(limits, id, start, sys, p, ReadGuard, ReadSuspicion, 12);
    sys := LookGoesOn(limits, id, start, sys, p, ReadSuspicion, TakeReap, 11);
    sys := ReapIsTaken(limits, id, start, sys, p, 10);
    sys := RecheckGoesOn(limits, id, start, sys, p, RecheckHeartbeat, keys, RecheckLock, 9);
    sys := RecheckGoesOn(limits, id, start, sys, p, RecheckLock, keys, RecheckGuard, 8);
    sys := RecheckGoesOn(limits, id, start, sys, p, RecheckGuard, keys, LockRow, 7);
  }

  lemma RowIsBumped(limits: Limits, id: TaskId, start: Sys, sys: Sys, p: nat, keys: RuntimeKeys)
    requires id in start.db.tasks && IsAt(id, start, sys, p, LockRow, keys)
    requires var row := start.db.tasks[id];
             row.status == Processing && start.clock - row.lastActivity >= StallTimeout(limits)
    ensures var after, row := Advance(limits, id, sys, p), start.db.tasks[id];
            && after.db == Apply(start.db, start.clock, ConfirmStall(id, StallTimeout(limits)))
            && after.clock == start.clock && after.keys == keys && p in after.passes
            && after.passes[p].pc == (if MayResume(limits, row, keys) then SetGuard(row.generation + 1)
                                      else FailTask(row.generation + 1, row.stage))
            && id in after.db.tasks && after.db.tasks[id] == row.(generation := row.generation + 1)
  {
  }

  /** A pass that acts fails the task with its refund when no resume is left, and else dispatches it
      under its new generation and counts that. */
  lemma LonePassActs(limits: Limits, id: TaskId, start: Sys, p: nat)
    requires id in start.db.tasks && start.db.tasks[id].status == Processing
    requires IsAt(id, start, start, p, ReadHeartbeat, start.keys)
    requires ActsOn(limits, start.db.tasks[id], start.keys, start.clock)
    ensures var row, keys := start.db.tasks[id], start.keys;
            var bumped := Apply(start.db, start.clock, ConfirmStall(id, StallTimeout(limits)));
            var final := Alone(limits, id, start, p, 15);
            if MayResume(limits, row, keys) then
              IsDone(start, final, p, bumped,
                     keys.(reapLock := Some(p), dispatchGuard := true, resumeCount := keys.resumeCount + 1, suspectedAt := None))
            else
              IsDone(start, final, p, Apply(bumped, start.clock, Worker(id, Some(row.generation + 1), Fail(row.stage, STALL_MESSAGE))),
                     Cleared(keys))
  {
    hide Alone, Apply;
    var row, keys := start.db.tasks[id], start.keys.(reapLock := Some(p));
    var sys := LonePassReachesRow(limits, id, start, p);
    RowIsBumped(limits, id, start, sys, p, keys);
    sys := Onward(limits, id, sys, p, 6);
    if MayResume(limits, row, keys) {
      LonePassDispatches(limits, id, sys, p);
    } else {
      LonePassFails(limits, id, sys, p, row.generation + 1, row.stage);
    }
  }

  lemma LonePassDispatches(limits: Limits, id: TaskId, start: Sys, p: nat)
    requires p in start.passes && start.passes[p].pc.SetGuard?
    ensures IsDone(start, Alone(limits, id, start, p, 5), p, start.db,
                   start.keys.(dispatchGuard := true, resumeCount := start.keys.resumeCount + 1, suspectedAt := None))
  {
    hide Alone;
    var sys := Onward(limits, id, start, p, 5);
    sys := Onward(limits, id, sys, p, 4);
    sys := Onward(limits, id, sys, p, 3);
    assert p in sys.passes && sys.passes[p].pc == ForgetSuspicion;
    sys := Onward(limits, id, sys, p, 2);
    AloneEnds(limits, id, sys, p, 1);
  }

  lemma LonePassFails(limits: Limits, id: TaskId, start: Sys, p: nat, generation: nat, stage: Option<TaskStage>)
    requires p in start.passes && start.passes[p].pc == FailTask(generation, stage)
    requires id in start.db.tasks && start.db.tasks[id].generation == generation && start.db.tasks[id].status == Processing
    ensures IsDone(start, Alone(limits, id, start, p, 5), p,
                   Apply(start.db, start.clock, Worker(id, Some(generation), Fail(stage, STALL_MESSAGE))), Cleared(start.keys))
  {
    hide Alone, Apply;
    var sys := Onward(limits, id, start, p, 5);
    sys := Onward(limits, id, sys, p, 4);
    AloneEnds(limits, id, sys, p, 3);
  }

  /** When the queue refuses the message the guard is taken back and the pass is over: the task waits
      under its new generation and nothing has been counted. */
  lemma RefusedPassTakesGuardBack(limits: Limits, id: TaskId, start: Sys, p: nat)
    requires p in start.passes && start.passes[p].pc.Send?
    ensures IsDone(start, Alone(limits, id, Step(limits, id, start, RefuseDispatch(p)), p, 1), p, start.db,
                   start.keys.(dispatchGuard := false))
  {
    hide Alone;
    var refused := Step(limits, id, start, RefuseDispatch(p));
    var sys := Onward(limits, id, refused, p, 1);
    AloneEnds(limits, id, sys, p, 0);
  }

  /** So a pass begun on a processing task and left alone does what `ReconcileIfStalled` does there:
      it acts if and only if it finds what `ActsOn` names, and leaves the same database and keys. */
  lemma LonePassReconciles(limits: Limits, id: TaskId, sys: Sys, p: nat)
    requires id in sys.db.tasks && sys.db.tasks[id].status == Processing && p !in sys.begun
    ensures var start := Step(limits, id, sys, Begin(p));
            var final, row, keys := Alone(limits, id, start, p, 15), sys.db.tasks[id], sys.keys;
            var bumped := Apply(sys.db, sys.clock, ConfirmStall(id, StallTimeout(limits)));
            if !ActsOn(limits, row, keys, sys.clock) then IsDone(start, final, p, sys.db, KeysAfterLook(limits, row, keys, sys.clock))
            else if MayResume(limits, row, keys) then
              IsDone(start, final, p, bumped,
                     keys.(reapLock := Some(p), dispatchGuard := true, resumeCount := keys.resumeCount + 1, suspectedAt := None))
            else
              IsDone(start, final, p, Apply(bumped, sys.clock, Worker(id, Some(row.generation + 1), Fail(row.stage, STALL_MESSAGE))),
                     Cleared(keys))
  {
    hide Alone, Apply, Advance;
    var start := Step(limits, id, sys, Begin(p));
    assert IsAt(id, start, start, p, ReadHeartbeat, start.keys);
    if ActsOn(limits, sys.db.tasks[id], sys.keys, sys.clock) {
      LonePassActs(limits, id, start, p);
    } else {
      LonePassLooks(limits, id, start, p);
    }
  }
}
