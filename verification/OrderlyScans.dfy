/** What becomes of a sign of life seen between the two looks of the reconciler. */
module OrderlyScans {
  import opened Numeric
  import opened PipelineTypes
  import opened TaskStore
  import opened TaskRuntime
  import opened StallReconciler
  import opened StallScenarios

  // ----- Every sighting is followed up, or visibly not -----

  /** The pass is about to delete the suspicion. */
  predicate Standing(sys: Sys, p: nat) {
    p in sys.passes && sys.passes[p].pc == ClearSuspicion
  }

  /** After position m, and before position j, the pass deleted the suspicion. */
  ghost predicate Deleted(log: seq<Event>, p: nat, m: int, j: int) {
    exists n :: 0 <= m < n < j <= |log| && log[n] == SuspicionGone(Some(p))
  }

  ghost predicate DiedAfter(log: seq<Event>, p: nat, m: int) {
    exists n :: 0 <= m < n < |log| && log[n] == Died(p)
  }

  /** The pass that saw a sign of life at m has deleted the suspicion since, or died before it
      could, or is just about to. */
  ghost predicate Pursued(sys: Sys, m: int)
    requires 0 <= m < |sys.log| && sys.log[m].SawLife?
  {
    var p := sys.log[m].pass;
    Deleted(sys.log, p, m, |sys.log|) || DiedAfter(sys.log, p, m) || Standing(sys, p)
  }

  /** A pass that has deleted the suspicion, or died, is over for good. */
  ghost predicate IsOver(sys: Sys, event: Event) {
    match event
    case Died(p) => p in sys.begun && p !in sys.passes
    case SuspicionGone(Some(p)) => p in sys.begun && p !in sys.passes
    case _ => true
  }

  ghost predicate Tracked(sys: Sys) {
    && (forall p :: p in sys.passes ==> p in sys.begun)
    && (forall n :: 0 <= n < |sys.log| ==> IsOver(sys, sys.log[n]))
    && (forall m :: 0 <= m < |sys.log| && sys.log[m].SawLife? ==> Pursued(sys, m))
  }

  lemma DeletedGrows(log: seq<Event>, event: Event, p: nat, m: int)
    requires 0 <= m < |log|
    ensures Deleted(log, p, m, |log|) ==> Deleted(log + [event], p, m, |log| + 1)
    ensures DiedAfter(log, p, m) ==> DiedAfter(log + [event], p, m)
    ensures event == SuspicionGone(Some(p)) ==> Deleted(log + [event], p, m, |log| + 1)
    ensures event == Died(p) ==> DiedAfter(log + [event], p, m)
  {
    var longer := log + [event];
    assert longer[|log|] == event;
    if Deleted(log, p, m, |log|) {
      var n :| 0 <= m < n < |log| && log[n] == SuspicionGone(Some(p));
      assert longer[n] == SuspicionGone(Some(p));
    }
    if DiedAfter(log, p, m) {
      var n :| 0 <= m < n < |log| && log[n] == Died(p);
      assert longer[n] == Died(p);
    }
  }

  /** A step that ends at most passes that are done, and logs one event. */
  lemma LoggingStep(sys: Sys, after: Sys, event: Event)
    requires Tracked(sys) && after.log == sys.log + [event] && sys.begun <= after.begun
    requires forall p :: p in after.passes ==> p in after.begun && (p in sys.begun ==> p in sys.passes)
    requires forall p :: Standing(sys, p) && !Standing(after, p) ==> event == SuspicionGone(Some(p)) || event == Died(p)
    requires IsOver(after, event) && (event.SawLife? ==> Standing(after, event.pass))
    ensures Tracked(after)
  {
    hide Deleted, DiedAfter, Standing;
    forall n | 0 <= n < |after.log| ensures IsOver(after, after.log[n]) {
      if n < |sys.log| {
        assert IsOver(sys, sys.log[n]);
      }
    }
    forall m | 0 <= m < |after.log| && after.log[m].SawLife? ensures Pursued(after, m) {
      if m < |sys.log| {
        assert Pursued(sys, m);
        DeletedGrows(sys.log, event, sys.log[m].pass, m);
      }
    }
  }

  /** A step that logs nothing. */
  lemma SilentStep(sys: Sys, after: Sys)
    requires Tracked(sys) && after.log == sys.log && sys.begun <= after.begun
    requires forall p :: p in after.passes ==> p in after.begun && (p in sys.begun ==> p in sys.passes)
    requires forall p :: Standing(sys, p) ==> Standing(after, p)
    ensures Tracked(after)
  {
    hide Deleted, DiedAfter, Standing;
    forall n | 0 <= n < |after.log| ensures IsOver(after, after.log[n]) {
      assert IsOver(sys, sys.log[n]);
    }
    forall m | 0 <= m < |after.log| && after.log[m].SawLife? ensures Pursued(after, m) {
      assert Pursued(sys, m);
    }
  }

  lemma ClearKeysIsTracked(sys: Sys, after: Sys, actor: Option<nat>)
    requires Tracked(sys) && after.log == ClearKeys(sys, actor).log && after.begun == sys.begun
    requires actor == None ==> after.passes == sys.passes
    requires actor.Some? ==> actor.value in sys.passes && !Standing(sys, actor.value) && after.passes == sys.passes - {actor.value}
    ensures Tracked(after)
  {
    hide Tracked;
    var middle := after.(log := sys.log + [SuspicionGone(actor)]);
    PassesAreBegun(sys);
    LoggingStep(sys, middle, SuspicionGone(actor));
    PassesAreBegun(middle);
    LoggingStep(middle, after, CountGone);
  }

  lemma PassesAreBegun(sys: Sys)
    requires Tracked(sys)
    ensures forall p :: p in sys.passes ==> p in sys.begun
  {
  }

  lemma LookIsTracked(limits: Limits, id: TaskId, sys: Sys, p: nat)
    requires Tracked(sys) && p in sys.passes
    requires sys.passes[p].pc in {ReadHeartbeat, CheckActivity, ReadLock, ReadGuard, ReadSuspicion, RecordSuspicion, ClearSuspicion}
    ensures Tracked(Advance(limits, id, sys, p))
  {
    hide Tracked;
    PassesAreBegun(sys);
    var after := Advance(limits, id, sys, p);
    if after.log == sys.log {
      SilentStep(sys, after);
    } else {
      LoggingStep(sys, after, after.log[|sys.log|]);
    }
  }

  lemma RecheckIsTracked(limits: Limits, id: TaskId, sys: Sys, p: nat)
    requires Tracked(sys) && p in sys.passes
    requires sys.passes[p].pc in {TakeReap, RecheckHeartbeat, RecheckLock, RecheckGuard, LockRow}
    ensures Tracked(Advance(limits, id, sys, p))
  {
    hide Tracked, Apply;
    PassesAreBegun(sys);
    var after := Advance(limits, id, sys, p);
    if after.log == sys.log {
      SilentStep(sys, after);
    } else {
      LoggingStep(sys, after, after.log[|sys.log|]);
    }
  }

  lemma ActionIsTracked(limits: Limits, id: TaskId, sys: Sys, p: nat)
    requires Tracked(sys) && p in sys.passes
    requires var pc := sys.passes[p].pc;
             pc.FailTask? || pc.SetGuard? || pc.Send? || pc in {ClearAll, DropGuard, CountResume, ForgetSuspicion}
    ensures Tracked(Advance(limits, id, sys, p))
  {
    hide Tracked, Apply, Goes;
    PassesAreBegun(sys);
    var after := Advance(limits, id, sys, p);
    if sys.passes[p].pc == ClearAll {
      ClearKeysIsTracked(sys, after, Some(p));
    } else if after.log == sys.log {
      SilentStep(sys, after);
    } else {
      LoggingStep(sys, after, after.log[|sys.log|]);
    }
  }

  lemma ProceedIsTracked(limits: Limits, id: TaskId, sys: Sys, p: nat)
    requires Tracked(sys) && p in sys.passes
    ensures Tracked(Advance(limits, id, sys, p))
  {
    hide Tracked, Advance;
    var pc := sys.passes[p].pc;
    if pc in {ReadHeartbeat, CheckActivity, ReadLock, ReadGuard, ReadSuspicion, RecordSuspicion, ClearSuspicion} {
      LookIsTracked(limits, id, sys, p);
    } else if pc in {TakeReap, RecheckHeartbeat, RecheckLock, RecheckGuard, LockRow} {
      RecheckIsTracked(limits, id, sys, p);
    } else {
      ActionIsTracked(limits, id, sys, p);
    }
  }

  lemma StepIsTracked(limits: Limits, id: TaskId, sys: Sys, action: Action)
    requires Tracked(sys)
    ensures Tracked(Step(limits, id, sys, action))
  {
    hide Tracked, Advance, Apply;
    PassesAreBegun(sys);
    var after := Step(limits, id, sys, action);
    match action {
      case Proceed(p) => if p in sys.passes { ProceedIsTracked(limits, id, sys, p); }
      case Crash(p) => if p in sys.passes { LoggingStep(sys, after, Died(p)); }
      case SuspicionExpires => LoggingStep(sys, after, SuspicionGone(None));
      case CountExpires => LoggingStep(sys, after, CountGone);
      case AllKeysCleared => ClearKeysIsTracked(sys, after, None);
      case _ => SilentStep(sys, after);
    }
  }

  /** In every run, each sighting is followed by its own pass's deletion of the suspicion, or by
      that pass's death, or the pass is just about to delete it. */
  lemma {:induction false} SightingsArePursued(limits: Limits, id: TaskId, sys: Sys, actions: seq<Action>)
    requires Initial(sys)
    ensures Tracked(Run(limits, id, sys, actions))
    decreases |actions|
  {
    hide Step;
    if actions != [] {
      var earlier := actions[..|actions| - 1];
      SightingsArePursued(limits, id, sys, earlier);
      StepIsTracked(limits, id, Run(limits, id, sys, earlier), actions[|actions| - 1]);
    }
  }

  // ----- Exactly when a sighting is forgotten -----

  ghost predicate SightingSince(log: seq<Event>, i: int, m: int) {
    0 <= i < m < |log| && log[m].SawLife?
  }

  /** A sighting whose pass has not deleted the suspicion: it died, or has not come to it yet. */
  ghost predicate IsOpen(sys: Sys, i: int, m: int) {
    && SightingSince(sys.log, i, m)
    && (Standing(sys, sys.log[m].pass) || DiedAfter(sys.log, sys.log[m].pass, m))
  }

  /** At the moment a pass confirms a suspicion: some pass has seen a sign of life since that
      suspicion was recorded, if and only if one that has is still about to delete the suspicion
      or has died before it could. */
  lemma SightingIsForgottenExactlyWhenOpen(limits: Limits, id: TaskId, start: Sys, actions: seq<Action>, p: nat) returns (i: int)
    requires Initial(start)
    requires var sys := Run(limits, id, start, actions);
             && p in sys.passes && sys.passes[p].pc == ReadSuspicion && sys.keys.suspectedAt.Some?
             && sys.passes[p].now - sys.keys.suspectedAt.value >= Confirmation(limits)
    ensures var sys, after := Run(limits, id, start, actions), Run(limits, id, start, actions + [Proceed(p)]);
            && after.log == sys.log + [Confirmed(p, sys.keys.suspectedAt.value, sys.passes[p].now)]
            && SuspicionHeld(limits, after.log, p, i, |sys.log|)
            && ((exists m :: SightingSince(sys.log, i, m)) <==> (exists m :: IsOpen(sys, i, m)))
            && forall m :: SightingSince(sys.log, i, m) ==> IsOpen(sys, i, m)
  {
    hide Run;
    var sys := Run(limits, id, start, actions);
    var at := sys.keys.suspectedAt.value;
    SightingsArePursued(limits, id, start, actions);
    InitialHoldsInv(limits, start);
    RunKeepsInv(limits, id, start, actions);
    RunSteps(limits, id, start, actions, Proceed(p));
    i :| Traced(sys.log, i, at);
    var longer := sys.log + [Confirmed(p, at, sys.passes[p].now)];
    assert longer[..i] == sys.log[..i] && longer[..|sys.log|] == sys.log;
    forall m | SightingSince(sys.log, i, m) ensures IsOpen(sys, i, m) {
      assert Pursued(sys, m);
    }
  }

  lemma InitialHoldsInv(limits: Limits, sys: Sys)
    requires Initial(sys)
    ensures Inv(limits, sys)
  {
  }

  /** No pass confirms a suspicion while another is just about to delete it, and none dies there.
      Scans may overlap in any other way. */
  ghost predicate IsHeedful(sys: Sys, action: Action) {
    && (action.Proceed? && action.pass in sys.passes && sys.passes[action.pass].pc == ReadSuspicion ==>
          forall q :: !Standing(sys, q))
    && (action.Crash? ==> !Standing(sys, action.pass))
  }

  ghost predicate HeedfulRun(limits: Limits, id: TaskId, sys: Sys, actions: seq<Action>)
    decreases |actions|
  {
    actions == []
    || (HeedfulRun(limits, id, sys, actions[..|actions| - 1])
        && IsHeedful(Run(limits, id, sys, actions[..|actions| - 1]), actions[|actions| - 1]))
  }

  /** No pass died between its sighting and its deletion, and every sighting before a confirmation
      was followed by its own pass's deletion before it. */
  ghost predicate Heeded(log: seq<Event>) {
    && (forall m, n :: 0 <= m < n < |log| && log[m].SawLife? ==> log[n] != Died(log[m].pass))
    && (forall m, j :: 0 <= m < j < |log| && log[m].SawLife? && log[j].Confirmed? ==> Deleted(log, log[m].pass, m, j))
  }

  lemma HeededGrows(log: seq<Event>, event: Event)
    requires Heeded(log)
    requires event.Died? ==> forall m :: 0 <= m < |log| && log[m].SawLife? ==> log[m].pass != event.pass
    requires event.Confirmed? ==> forall m :: 0 <= m < |log| && log[m].SawLife? ==> Deleted(log, log[m].pass, m, |log|)
    ensures Heeded(log + [event])
  {
    var longer := log + [event];
    forall m, n | 0 <= m < n < |longer| && longer[m].SawLife? ensures longer[n] != Died(longer[m].pass) {
      assert longer[m] == log[m];
      assert n < |log| ==> longer[n] == log[n];
    }
    forall m, j | 0 <= m < j < |longer| && longer[m].SawLife? && longer[j].Confirmed?
      ensures Deleted(longer, longer[m].pass, m, j)
    {
      assert longer[m] == log[m];
      assert j < |log| ==> longer[j] == log[j];
      assert Deleted(log, log[m].pass, m, j);
      var n :| 0 <= m < n < j && log[n] == SuspicionGone(Some(log[m].pass));
      assert longer[n] == log[n];
    }
  }

  lemma OpenIsStanding(sys: Sys, m: int)
    requires Tracked(sys) && Heeded(sys.log) && 0 <= m < |sys.log| && sys.log[m].SawLife?
    ensures Deleted(sys.log, sys.log[m].pass, m, |sys.log|) || Standing(sys, sys.log[m].pass)
    ensures sys.log[m].pass in sys.passes ==> Standing(sys, sys.log[m].pass)
  {
    assert Pursued(sys, m);
    assert forall n :: 0 <= n < |sys.log| ==> IsOver(sys, sys.log[n]);
  }

  lemma ConfirmIsHeeded(sys: Sys, p: nat, event: Event)
    requires Tracked(sys) && Heeded(sys.log) && event.Confirmed? && forall q :: !Standing(sys, q)
    ensures Heeded(sys.log + [event])
  {
    hide Tracked, Heeded, Deleted, Standing;
    forall m | 0 <= m < |sys.log| && sys.log[m].SawLife? ensures Deleted(sys.log, sys.log[m].pass, m, |sys.log|) {
      OpenIsStanding(sys, m);
    }
    HeededGrows(sys.log, event);
  }

  lemma DeathIsHeeded(sys: Sys, p: nat)
    requires Tracked(sys) && Heeded(sys.log) && p in sys.passes && !Standing(sys, p)
    ensures Heeded(sys.log + [Died(p)])
  {
    hide Tracked, Heeded, Deleted, Standing;
    forall m | 0 <= m < |sys.log| && sys.log[m].SawLife? ensures sys.log[m].pass != p {
      OpenIsStanding(sys, m);
    }
    HeededGrows(sys.log, Died(p));
  }

  lemma HeedfulStep(limits: Limits, id: TaskId, sys: Sys, action: Action)
    requires Tracked(sys) && Heeded(sys.log) && IsHeedful(sys, action)
    ensures Heeded(Step(limits, id, sys, action).log)
  {
    hide Tracked, Heeded, Standing, Apply, Goes;
    var log, after := sys.log, Step(limits, id, sys, action);
    if action.Crash? && action.pass in sys.passes {
      DeathIsHeeded(sys, action.pass);
    } else if action.AllKeysCleared? {
      HeededGrows(log, SuspicionGone(None));
      HeededGrows(log + [SuspicionGone(None)], CountGone);
    } else if action.Proceed? && action.pass in sys.passes && sys.passes[action.pass].pc == ClearAll {
      HeededGrows(log, SuspicionGone(Some(action.pass)));
      HeededGrows(log + [SuspicionGone(Some(action.pass))], CountGone);
    } else if after.log != log {
      var event := after.log[|log|];
      if event.Confirmed? {
        ConfirmIsHeeded(sys, action.pass, event);
      } else {
        HeededGrows(log, event);
      }
    }
  }

  lemma {:induction false} HeedfulRunIsHeeded(limits: Limits, id: TaskId, sys: Sys, actions: seq<Action>)
    requires Initial(sys) && HeedfulRun(limits, id, sys, actions)
    ensures Heeded(Run(limits, id, sys, actions).log)
    decreases |actions|
  {
    hide Step, Tracked;
    if actions != [] {
      var earlier := actions[..|actions| - 1];
      HeedfulRunIsHeeded(limits, id, sys, earlier);
      SightingsArePursued(limits, id, sys, earlier);
      HeedfulStep(limits, id, Run(limits, id, sys, earlier), actions[|actions| - 1]);
    }
  }

  /** In such a run no pass saw any sign of life between the look that recorded the suspicion and
      the one that confirmed it. */
  lemma NobodySawLife(limits: Limits, id: TaskId, sys: Sys, actions: seq<Action>, p: nat, i: int, j: int, m: int)
    requires Initial(sys) && HeedfulRun(limits, id, sys, actions)
    requires SuspicionHeld(limits, Run(limits, id, sys, actions).log, p, i, j) && i < m < j
    ensures !Run(limits, id, sys, actions).log[m].SawLife?
  {
    hide Run;
    HeedfulRunIsHeeded(limits, id, sys, actions);
    var log := Run(limits, id, sys, actions).log;
    assert forall n :: i < n < j ==> !log[n].SuspicionGone?;
    assert log[m].SawLife? ==> !Deleted(log, log[m].pass, m, j);
  }

  // ----- Two runs that forget one -----

  /** A pass bumped the generation although another saw a sign of life between the two looks. */
  ghost predicate IsForgotten(limits: Limits, log: seq<Event>, p: nat, i: int, m: int, j: int) {
    && SuspicionHeld(limits, log, p, i, j) && i < m < j && log[m].SawLife?
    && log[|log| - 1].Bumped? && log[|log| - 1].pass == p
  }

  /** On a silent task under suspicion, a worker shows up just long enough for pass 1 to see its
      heartbeat. */
  lemma WorkerIsSeen(limits: Limits, id: TaskId, start: Sys) returns (actions: seq<Action>)
    requires Initial(start) && IsSilent(limits, id, start)
    ensures var now := Suspected(limits, start, 0);
            Run(limits, id, start, actions)
            == now.(keys := now.keys.(heartbeat := true), passes := map[1 := PassAt(id, now, 1, ClearSuspicion)],
                    begun := {0, 1}, log := now.log + [SawLife(1)])
  {
    hide Run;
    NoActions(limits, id, start);
    actions := PassSuspects(limits, id, start, [], 0);
    RunSteps(limits, id, start, actions, WorkerSignals(true, false));
    actions := actions + [WorkerSignals(true, false)];
    RunSteps(limits, id, start, actions, Begin(1));
    actions := actions + [Begin(1)];
    actions := RunProceeds(limits, id, start, actions, 1);
    assert Run(limits, id, start, actions).passes == map[1 := PassAt(id, Suspected(limits, start, 0), 1, ClearSuspicion)];
  }

  /** Pass 2 finds the worker gone again and the suspicion still there. */
  lemma SecondPassBumps(limits: Limits, id: TaskId, start: Sys, before: seq<Action>) returns (actions: seq<Action>)
    requires var sys := Run(limits, id, start, before);
             IsDead(limits, id, sys.(keys := sys.keys.(heartbeat := false))) && 2 !in sys.begun && sys.keys.reapLock == None
    ensures var sys := Run(limits, id, start, before);
            Run(limits, id, start, actions).log
            == sys.log + SecondLook(2, sys.keys.suspectedAt.value, sys.clock)
               + [Bumped(2, sys.clock, sys.db.tasks[id].lastActivity, sys.db.tasks[id].generation + 1)]
  {
    hide Run;
    RunSteps(limits, id, start, before, WorkerSignals(false, false));
    actions := before + [WorkerSignals(false, false)];
    actions := PassReachesRow(limits, id, start, actions, 2);
    actions := RunProceeds(limits, id, start, actions, 2);
  }

  lemma LogForgets(limits: Limits, log: seq<Event>, middle: seq<Event>, at: int, now: int, bumped: Event)
    requires log == [FoundStale(0, at), Recorded(0, at)] + middle + SecondLook(2, at, now) + [bumped]
    requires middle == [SawLife(1)] || middle == [SawLife(1), Died(1)]
    requires now - at >= Confirmation(limits) && bumped.Bumped? && bumped.pass == 2
    ensures IsForgotten(limits, log, 2, 1, 2, |middle| + 3)
  {
    var j := |middle| + 3;
    assert log[1] == Recorded(0, at) && log[2] == SawLife(1) && log[j - 1] == FoundStale(2, now) && log[j] == Confirmed(2, at, now);
    assert log[..1][0] == FoundStale(0, at) && log[..j][j - 1] == FoundStale(2, now);
    assert |middle| == 2 ==> log[3] == Died(1);
  }

  /** From an initial state: a pass sees the heartbeat and dies before it deletes the suspicion,
      the worker dies too, and the next pass acts on the old suspicion. */
  lemma SightingIsForgotten(limits: Limits, id: TaskId, start: Sys) returns (actions: seq<Action>, i: int, m: int, j: int)
    requires Initial(start) && IsSilent(limits, id, start) && start.keys.reapLock == None
    ensures IsForgotten(limits, Run(limits, id, start, actions).log, 2, i, m, j)
  {
    hide Run, SecondLook, IsForgotten;
    actions := WorkerIsSeen(limits, id, start);
    RunSteps(limits, id, start, actions, Crash(1));
    actions := actions + [Crash(1)];
    actions := SecondPassBumps(limits, id, start, actions);
    var log := Run(limits, id, start, actions).log;
    var now := start.clock + Confirmation(limits);
    assert log == [FoundStale(0, start.clock), Recorded(0, start.clock)] + [SawLife(1), Died(1)]
                  + SecondLook(2, start.clock, now) + [log[|log| - 1]];
    LogForgets(limits, log, [SawLife(1), Died(1)], start.clock, now, log[|log| - 1]);
    i, m, j := 1, 2, 5;
  }

  /** The same with nobody dying but the worker: the pass that saw the heartbeat is overtaken by
      the next one before it deletes the suspicion. */
  lemma SightingIsOvertaken(limits: Limits, id: TaskId, start: Sys) returns (actions: seq<Action>, i: int, m: int, j: int)
    requires Initial(start) && IsSilent(limits, id, start) && start.keys.reapLock == None
    ensures IsForgotten(limits, Run(limits, id, start, actions).log, 2, i, m, j)
  {
    hide Run, SecondLook, IsForgotten;
    actions := WorkerIsSeen(limits, id, start);
    actions := SecondPassBumps(limits, id, start, actions);
    var log := Run(limits, id, start, actions).log;
    var now := start.clock + Confirmation(limits);
    assert log == [FoundStale(0, start.clock), Recorded(0, start.clock)] + [SawLife(1)]
                  + SecondLook(2, start.clock, now) + [log[|log| - 1]];
    LogForgets(limits, log, [SawLife(1)], start.clock, now, log[|log| - 1]);
    i, m, j := 1, 2, 4;
  }
}
