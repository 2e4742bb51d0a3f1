/** The stall reconciler: any number of passes over one task, each Redis command and each committed
    transaction a step of its own, among workers that die, keys that vanish and a running clock. */
module StallReconciler {
  import opened Numeric
  import opened PipelineTypes
  import opened TaskStore
  import opened TaskRuntime

  datatype Limits = Limits(stallSeconds: int, confirmationSeconds: int, maxAutoResumes: int)

  function StallTimeout(limits: Limits): (seconds: int)
    ensures seconds >= 60 && (limits.stallSeconds >= 60 ==> seconds == limits.stallSeconds)
  {
    MaxInt(60, limits.stallSeconds)
  }

  function Confirmation(limits: Limits): (seconds: int)
    ensures seconds >= 60 && (limits.confirmationSeconds >= 60 ==> seconds == limits.confirmationSeconds)
  {
    MaxInt(60, limits.confirmationSeconds)
  }

  function ResumeCap(limits: Limits): (cap: nat)
    ensures limits.maxAutoResumes >= 0 ==> cap == limits.maxAutoResumes
    ensures limits.maxAutoResumes < 0 ==> cap == 0
  {
    MaxInt(0, limits.maxAutoResumes)
  }

  datatype Signal = HeartbeatSignal | LockSignal | GuardSignal

  /** What can be said of a run afterwards. `SawLife` is every finding that makes a pass delete the
      suspicion: a heartbeat or fresh activity on its first look, a heartbeat, lock or dispatch
      guard on its second, fresh activity under the row lock. `SuspicionGone` is every deletion of
      the suspicion, by a pass or by anything else, `CountGone` of the auto-resume counter. */
  datatype Event =
    | FoundStale(pass: nat, clock: int)
    | SawLife(pass: nat)
    | Recorded(pass: nat, at: int)
    | SuspicionGone(actor: Option<nat>)
    | Confirmed(pass: nat, at: int, now: int)
    | Absent(pass: nat, signal: Signal)
    | Bumped(pass: nat, clock: int, activity: int, generation: nat)
    | Redispatched(pass: nat, generation: nat)
    | CountGone
    | Died(pass: nat)

  /** The next command of a pass. */
  datatype Pc =
    | ReadHeartbeat
    | CheckActivity
    | ReadLock
    | ReadGuard
    | ReadSuspicion
    | RecordSuspicion
    | ClearSuspicion
    | TakeReap
    | RecheckHeartbeat
    | RecheckLock
    | RecheckGuard
    | LockRow
    | FailTask(generation: nat, stage: Option<TaskStage>)
    | ClearAll
    | SetGuard(generation: nat)
    | Send(generation: nat)
    | DropGuard
    | CountResume
    | ForgetSuspicion

  /** `activity` is the row as the scan loaded it, `now` the clock as the pass read it. */
  datatype Pass = Pass(pc: Pc, activity: int, now: int)

  datatype Sys = Sys(db: Db, clock: int, keys: RuntimeKeys, passes: map<nat, Pass>, begun: set<nat>, log: seq<Event>)

  function Goto(sys: Sys, p: nat, pc: Pc): Sys
    requires p in sys.passes
  {
    sys.(passes := sys.passes[p := sys.passes[p].(pc := pc)])
  }

  function End(sys: Sys, p: nat): Sys {
    sys.(passes := sys.passes - {p})
  }

  function Note(sys: Sys, event: Event): Sys {
    sys.(log := sys.log + [event])
  }

  function WithoutSuspicion(sys: Sys, actor: Option<nat>): Sys {
    Note(sys.(keys := sys.keys.(suspectedAt := None)), SuspicionGone(actor))
  }

  const STALL_MESSAGE := "Task stalled: worker heartbeat, ownership, and progress all stopped."

  /** The row is locked, checked again and moved to a new generation in one transaction. The step
      stands where the resume count is read: from the lock before that to the commit after it no
      other transaction changes a processing row, and a stale row only grows staler. */
  function LockAndBump(limits: Limits, id: TaskId, sys: Sys, p: nat): Sys
    requires p in sys.passes
  {
    if id !in sys.db.tasks || sys.db.tasks[id].status != Processing then End(sys, p)
    else if sys.clock - sys.db.tasks[id].lastActivity < StallTimeout(limits) then
      Goto(Note(sys, SawLife(p)), p, ClearSuspicion)
    else
      var row := sys.db.tasks[id];
      var bumped := Note(sys.(db := Apply(sys.db, sys.clock, ConfirmStall(id, StallTimeout(limits)))),
                         Bumped(p, sys.clock, row.lastActivity, row.generation + 1));
      Goto(bumped, p, if sys.keys.resumeCount >= ResumeCap(limits) || row.source == ""
                      then FailTask(row.generation + 1, row.stage) else SetGuard(row.generation + 1))
  }

  /** One command of pass `p`. */
  function Advance(limits: Limits, id: TaskId, sys: Sys, p: nat): Sys
    requires p in sys.passes
  {
    var pass, keys := sys.passes[p], sys.keys;
    match pass.pc
    case ReadHeartbeat =>
      if keys.heartbeat then Goto(Note(sys, SawLife(p)), p, ClearSuspicion) else Goto(sys, p, CheckActivity)
    case CheckActivity =>
      var read := sys.(passes := sys.passes[p := pass.(now := sys.clock)]);
      if sys.clock - pass.activity < StallTimeout(limits) then Goto(Note(read, SawLife(p)), p, ClearSuspicion)
      else Goto(Note(read, FoundStale(p, sys.clock)), p, ReadLock)
    case ReadLock => if keys.workerLock then End(sys, p) else Goto(sys, p, ReadGuard)
    case ReadGuard => if keys.dispatchGuard then End(sys, p) else Goto(sys, p, ReadSuspicion)
    case ReadSuspicion =>
      if keys.suspectedAt == None then Goto(sys, p, RecordSuspicion)
      else if pass.now - keys.suspectedAt.value < Confirmation(limits) then End(sys, p)
      else Goto(Note(sys, Confirmed(p, keys.suspectedAt.value, pass.now)), p, TakeReap)
    case RecordSuspicion =>
      if keys.suspectedAt.Some? then End(sys, p)
      else End(Note(sys.(keys := keys.(suspectedAt := Some(pass.now))), Recorded(p, pass.now)), p)
    case ClearSuspicion => End(WithoutSuspicion(sys, Some(p)), p)
    case TakeReap =>
      if keys.reapLock.Some? then End(sys, p)
      else Goto(sys.(keys := keys.(reapLock := Some(p))), p, RecheckHeartbeat)
    case RecheckHeartbeat =>
      if keys.heartbeat then Goto(Note(sys, SawLife(p)), p, ClearSuspicion)
      else Goto(Note(sys, Absent(p, HeartbeatSignal)), p, RecheckLock)
    case RecheckLock =>
      if keys.workerLock then Goto(Note(sys, SawLife(p)), p, ClearSuspicion)
      else Goto(Note(sys, Absent(p, LockSignal)), p, RecheckGuard)
    case RecheckGuard =>
      if keys.dispatchGuard then Goto(Note(sys, SawLife(p)), p, ClearSuspicion)
      else Goto(Note(sys, Absent(p, GuardSignal)), p, LockRow)
    case LockRow => LockAndBump(limits, id, sys, p)
    case FailTask(generation, stage) =>
      var fail := Fail(stage, STALL_MESSAGE);
      var failed := sys.(db := Apply(sys.db, sys.clock, Worker(id, Some(generation), fail)));
      if Goes(sys.db, id, Some(generation), fail) then Goto(failed, p, ClearAll) else End(failed, p)
    case ClearAll => End(ClearKeys(sys, Some(p)), p)
    case SetGuard(generation) => Goto(sys.(keys := keys.(dispatchGuard := true)), p, Send(generation))
    case Send(generation) => Goto(Note(sys, Redispatched(p, generation)), p, CountResume)
    case DropGuard => End(sys.(keys := keys.(dispatchGuard := false)), p)
    case CountResume => Goto(sys.(keys := keys.(resumeCount := keys.resumeCount + 1)), p, ForgetSuspicion)
    case ForgetSuspicion => End(WithoutSuspicion(sys, Some(p)), p)
  }

  function ClearKeys(sys: Sys, actor: Option<nat>): Sys {
    Note(Note(sys.(keys := Cleared(sys.keys)), SuspicionGone(actor)), CountGone)
  }

  datatype Action =
    | Tick(seconds: nat)                          // time passes
    | Begin(pass: nat)                            // a scan hands the task to a new pass
    | Proceed(pass: nat)                          // a pass takes its next step
    | Crash(pass: nat)                            // a pass dies, or Redis stops answering it
    | RefuseDispatch(pass: nat)                   // the queue does not take the message
    | WorkerSignals(heartbeat: bool, lock: bool)  // workers acquire, beat, release and die
    | GuardGone                                   // the dispatched worker has started, or the guard expired
    | ReapGone | SuspicionExpires | CountExpires  // other keys expire
    | AllKeysCleared                              // completion, failure, pause, resume or deletion clears the keys
    | Commit(txn: Txn)                            // anybody else's transaction

  predicate Refusable(pc: Pc) {
    pc.SetGuard? || pc.Send?
  }

  function Step(limits: Limits, id: TaskId, sys: Sys, action: Action): Sys {
    match action
    case Tick(seconds) => sys.(clock := sys.clock + seconds)
    case Begin(p) =>
      if p in sys.begun || id !in sys.db.tasks || sys.db.tasks[id].status != Processing then sys
      else sys.(passes := sys.passes[p := Pass(ReadHeartbeat, sys.db.tasks[id].lastActivity, sys.clock)],
                begun := sys.begun + {p})
    case Proceed(p) => if p in sys.passes then Advance(limits, id, sys, p) else sys
    case Crash(p) => if p in sys.passes then End(Note(sys, Died(p)), p) else sys
    case RefuseDispatch(p) =>
      if p in sys.passes && Refusable(sys.passes[p].pc) then Goto(sys, p, DropGuard) else sys
    case WorkerSignals(heartbeat, lock) => sys.(keys := sys.keys.(heartbeat := heartbeat, workerLock := lock))
    case GuardGone => sys.(keys := sys.keys.(dispatchGuard := false))
    case ReapGone => sys.(keys := sys.keys.(reapLock := None))
    case SuspicionExpires => WithoutSuspicion(sys, None)
    case CountExpires => Note(sys.(keys := sys.keys.(resumeCount := 0)), CountGone)
    case AllKeysCleared => ClearKeys(sys, None)
    case Commit(txn) => if txn.ConfirmStall? && txn.id == id then sys else sys.(db := Apply(sys.db, sys.clock, txn))
  }

  function Run(limits: Limits, id: TaskId, sys: Sys, actions: seq<Action>): Sys
    decreases |actions|
  {
    if actions == [] then sys
    else Step(limits, id, Run(limits, id, sys, actions[..|actions| - 1]), actions[|actions| - 1])
  }

  predicate Initial(sys: Sys) {
    sys.passes == map[] && sys.begun == {} && sys.log == [] && sys.keys.suspectedAt == None && sys.keys.resumeCount == 0
  }

  // ----- Two-phase confirmation -----

  /** The suspicion `at` was written by a pass that had itself found the task stale at `at`, it was
      read by pass `p` at its clock reading at least the confirmation window later, and it was
      never deleted in between. */
  ghost predicate SuspicionHeld(limits: Limits, log: seq<Event>, p: nat, i: int, j: int) {
    && 0 <= i < j < |log| && log[i].Recorded? && log[j].Confirmed?
    && log[j].pass == p && log[j].at == log[i].at
    && log[j].now - log[i].at >= Confirmation(limits)
    && (forall k :: i < k < j ==> !log[k].SuspicionGone?)
    && FoundStale(log[i].pass, log[i].at) in log[..i]
    && FoundStale(p, log[j].now) in log[..j]
  }

  /** After that reading the pass found each signal absent again. */
  ghost predicate SignalAbsent(log: seq<Event>, p: nat, j: int, signal: Signal) {
    exists k :: 0 <= j < k < |log| && log[k] == Absent(p, signal)
  }

  ghost predicate Held(limits: Limits, log: seq<Event>, p: nat, absent: set<Signal>) {
    exists i, j :: SuspicionHeld(limits, log, p, i, j) && forall signal :: signal in absent ==> SignalAbsent(log, p, j, signal)
  }

  /** What the run so far says about a pass that has got as far as `pass.pc`. */
  ghost predicate Backed(limits: Limits, log: seq<Event>, p: nat, pass: Pass) {
    match pass.pc
    case ReadLock => FoundStale(p, pass.now) in log
    case ReadGuard => FoundStale(p, pass.now) in log
    case ReadSuspicion => FoundStale(p, pass.now) in log
    case RecordSuspicion => FoundStale(p, pass.now) in log
    case TakeReap => Held(limits, log, p, {})
    case RecheckHeartbeat => Held(limits, log, p, {})
    case RecheckLock => Held(limits, log, p, {HeartbeatSignal})
    case RecheckGuard => Held(limits, log, p, {HeartbeatSignal, LockSignal})
    case LockRow => Held(limits, log, p, {HeartbeatSignal, LockSignal, GuardSignal})
    case _ => true
  }

  /** A suspicion in Redis was recorded by a pass that had found the task stale, and has not been
      deleted since. */
  ghost predicate Traced(log: seq<Event>, i: int, at: int) {
    && 0 <= i < |log| && log[i].Recorded? && log[i].at == at
    && FoundStale(log[i].pass, at) in log[..i]
    && forall k :: i < k < |log| ==> !log[k].SuspicionGone?
  }

  ghost predicate SuspicionTraced(log: seq<Event>, suspectedAt: Option<int>) {
    suspectedAt.Some? ==> exists i :: Traced(log, i, suspectedAt.value)
  }

  ghost predicate Justified(limits: Limits, log: seq<Event>, k: int)
    requires 0 <= k < |log| && log[k].Bumped?
  {
    && Held(limits, log[..k], log[k].pass, {HeartbeatSignal, LockSignal, GuardSignal})
    && log[k].clock - log[k].activity >= StallTimeout(limits)
  }

  ghost predicate BumpsJustified(limits: Limits, log: seq<Event>) {
    forall k :: 0 <= k < |log| && log[k].Bumped? ==> Justified(limits, log, k)
  }

  ghost predicate Inv(limits: Limits, sys: Sys) {
    && SuspicionTraced(sys.log, sys.keys.suspectedAt)
    && (forall p :: p in sys.passes ==> Backed(limits, sys.log, p, sys.passes[p]))
    && BumpsJustified(limits, sys.log)
  }

  lemma HeldGrows(limits: Limits, log: seq<Event>, longer: seq<Event>, p: nat, absent: set<Signal>)
    requires log <= longer && Held(limits, log, p, absent)
    ensures Held(limits, longer, p, absent)
  {
    var i, j :| SuspicionHeld(limits, log, p, i, j) && forall signal :: signal in absent ==> SignalAbsent(log, p, j, signal);
    assert longer[..i] == log[..i] && longer[..j] == log[..j];
    assert SuspicionHeld(limits, longer, p, i, j);
    forall signal | signal in absent ensures SignalAbsent(longer, p, j, signal) {
      var k :| 0 <= j < k < |log| && log[k] == Absent(p, signal);
      assert longer[k] == Absent(p, signal);
    }
  }

  lemma HeldWithAbsent(limits: Limits, log: seq<Event>, p: nat, absent: set<Signal>, signal: Signal)
    requires Held(limits, log, p, absent)
    ensures Held(limits, log + [Absent(p, signal)], p, absent + {signal})
  {
    var longer := log + [Absent(p, signal)];
    var i, j :| SuspicionHeld(limits, log, p, i, j) && forall other :: other in absent ==> SignalAbsent(log, p, j, other);
    assert longer[..i] == log[..i] && longer[..j] == log[..j];
    assert SuspicionHeld(limits, longer, p, i, j);
    forall other | other in absent + {signal} ensures SignalAbsent(longer, p, j, other) {
      if other == signal {
        assert longer[|log|] == Absent(p, signal);
      } else {
        var k :| 0 <= j < k < |log| && log[k] == Absent(p, other);
        assert longer[k] == Absent(p, other);
      }
    }
  }

  lemma ConfirmedIsHeld(limits: Limits, log: seq<Event>, p: nat, at: int, now: int)
    requires SuspicionTraced(log, Some(at)) && FoundStale(p, now) in log && now - at >= Confirmation(limits)
    ensures Held(limits, log + [Confirmed(p, at, now)], p, {})
  {
    var longer := log + [Confirmed(p, at, now)];
    var i :| Traced(log, i, at);
    assert longer[..i] == log[..i] && longer[..|log|] == log;
    assert SuspicionHeld(limits, longer, p, i, |log|);
  }

  lemma BackedGrows(limits: Limits, log: seq<Event>, longer: seq<Event>, p: nat, pass: Pass)
    requires log <= longer && Backed(limits, log, p, pass)
    ensures Backed(limits, longer, p, pass)
  {
    hide Held;
    match pass.pc {
      case TakeReap => HeldGrows(limits, log, longer, p, {});
      case RecheckHeartbeat => HeldGrows(limits, log, longer, p, {});
      case RecheckLock => HeldGrows(limits, log, longer, p, {HeartbeatSignal});
      case RecheckGuard => HeldGrows(limits, log, longer, p, {HeartbeatSignal, LockSignal});
      case LockRow => HeldGrows(limits, log, longer, p, {HeartbeatSignal, LockSignal, GuardSignal});
      case _ =>
    }
  }

  lemma TracedGrows(log: seq<Event>, event: Event, suspectedAt: Option<int>)
    requires SuspicionTraced(log, suspectedAt) && !event.SuspicionGone?
    ensures SuspicionTraced(log + [event], suspectedAt)
  {
    if suspectedAt.Some? {
      var i :| Traced(log, i, suspectedAt.value);
      assert (log + [event])[..i] == log[..i];
      assert Traced(log + [event], i, suspectedAt.value);
    }
  }

  lemma RecordedIsTraced(log: seq<Event>, p: nat, at: int)
    requires FoundStale(p, at) in log
    ensures SuspicionTraced(log + [Recorded(p, at)], Some(at))
  {
    assert (log + [Recorded(p, at)])[..|log|] == log;
    assert Traced(log + [Recorded(p, at)], |log|, at);
  }

  lemma JustifiedGrows(limits: Limits, log: seq<Event>, event: Event)
    requires BumpsJustified(limits, log)
    requires event.Bumped? ==> Held(limits, log, event.pass, {HeartbeatSignal, LockSignal, GuardSignal})
                               && event.clock - event.activity >= StallTimeout(limits)
    ensures BumpsJustified(limits, log + [event])
  {
    hide Held;
    var longer := log + [event];
    forall k | 0 <= k < |longer| && longer[k].Bumped? ensures Justified(limits, longer, k) {
      assert longer[..k] == log[..k];
      if k < |log| {
        assert Justified(limits, log, k);
      } else {
        assert log[..k] == log;
      }
    }
  }

  lemma NoteKeepsInv(limits: Limits, sys: Sys, event: Event)
    requires Inv(limits, sys) && !event.SuspicionGone? && !event.Bumped?
    ensures Inv(limits, Note(sys, event))
  {
    hide SuspicionTraced, BumpsJustified, Backed;
    TracedGrows(sys.log, event, sys.keys.suspectedAt);
    JustifiedGrows(limits, sys.log, event);
    forall q | q in sys.passes ensures Backed(limits, sys.log + [event], q, sys.passes[q]) {
      BackedGrows(limits, sys.log, sys.log + [event], q, sys.passes[q]);
    }
  }

  lemma SuspicionGoneKeepsInv(limits: Limits, sys: Sys, actor: Option<nat>)
    requires Inv(limits, sys)
    ensures Inv(limits, WithoutSuspicion(sys, actor))
  {
    hide BumpsJustified, Backed;
    JustifiedGrows(limits, sys.log, SuspicionGone(actor));
    forall q | q in sys.passes ensures Backed(limits, sys.log + [SuspicionGone(actor)], q, sys.passes[q]) {
      BackedGrows(limits, sys.log, sys.log + [SuspicionGone(actor)], q, sys.passes[q]);
    }
  }

  /** Moving one pass on keeps everything once its new position is backed. */
  lemma PassKeepsInv(limits: Limits, sys: Sys, p: nat, pass: Pass)
    requires Inv(limits, sys) && Backed(limits, sys.log, p, pass)
    ensures Inv(limits, sys.(passes := sys.passes[p := pass]))
  {
    hide SuspicionTraced, BumpsJustified, Backed;
  }

  lemma EndKeepsInv(limits: Limits, sys: Sys, p: nat)
    requires Inv(limits, sys)
    ensures Inv(limits, End(sys, p))
  {
    hide SuspicionTraced, BumpsJustified, Backed;
  }

  /** Nothing but the log, the suspicion and the passes matters. */
  lemma RestIsFree(limits: Limits, sys: Sys, after: Sys)
    requires Inv(limits, sys)
    requires after.log == sys.log && after.passes == sys.passes && after.keys.suspectedAt == sys.keys.suspectedAt
    ensures Inv(limits, after)
  {
    hide SuspicionTraced, BumpsJustified, Backed;
  }

  lemma BumpKeepsInv(limits: Limits, sys: Sys, p: nat, clock: int, activity: int, generation: nat)
    requires Inv(limits, sys) && p in sys.passes && sys.passes[p].pc == LockRow && clock - activity >= StallTimeout(limits)
    ensures Inv(limits, Note(sys, Bumped(p, clock, activity, generation)))
  {
    hide SuspicionTraced, BumpsJustified, Held;
    var event := Bumped(p, clock, activity, generation);
    assert Backed(limits, sys.log, p, sys.passes[p]);
    TracedGrows(sys.log, event, sys.keys.suspectedAt);
    JustifiedGrows(limits, sys.log, event);
    forall q | q in sys.passes ensures Backed(limits, sys.log + [event], q, sys.passes[q]) {
      BackedGrows(limits, sys.log, sys.log + [event], q, sys.passes[q]);
    }
  }

  lemma FirstLookKeepsInv(limits: Limits, id: TaskId, sys: Sys, p: nat)
    requires Inv(limits, sys) && p in sys.passes
    requires sys.passes[p].pc in {ReadHeartbeat, CheckActivity, ReadLock, ReadGuard}
    ensures Inv(limits, Advance(limits, id, sys, p))
  {
    hide Inv, Held;
    var pass := sys.passes[p];
    assert Backed(limits, sys.log, p, pass) by { PassIsBacked(limits, sys, p); }
    EndKeepsInv(limits, sys, p);
    NoteKeepsInv(limits, sys, SawLife(p));
    PassKeepsInv(limits, Note(sys, SawLife(p)), p, pass.(pc := ClearSuspicion));
    PassKeepsInv(limits, Note(sys, SawLife(p)), p, pass.(pc := ClearSuspicion, now := sys.clock));
    NoteKeepsInv(limits, sys, FoundStale(p, sys.clock));
    PassKeepsInv(limits, Note(sys, FoundStale(p, sys.clock)), p, pass.(pc := ReadLock, now := sys.clock));
    match pass.pc {
      case ReadHeartbeat => PassKeepsInv(limits, sys, p, pass.(pc := CheckActivity));
      case ReadLock => PassKeepsInv(limits, sys, p, pass.(pc := ReadGuard));
      case ReadGuard => PassKeepsInv(limits, sys, p, pass.(pc := ReadSuspicion));
      case CheckActivity =>
        assert sys.passes[p := pass.(now := sys.clock)][p := pass.(now := sys.clock, pc := ReadLock)]
            == sys.passes[p := pass.(now := sys.clock, pc := ReadLock)];
        assert sys.passes[p := pass.(now := sys.clock)][p := pass.(now := sys.clock, pc := ClearSuspicion)]
            == sys.passes[p := pass.(now := sys.clock, pc := ClearSuspicion)];
    }
  }

  lemma PassIsBacked(limits: Limits, sys: Sys, p: nat)
    requires Inv(limits, sys) && p in sys.passes
    ensures Backed(limits, sys.log, p, sys.passes[p])
  {
  }

  lemma SuspicionIsTraced(limits: Limits, sys: Sys)
    requires Inv(limits, sys)
    ensures SuspicionTraced(sys.log, sys.keys.suspectedAt)
  {
  }

  lemma ReadSuspicionKeepsInv(limits: Limits, id: TaskId, sys: Sys, p: nat)
    requires Inv(limits, sys) && p in sys.passes && sys.passes[p].pc == ReadSuspicion
    ensures Inv(limits, Advance(limits, id, sys, p))
  {
    hide Inv, Held;
    var pass, suspectedAt := sys.passes[p], sys.keys.suspectedAt;
    PassIsBacked(limits, sys, p);
    SuspicionIsTraced(limits, sys);
    EndKeepsInv(limits, sys, p);
    PassKeepsInv(limits, sys, p, pass.(pc := RecordSuspicion));
    if suspectedAt.Some? && pass.now - suspectedAt.value >= Confirmation(limits) {
      var event := Confirmed(p, suspectedAt.value, pass.now);
      NoteKeepsInv(limits, sys, event);
      ConfirmedIsHeld(limits, sys.log, p, suspectedAt.value, pass.now);
      PassKeepsInv(limits, Note(sys, event), p, pass.(pc := TakeReap));
    }
  }

  lemma RecordingKeepsInv(limits: Limits, id: TaskId, sys: Sys, p: nat)
    requires Inv(limits, sys) && p in sys.passes
    requires sys.passes[p].pc in {RecordSuspicion, ClearSuspicion, ForgetSuspicion}
    ensures Inv(limits, Advance(limits, id, sys, p))
  {
    hide Held, BumpsJustified, SuspicionTraced;
    var pass, keys := sys.passes[p], sys.keys;
    PassIsBacked(limits, sys, p);
    EndKeepsInv(limits, sys, p);
    SuspicionGoneKeepsInv(limits, sys, Some(p));
    EndKeepsInv(limits, WithoutSuspicion(sys, Some(p)), p);
    if pass.pc == RecordSuspicion && keys.suspectedAt == None {
      var event := Recorded(p, pass.now);
      var noted := Note(sys, event);
      NoteKeepsInv(limits, sys, event);
      RecordedIsTraced(sys.log, p, pass.now);
      var recorded := noted.(keys := keys.(suspectedAt := Some(pass.now)));
      assert Inv(limits, recorded);
      EndKeepsInv(limits, recorded, p);
    }
  }

  lemma RecheckKeepsInv(limits: Limits, id: TaskId, sys: Sys, p: nat)
    requires Inv(limits, sys) && p in sys.passes
    requires sys.passes[p].pc in {TakeReap, RecheckHeartbeat, RecheckLock, RecheckGuard}
    ensures Inv(limits, Advance(limits, id, sys, p))
  {
    hide Inv, Held;
    var pass := sys.passes[p];
    PassIsBacked(limits, sys, p);
    EndKeepsInv(limits, sys, p);
    NoteKeepsInv(limits, sys, SawLife(p));
    PassKeepsInv(limits, Note(sys, SawLife(p)), p, pass.(pc := ClearSuspicion));
    match pass.pc {
      case TakeReap =>
        var reaped := sys.(keys := sys.keys.(reapLock := Some(p)));
        RestIsFree(limits, sys, reaped);
        PassKeepsInv(limits, reaped, p, pass.(pc := RecheckHeartbeat));
      case RecheckHeartbeat => AbsentKeepsInv(limits, sys, p, {}, HeartbeatSignal, RecheckLock);
      case RecheckLock => AbsentKeepsInv(limits, sys, p, {HeartbeatSignal}, LockSignal, RecheckGuard);
      case RecheckGuard => AbsentKeepsInv(limits, sys, p, {HeartbeatSignal, LockSignal}, GuardSignal, LockRow);
    }
  }

  lemma AbsentKeepsInv(limits: Limits, sys: Sys, p: nat, absent: set<Signal>, signal: Signal, next: Pc)
    requires Inv(limits, sys) && p in sys.passes && Held(limits, sys.log, p, absent)
    requires || (absent == {} && signal == HeartbeatSignal && next == RecheckLock)
             || (absent == {HeartbeatSignal} && signal == LockSignal && next == RecheckGuard)
             || (absent == {HeartbeatSignal, LockSignal} && signal == GuardSignal && next == LockRow)
    ensures Inv(limits, Goto(Note(sys, Absent(p, signal)), p, next))
  {
    hide Inv, Held;
    NoteKeepsInv(limits, sys, Absent(p, signal));
    HeldWithAbsent(limits, sys.log, p, absent, signal);
    var none: set<Signal> := {};
    assert none + {HeartbeatSignal} == {HeartbeatSignal};
    assert {HeartbeatSignal} + {LockSignal} == {HeartbeatSignal, LockSignal};
    assert {HeartbeatSignal, LockSignal} + {GuardSignal} == {HeartbeatSignal, LockSignal, GuardSignal};
    PassKeepsInv(limits, Note(sys, Absent(p, signal)), p, sys.passes[p].(pc := next));
  }

  lemma LockAndBumpKeepsInv(limits: Limits, id: TaskId, sys: Sys, p: nat)
    requires Inv(limits, sys) && p in sys.passes && sys.passes[p].pc == LockRow
    ensures Inv(limits, LockAndBump(limits, id, sys, p))
  {
    hide Inv, Held, Apply;
    EndKeepsInv(limits, sys, p);
    NoteKeepsInv(limits, sys, SawLife(p));
    PassKeepsInv(limits, Note(sys, SawLife(p)), p, sys.passes[p].(pc := ClearSuspicion));
    if id in sys.db.tasks && sys.clock - sys.db.tasks[id].lastActivity >= StallTimeout(limits) {
      var row := sys.db.tasks[id];
      var event := Bumped(p, sys.clock, row.lastActivity, row.generation + 1);
      BumpKeepsInv(limits, sys, p, sys.clock, row.lastActivity, row.generation + 1);
      var bumped := Note(sys.(db := Apply(sys.db, sys.clock, ConfirmStall(id, StallTimeout(limits)))), event);
      RestIsFree(limits, Note(sys, event), bumped);
      PassKeepsInv(limits, bumped, p, sys.passes[p].(pc := FailTask(row.generation + 1, row.stage)));
      PassKeepsInv(limits, bumped, p, sys.passes[p].(pc := SetGuard(row.generation + 1)));
    }
  }

  lemma ClearKeysKeepsInv(limits: Limits, sys: Sys, actor: Option<nat>)
    requires Inv(limits, sys)
    ensures Inv(limits, ClearKeys(sys, actor))
  {
    hide Inv;
    SuspicionGoneKeepsInv(limits, sys, actor);
    NoteKeepsInv(limits, WithoutSuspicion(sys, actor), CountGone);
    RestIsFree(limits, Note(WithoutSuspicion(sys, actor), CountGone), ClearKeys(sys, actor));
  }

  lemma ActingKeepsInv(limits: Limits, id: TaskId, sys: Sys, p: nat)
    requires Inv(limits, sys) && p in sys.passes
    requires var pc := sys.passes[p].pc;
             pc.FailTask? || pc.ClearAll? || pc.SetGuard? || pc.Send? || pc.DropGuard? || pc.CountResume?
    ensures Inv(limits, Advance(limits, id, sys, p))
  {
    hide Inv, Held, Apply, Goes;
    var pass, keys := sys.passes[p], sys.keys;
    match pass.pc {
      case FailTask(generation, stage) =>
        var failed := sys.(db := Apply(sys.db, sys.clock, Worker(id, Some(generation), Fail(stage, STALL_MESSAGE))));
        RestIsFree(limits, sys, failed);
        EndKeepsInv(limits, failed, p);
        PassKeepsInv(limits, failed, p, pass.(pc := ClearAll));
      case ClearAll =>
        ClearKeysKeepsInv(limits, sys, Some(p));
        EndKeepsInv(limits, ClearKeys(sys, Some(p)), p);
      case SetGuard(generation) =>
        var guarded := sys.(keys := keys.(dispatchGuard := true));
        RestIsFree(limits, sys, guarded);
        PassKeepsInv(limits, guarded, p, pass.(pc := Send(generation)));
      case Send(generation) =>
        NoteKeepsInv(limits, sys, Redispatched(p, generation));
        PassKeepsInv(limits, Note(sys, Redispatched(p, generation)), p, pass.(pc := CountResume));
      case DropGuard =>
        var dropped := sys.(keys := keys.(dispatchGuard := false));
        RestIsFree(limits, sys, dropped);
        EndKeepsInv(limits, dropped, p);
      case CountResume =>
        var counted := sys.(keys := keys.(resumeCount := keys.resumeCount + 1));
        RestIsFree(limits, sys, counted);
        PassKeepsInv(limits, counted, p, pass.(pc := ForgetSuspicion));
    }
  }

  lemma ProceedKeepsInv(limits: Limits, id: TaskId, sys: Sys, p: nat)
    requires Inv(limits, sys) && p in sys.passes
    ensures Inv(limits, Advance(limits, id, sys, p))
  {
    hide Inv, Backed;
    var pc := sys.passes[p].pc;
    if pc.FailTask? || pc.ClearAll? || pc.SetGuard? || pc.Send? || pc.DropGuard? || pc.CountResume? {
      ActingKeepsInv(limits, id, sys, p);
    } else if pc.LockRow? {
      LockAndBumpKeepsInv(limits, id, sys, p);
    } else if pc in {TakeReap, RecheckHeartbeat, RecheckLock, RecheckGuard} {
      RecheckKeepsInv(limits, id, sys, p);
    } else if pc in {RecordSuspicion, ClearSuspicion, ForgetSuspicion} {
      RecordingKeepsInv(limits, id, sys, p);
    } else if pc.ReadSuspicion? {
      ReadSuspicionKeepsInv(limits, id, sys, p);
    } else {
      FirstLookKeepsInv(limits, id, sys, p);
    }
  }

  lemma StepKeepsInv(limits: Limits, id: TaskId, sys: Sys, action: Action)
    requires Inv(limits, sys)
    ensures Inv(limits, Step(limits, id, sys, action))
  {
    hide Inv, Advance, Apply;
    var after := Step(limits, id, sys, action);
    match action {
      case Begin(p) =>
        if id in sys.db.tasks {
          var pass := Pass(ReadHeartbeat, sys.db.tasks[id].lastActivity, sys.clock);
          PassKeepsInv(limits, sys, p, pass);
          RestIsFree(limits, sys.(passes := sys.passes[p := pass]), sys.(passes := sys.passes[p := pass], begun := sys.begun + {p}));
        }
      case Proceed(p) =>
        if p in sys.passes {
          ProceedKeepsInv(limits, id, sys, p);
        }
      case Crash(p) =>
        NoteKeepsInv(limits, sys, Died(p));
        EndKeepsInv(limits, Note(sys, Died(p)), p);
      case RefuseDispatch(p) =>
        if p in sys.passes {
          PassKeepsInv(limits, sys, p, sys.passes[p].(pc := DropGuard));
        }
      case SuspicionExpires => SuspicionGoneKeepsInv(limits, sys, None);
      case CountExpires =>
        NoteKeepsInv(limits, sys, CountGone);
        RestIsFree(limits, Note(sys, CountGone), after);
      case AllKeysCleared => ClearKeysKeepsInv(limits, sys, None);
      case _ => RestIsFree(limits, sys, after);
    }
  }

  lemma {:induction false} RunKeepsInv(limits: Limits, id: TaskId, sys: Sys, actions: seq<Action>)
    requires Inv(limits, sys)
    ensures Inv(limits, Run(limits, id, sys, actions))
    decreases |actions|
  {
    hide Inv, Step;
    if actions != [] {
      var earlier := actions[..|actions| - 1];
      RunKeepsInv(limits, id, sys, earlier);
      StepKeepsInv(limits, id, Run(limits, id, sys, earlier), actions[|actions| - 1]);
    }
  }

  /** In every run, whatever the passes, the workers, the keys and the clock do: a generation is
      bumped only by a pass that read an undeleted suspicion at least the confirmation window after
      another look had found the task stale, then found heartbeat, lock and guard absent once more,
      and locked a row inactive for the whole stall timeout. */
  lemma BumpsAreConfirmedTwice(limits: Limits, id: TaskId, sys: Sys, actions: seq<Action>, k: nat)
    requires Initial(sys)
    requires k < |Run(limits, id, sys, actions).log| && Run(limits, id, sys, actions).log[k].Bumped?
    ensures var log := Run(limits, id, sys, actions).log;
            && Held(limits, log[..k], log[k].pass, {HeartbeatSignal, LockSignal, GuardSignal})
            && log[k].clock - log[k].activity >= StallTimeout(limits)
  {
    hide Run, Held;
    assert Inv(limits, sys);
    RunKeepsInv(limits, id, sys, actions);
    assert Justified(limits, Run(limits, id, sys, actions).log, k);
  }

  /** And the bump itself is the transaction of a row found processing and stale under its lock. */
  lemma BumpLocksStalledRow(limits: Limits, id: TaskId, sys: Sys, p: nat)
    requires p in sys.passes && sys.passes[p].pc == LockRow
    ensures var after := Advance(limits, id, sys, p);
            if id in sys.db.tasks && sys.db.tasks[id].status == Processing
               && sys.clock - sys.db.tasks[id].lastActivity >= StallTimeout(limits)
            then after.db.tasks.Keys == sys.db.tasks.Keys
                 && after.db.tasks[id] == sys.db.tasks[id].(generation := sys.db.tasks[id].generation + 1)
                 && after.log == sys.log + [Bumped(p, sys.clock, sys.db.tasks[id].lastActivity, sys.db.tasks[id].generation + 1)]
            else after.db == sys.db
  {
  }

  // ----- Every run of the system is a history of the database -----

  /** What one action commits. */
  function Commits(limits: Limits, id: TaskId, sys: Sys, action: Action): seq<Timed> {
    match action
    case Commit(txn) => if txn.ConfirmStall? && txn.id == id then [] else [Timed(sys.clock, txn)]
    case Proceed(p) =>
      if p !in sys.passes then []
      else
        (match sys.passes[p].pc
         case LockRow => [Timed(sys.clock, ConfirmStall(id, StallTimeout(limits)))]
         case FailTask(generation, stage) => [Timed(sys.clock, Worker(id, Some(generation), Fail(stage, STALL_MESSAGE)))]
         case _ => [])
    case _ => []
  }

  function History(limits: Limits, id: TaskId, sys: Sys, actions: seq<Action>): seq<Timed>
    decreases |actions|
  {
    if actions == [] then []
    else
      var earlier, last := actions[..|actions| - 1], actions[|actions| - 1];
      History(limits, id, sys, earlier) + Commits(limits, id, Run(limits, id, sys, earlier), last)
  }

  lemma StepCommits(limits: Limits, id: TaskId, sys: Sys, action: Action)
    ensures Step(limits, id, sys, action).db == Replay(sys.db, Commits(limits, id, sys, action))
  {
    hide ApplyWorker, Admits, Cleared;
    var commits := Commits(limits, id, sys, action);
    if commits != [] {
      assert commits[1..] == [];
      assert Replay(sys.db, commits) == Apply(sys.db, commits[0].now, commits[0].txn);
    }
  }

  lemma {:induction false} RunIsReplay(limits: Limits, id: TaskId, sys: Sys, actions: seq<Action>)
    ensures Run(limits, id, sys, actions).db == Replay(sys.db, History(limits, id, sys, actions))
    decreases |actions|
  {
    hide Step, Commits, Apply;
    if actions != [] {
      var earlier, last := actions[..|actions| - 1], actions[|actions| - 1];
      var before := Run(limits, id, sys, earlier);
      RunIsReplay(limits, id, sys, earlier);
      StepCommits(limits, id, before, last);
      ReplayAppends(sys.db, History(limits, id, sys, earlier), Commits(limits, id, before, last));
    }
  }

  /** So the fence needs nothing from Redis: whatever happens to the keys, once the task has moved
      past generation g the database is the one the run would have left without any transaction of
      a worker of generation g or older. */
  lemma FenceHoldsWithoutRedis(limits: Limits, id: TaskId, sys: Sys, actions: seq<Action>, g: nat)
    requires SoundDb(sys.db) && MovedPast(sys.db, id, g)
    ensures Run(limits, id, sys, actions).db == Replay(sys.db, WithoutStale(History(limits, id, sys, actions), id, g))
  {
    RunIsReplay(limits, id, sys, actions);
    SupersededWorkersChangeNothing(sys.db, History(limits, id, sys, actions), id, g);
  }

  // ----- One pass that nobody disturbs -----

  /** What the pass must find to act: a processing row without recent activity, no signal of a
      worker or a dispatch, a suspicion past the confirmation window, and nobody else acting. */
  predicate ActsOn(limits: Limits, row: TaskRow, keys: RuntimeKeys, now: int) {
    && row.status == Processing && now - row.lastActivity >= StallTimeout(limits)
    && !keys.heartbeat && !keys.workerLock && !keys.dispatchGuard
    && keys.suspectedAt.Some? && now - keys.suspectedAt.value >= Confirmation(limits)
    && keys.reapLock == None
  }

  predicate MayResume(limits: Limits, row: TaskRow, keys: RuntimeKeys) {
    keys.resumeCount < ResumeCap(limits) && row.source != ""
  }

  /** The keys a pass that does not act leaves behind. */
  function KeysAfterLook(limits: Limits, row: TaskRow, keys: RuntimeKeys, now: int): RuntimeKeys {
    if row.status != Processing then keys
    else if keys.heartbeat || now - row.lastActivity < StallTimeout(limits) then keys.(suspectedAt := None)
    else if keys.workerLock || keys.dispatchGuard then keys
    else if keys.suspectedAt == None then keys.(suspectedAt := Some(now))
    else keys
  }

  class Reconciler {
    const backend: Backend
    const service: TaskRuntimeService
    const limits: Limits

    constructor (backend: Backend, limits: Limits)
      ensures this.backend == backend && service.backend == backend && this.limits == limits
    {
      this.backend, this.limits := backend, limits;
      service := new TaskRuntimeService(backend);
    }

    method SetKeys(id: TaskId, keys: RuntimeKeys)
      modifies backend`keys
      ensures backend.keys == old(backend.keys)[id := keys]
    {
      backend.keys := backend.keys[id := keys];
    }

    /** Acts if and only if the task is found stalled and was so before; then the task either fails,
        with its refund, or is queued once more under a new generation. */
    method ReconcileIfStalled(id: TaskId, token: nat, now: int, dispatched: bool)
      requires id in backend.db.tasks && service.backend == backend
      modifies backend
      ensures var row, keys := old(backend.db).tasks[id], old(backend.KeysOf(id));
              var bumped := Apply(old(backend.db), now, ConfirmStall(id, StallTimeout(limits)));
              if !ActsOn(limits, row, keys, now) then
                backend.db == old(backend.db) && backend.KeysOf(id) == KeysAfterLook(limits, row, keys, now)
              else if MayResume(limits, row, keys) then
                && backend.db == bumped && bumped.tasks[id] == row.(generation := row.generation + 1)
                && backend.KeysOf(id) == (if dispatched
                                          then keys.(reapLock := Some(token), dispatchGuard := true,
                                                     resumeCount := keys.resumeCount + 1, suspectedAt := None)
                                          else keys.(reapLock := Some(token)))
              else
                && backend.db == Apply(bumped, now, Worker(id, Some(row.generation + 1), Fail(row.stage, STALL_MESSAGE)))
                && backend.db.tasks[id].status == Failed && backend.db.tasks[id].generation == row.generation + 1
                && backend.KeysOf(id) == Cleared(keys)
      ensures forall other :: other != id ==> backend.KeysOf(other) == old(backend.KeysOf(other))
    {
      var row, keys := backend.db.tasks[id], backend.KeysOf(id);
      if row.status != Processing {
        return;
      }
      if keys.heartbeat || now - row.lastActivity < MaxInt(60, limits.stallSeconds) {
        SetKeys(id, keys.(suspectedAt := None));
        return;
      }
      if keys.workerLock || keys.dispatchGuard {
        return;
      }
      if keys.suspectedAt == None {
        SetKeys(id, keys.(suspectedAt := Some(now)));
        return;
      }
      if now - keys.suspectedAt.value < MaxInt(60, limits.confirmationSeconds) || keys.reapLock.Some? {
        return;
      }
      SetKeys(id, keys.(reapLock := Some(token)));
      Act(id, row, now, dispatched);
    }

    method Act(id: TaskId, row: TaskRow, now: int, dispatched: bool)
      requires id in backend.db.tasks && service.backend == backend && row == backend.db.tasks[id]
      requires row.status == Processing && now - row.lastActivity >= StallTimeout(limits)
      modifies backend
      ensures var keys := old(backend.KeysOf(id));
              var bumped := Apply(old(backend.db), now, ConfirmStall(id, StallTimeout(limits)));
              if MayResume(limits, row, keys) then
                && backend.db == bumped && bumped.tasks[id] == row.(generation := row.generation + 1)
                && backend.KeysOf(id) == (if dispatched
                                          then keys.(dispatchGuard := true, resumeCount := keys.resumeCount + 1, suspectedAt := None)
                                          else keys.(dispatchGuard := false))
              else
                && backend.db == Apply(bumped, now, Worker(id, Some(row.generation + 1), Fail(row.stage, STALL_MESSAGE)))
                && backend.db.tasks[id].status == Failed && backend.db.tasks[id].generation == row.generation + 1
                && backend.KeysOf(id) == Cleared(keys)
      ensures forall other :: other != id ==> backend.KeysOf(other) == old(backend.KeysOf(other))
    {
      hide Stepped, Refunded, IsFailedFrom, IsRefund, OnlyTask, KeysCleared, IsCurrent;
      var keys := backend.KeysOf(id);
      backend.UpdateTask(id, row.(generation := row.generation + 1));
      if keys.resumeCount >= MaxInt(0, limits.maxAutoResumes) || row.source == "" {
        FailedStepFails(backend.db.tasks[id], row.stage, now);
        var _ := service.MarkFailed(id, row.stage, STALL_MESSAGE, Some(row.generation + 1), now);
        return;
      }
      SetKeys(id, keys.(dispatchGuard := true));
      if !dispatched {
        SetKeys(id, keys.(dispatchGuard := false));
        return;
      }
      SetKeys(id, keys.(dispatchGuard := true, resumeCount := keys.resumeCount + 1, suspectedAt := None));
    }
  }

  lemma FailedStepFails(row: TaskRow, stage: Option<TaskStage>, now: int)
    ensures var failed := Stepped(row, Fail(stage, STALL_MESSAGE), now);
            failed.status == Failed && failed.generation == row.generation
  {
  }
}
