/** The monthly quota against the task database: what each unit in use stands for. */
module TaskQuota {
  import opened Numeric
  import opened PipelineTypes
  import opened TaskStore

  predicate Charged(db: Db, user: UserId, id: TaskId) {
    || (id in db.tasks && db.tasks[id].user == user && db.tasks[id].status != Failed)
    || (id in db.uploads && db.uploads[id] == user)
    || (id in db.dropped && db.dropped[id] == user)
  }

  /** What the user is charged for: tasks that have not failed, uploads under way, and dropped
      tasks whose refund is still to come. */
  ghost function ChargedIds(db: Db, user: UserId): set<TaskId> {
    set id | id in db.tasks.Keys + db.uploads.Keys + db.dropped.Keys && Charged(db, user, id)
  }

  ghost function Balance(db: Db, user: UserId): int
    requires user in db.users
  {
    db.users[user].monthlyUsed - |ChargedIds(db, user)|
  }

  /** The task of this user that a worker's admitted step works on. */
  predicate Touches(db: Db, txn: Txn, user: UserId) {
    && txn.Worker? && txn.id in db.tasks && db.tasks[txn.id].user == user
    && !Fenced(db.tasks[txn.id], txn.generation) && Admits(db.tasks[txn.id], txn.generation, txn.step)
  }

  /** A failed task is processed again, or completed after all: its refund is not taken back. */
  predicate Revives(db: Db, txn: Txn, user: UserId) {
    Touches(db, txn, user) && db.tasks[txn.id].status == Failed && (txn.step.Process? || txn.step.Complete?)
  }

  /** How a transaction moves the quota in use apart from what the user is charged for. */
  function Drift(db: Db, txn: Txn, user: UserId): int {
    match txn
    case Worker(_, _, _) => if Revives(db, txn, user) then -1 else 0
    case DropTask(id) =>
      if id in db.tasks && db.tasks[id].user == user && db.tasks[id].status == Failed then -1 else 0
    case RefundKeepingTask(id) =>
      if id in db.tasks && db.tasks[id].user == user && user in db.users && db.users[user].monthlyUsed > 0 then -1 else 0
    case Delete(id, owner) =>
      if owner == user && id in db.tasks && db.tasks[id].user == user
         && (db.tasks[id].status == Paused || db.tasks[id].status == Completed) then 1 else 0
    case _ => 0
  }

  lemma ChargesFromMembers(db: Db, after: Db, user: UserId, id: TaskId)
    requires forall other :: other != id ==> (Charged(db, user, other) <==> Charged(after, user, other))
    ensures |ChargedIds(after, user)| - |ChargedIds(db, user)|
         == (if Charged(after, user, id) then 1 else 0) - (if Charged(db, user, id) then 1 else 0)
  {
    hide Charged;
    MembersAreCharged(db, user);
    MembersAreCharged(after, user);
    var earlier, later := ChargedIds(db, user), ChargedIds(after, user);
    assert earlier - {id} == later - {id};
    assert |earlier| == |earlier - {id}| + if id in earlier then 1 else 0;
    assert |later| == |later - {id}| + if id in later then 1 else 0;
  }

  lemma MembersAreCharged(db: Db, user: UserId)
    ensures forall id :: id in ChargedIds(db, user) <==> Charged(db, user, id)
  {
  }

  lemma UsedAtLeastCharged(db: Db, user: UserId, id: TaskId)
    requires user in db.users && Balance(db, user) >= 0 && Charged(db, user, id)
    ensures db.users[user].monthlyUsed >= 1
  {
    hide Charged;
    MembersAreCharged(db, user);
    assert ChargedIds(db, user) != {};
  }

  /** What one transaction does to one user's charges and use; `id` is the only task concerned. */
  ghost predicate Moves(db: Db, after: Db, user: UserId, id: TaskId, used: int, charged: int)
    requires user in db.users
  {
    && user in after.users
    && after.users[user].monthlyUsed == db.users[user].monthlyUsed + used
    && (forall other :: other != id ==> (Charged(db, user, other) <==> Charged(after, user, other)))
    && charged == (if Charged(after, user, id) then 1 else 0) - (if Charged(db, user, id) then 1 else 0)
  }

  lemma WorkerMoves(db: Db, now: int, id: TaskId, generation: Option<nat>, step: WorkerStep, user: UserId)
    requires SoundDb(db) && user in db.users && Balance(db, user) >= 0
    ensures var txn := Worker(id, generation, step);
            var failing := Touches(db, txn, user) && step.Fail?;
            Moves(db, Apply(db, now, txn), user, id, if failing then -1 else 0,
                  if failing then -1 else if Revives(db, txn, user) then 1 else 0)
  {
    hide SoundRow, ChargedIds;
    if id in db.tasks && Charged(db, user, id) {
      UsedAtLeastCharged(db, user, id);
    }
  }

  /** A transaction that is not a worker's concerns only its own task. */
  lemma OthersUnmoved(db: Db, now: int, txn: Txn, user: UserId, other: TaskId)
    requires !txn.Worker? && other != txn.id
    ensures Charged(db, user, other) <==> Charged(Apply(db, now, txn), user, other)
  {
  }

  ghost predicate DriftAccounts(db: Db, after: Db, txn: Txn, user: UserId)
    requires user in db.users
  {
    && user in after.users
    && after.users[user].monthlyUsed - db.users[user].monthlyUsed
       == (if Charged(after, user, txn.id) then 1 else 0) - (if Charged(db, user, txn.id) then 1 else 0) + Drift(db, txn, user)
  }

  lemma RefundingDrift(db: Db, now: int, txn: Txn, user: UserId)
    requires SoundDb(db) && user in db.users && Balance(db, user) >= 0
    requires txn.AbandonUpload? || txn.RefundDropped? || txn.RefundKeepingTask?
    ensures DriftAccounts(db, Apply(db, now, txn), txn, user)
  {
    hide SoundRow, ChargedIds;
    if Charged(db, user, txn.id) {
      UsedAtLeastCharged(db, user, txn.id);
    }
  }

  lemma FreeDrift(db: Db, now: int, txn: Txn, user: UserId)
    requires SoundDb(db) && user in db.users
    requires !txn.Worker? && !(txn.AbandonUpload? || txn.RefundDropped? || txn.RefundKeepingTask?)
    ensures DriftAccounts(db, Apply(db, now, txn), txn, user)
  {
    hide SoundRow;
  }

  lemma UserMoves(db: Db, now: int, txn: Txn, user: UserId) returns (used: int, charged: int)
    requires SoundDb(db) && user in db.users && Balance(db, user) >= 0 && !txn.Worker?
    ensures Moves(db, Apply(db, now, txn), user, txn.id, used, charged)
    ensures used - charged == Drift(db, txn, user)
  {
    hide SoundDb, Balance, Apply, Charged, Drift;
    var after := Apply(db, now, txn);
    if txn.AbandonUpload? || txn.RefundDropped? || txn.RefundKeepingTask? {
      RefundingDrift(db, now, txn, user);
    } else {
      FreeDrift(db, now, txn, user);
    }
    forall other | other != txn.id ensures Charged(db, user, other) <==> Charged(after, user, other) {
      OthersUnmoved(db, now, txn, user, other);
    }
    used := after.users[user].monthlyUsed - db.users[user].monthlyUsed;
    charged := (if Charged(after, user, txn.id) then 1 else 0) - (if Charged(db, user, txn.id) then 1 else 0);
  }

  /** Apart from its drift, a transaction moves the quota in use exactly as it moves the charges. */
  lemma BalanceMovesByDrift(db: Db, now: int, txn: Txn, user: UserId)
    requires SoundDb(db) && user in db.users && Balance(db, user) >= 0
    ensures user in Apply(db, now, txn).users
    ensures Balance(Apply(db, now, txn), user) == Balance(db, user) + Drift(db, txn, user)
  {
    hide Apply, Charged, ChargedIds, SoundDb;
    var after := Apply(db, now, txn);
    if txn.Worker? {
      WorkerMoves(db, now, txn.id, txn.generation, txn.step, user);
      ChargesFromMembers(db, after, user, txn.id);
    } else {
      var used, charged := UserMoves(db, now, txn, user);
      ChargesFromMembers(db, after, user, txn.id);
    }
  }

  /** A worker's transaction pays a refund exactly when it takes a task from a status that is not
      final into failed. */
  lemma RefundMeansNewlyFailed(db: Db, now: int, id: TaskId, generation: Option<nat>, step: WorkerStep, user: UserId)
    requires SoundDb(db) && user in db.users && Balance(db, user) >= 0
    ensures var after := Apply(db, now, Worker(id, generation, step));
            && user in after.users
            && after.users[user].monthlyUsed <= db.users[user].monthlyUsed
            && (after.users[user].monthlyUsed < db.users[user].monthlyUsed <==>
                  id in db.tasks && db.tasks[id].user == user && !IsTerminal(db.tasks[id].status)
                  && after.tasks[id].status == Failed)
  {
    hide SoundRow, ChargedIds, Moves;
    WorkerMoves(db, now, id, generation, step, user);
    UsedMoves(db, Apply(db, now, Worker(id, generation, step)), user, id);
  }

  lemma UsedMoves(db: Db, after: Db, user: UserId, id: TaskId)
    requires user in db.users
    ensures forall used, charged :: Moves(db, after, user, id, used, charged) ==>
              user in after.users && after.users[user].monthlyUsed == db.users[user].monthlyUsed + used
  {
  }

  // ----- Whole histories -----

  /** No step of the history lets the user keep a refund for a task that is charged again. */
  ghost predicate NeverRevives(db: Db, history: seq<Timed>, user: UserId)
    decreases |history|
  {
    history == [] || (Drift(db, history[0].txn, user) >= 0
                      && NeverRevives(Apply(db, history[0].now, history[0].txn), history[1..], user))
  }

  /** How many tasks of the user that had not failed were deleted. */
  ghost function Deletions(db: Db, history: seq<Timed>, user: UserId): int
    decreases |history|
  {
    if history == [] then 0
    else Drift(db, history[0].txn, user) + Deletions(Apply(db, history[0].now, history[0].txn), history[1..], user)
  }

  /** In a history that never revives a failed task, the quota in use is its start value, plus the
      tasks and uploads charged since, minus those that failed; deleting a task gives nothing back. */
  lemma {:induction false} QuotaIsConserved(db: Db, history: seq<Timed>, user: UserId)
    requires SoundDb(db) && user in db.users && Balance(db, user) >= 0
    requires NeverRevives(db, history, user)
    ensures user in Replay(db, history).users
    ensures Balance(Replay(db, history), user) == Balance(db, user) + Deletions(db, history, user)
    ensures Deletions(db, history, user) >= 0
    decreases |history|
  {
    hide Apply, SoundDb, Balance, Drift;
    if history != [] {
      ApplyIsSound(db, history[0].now, history[0].txn);
      BalanceMovesByDrift(db, history[0].now, history[0].txn, user);
      QuotaIsConserved(Apply(db, history[0].now, history[0].txn), history[1..], user);
    }
  }

  /** At no step does what the user has paid for fall behind what the user is charged for. */
  ghost predicate NeverLeaks(db: Db, history: seq<Timed>, user: UserId)
    requires user in db.users
    decreases |history|
  {
    history == []
    || var after := Apply(db, history[0].now, history[0].txn);
       user in after.users && Balance(after, user) >= Balance(db, user) && NeverLeaks(after, history[1..], user)
  }

  /** That condition is exact: a history that revives a failed task leaks quota at that step. */
  lemma {:induction false} QuotaLeaksExactlyByRevival(db: Db, history: seq<Timed>, user: UserId)
    requires SoundDb(db) && user in db.users && Balance(db, user) >= 0
    ensures NeverLeaks(db, history, user) <==> NeverRevives(db, history, user)
    decreases |history|
  {
    hide Apply, SoundDb, Balance, Drift;
    if history != [] {
      var after := Apply(db, history[0].now, history[0].txn);
      ApplyIsSound(db, history[0].now, history[0].txn);
      BalanceMovesByDrift(db, history[0].now, history[0].txn, user);
      if Balance(after, user) >= Balance(db, user) {
        QuotaLeaksExactlyByRevival(after, history[1..], user);
      }
    }
  }

  /** And reviving one does break it: a task is failed, processed again by force and completed,
      and its owner has paid nothing for it. */
  lemma RevivedTaskIsFree(db: Db, id: TaskId, user: UserId, now: int) returns (history: seq<Timed>)
    requires SoundDb(db) && user in db.users && id in db.tasks && db.tasks[id].user == user
    requires db.tasks[id].status == Processing && Balance(db, user) >= 0
    ensures id in Replay(db, history).tasks && Replay(db, history).tasks[id].status == Completed
    ensures user in Replay(db, history).users
    ensures Replay(db, history).users[user].monthlyUsed == db.users[user].monthlyUsed - 1
  {
    hide Apply;
    var generation := Some(db.tasks[id].generation);
    var fail, process, complete := Worker(id, generation, Fail(None, "")), Worker(id, generation, Process(true)),
                                   Worker(id, generation, Complete(""));
    history := [Timed(now, fail), Timed(now, process), Timed(now, complete)];
    UsedAtLeastCharged(db, user, id);
    FailureRefunds(db, id, user, now, generation);
    var failed := Apply(db, now, fail);
    var processed := Apply(failed, now, process);
    RevivalKeepsRefund(failed, id, now, generation);
    assert history[1..] == [Timed(now, process), Timed(now, complete)];
    assert history[1..][1..] == [Timed(now, complete)];
    assert Replay(processed, [Timed(now, complete)]) == Apply(processed, now, complete) by {
      assert [Timed(now, complete)][1..] == [];
    }
    assert Replay(failed, history[1..]) == Replay(processed, history[1..][1..]);
  }

  lemma FailureRefunds(db: Db, id: TaskId, user: UserId, now: int, generation: Option<nat>)
    requires user in db.users && id in db.tasks && db.tasks[id].user == user && db.users[user].monthlyUsed > 0
    requires db.tasks[id].status == Processing && generation == Some(db.tasks[id].generation)
    ensures var failed := Apply(db, now, Worker(id, generation, Fail(None, "")));
            && id in failed.tasks && failed.tasks[id].status == Failed && generation == Some(failed.tasks[id].generation)
            && user in failed.users && failed.users[user].monthlyUsed == db.users[user].monthlyUsed - 1
  {
  }

  lemma RevivalKeepsRefund(db: Db, id: TaskId, now: int, generation: Option<nat>)
    requires id in db.tasks && db.tasks[id].status == Failed && generation == Some(db.tasks[id].generation)
    ensures var processed := Apply(db, now, Worker(id, generation, Process(true)));
            var completed := Apply(processed, now, Worker(id, generation, Complete("")));
            completed.users == db.users && id in completed.tasks && completed.tasks[id].status == Completed
  {
  }
}
