/** The worker lease in Redis: an expiring lock and a heartbeat, each carrying its owner's token. */
module TaskLiveness {
  import opened Numeric
  import opened PipelineTypes

  // ----- Keys and tokens -----

  function LockKey(taskId: string): string {
    "task:" + taskId + ":worker-lock"
  }

  function HeartbeatKey(taskId: string): string {
    "task:" + taskId + ":heartbeat"
  }

  function OwnerToken(runGeneration: nat, celeryTaskId: string): string {
    Decimal(runGeneration) + ":" + celeryTaskId
  }

  lemma {:induction false} DecimalHasNoColon(n: nat, i: nat)
    requires i < |Decimal(n)|
    ensures Decimal(n)[i] != ':'
  {
    if n >= 10 && i < |Decimal(n / 10)| {
      DecimalHasNoColon(n / 10, i);
    }
  }

  /** Workers of different generations, or of different deliveries, never share a token. */
  lemma OwnerTokenIsInjective(g: nat, a: string, h: nat, b: string)
    requires OwnerToken(g, a) == OwnerToken(h, b)
    ensures g == h && a == b
  {
    var token := OwnerToken(g, a);
    assert token[|Decimal(g)|] == ':' && token[|Decimal(h)|] == ':';
    if |Decimal(g)| < |Decimal(h)| {
      DecimalHasNoColon(h, |Decimal(g)|);
    } else if |Decimal(h)| < |Decimal(g)| {
      DecimalHasNoColon(g, |Decimal(h)|);
    }
    assert token[..|Decimal(g)|] == Decimal(g) && token[..|Decimal(h)|] == Decimal(h);
    DecimalIsInjective(g, h);
    assert token[|Decimal(g)| + 1..] == a && token[|Decimal(h)| + 1..] == b;
  }

  /** Different tasks never share a key, and a lock is never a heartbeat. */
  lemma KeysAreDistinct(a: string, b: string)
    ensures LockKey(a) != HeartbeatKey(b)
    ensures LockKey(a) == LockKey(b) ==> a == b
    ensures HeartbeatKey(a) == HeartbeatKey(b) ==> a == b
  {
    var lock, beat := LockKey(a), HeartbeatKey(b);
    assert lock[|lock| - 1] == 'k' && beat[|beat| - 1] == 't';
    assert LockKey(a)[5..|LockKey(a)| - 12] == a && LockKey(b)[5..|LockKey(b)| - 12] == b;
    assert HeartbeatKey(a)[5..|HeartbeatKey(a)| - 10] == a && HeartbeatKey(b)[5..|HeartbeatKey(b)| - 10] == b;
  }

  // ----- The store -----

  /** A value with the seconds it was last given to live. A heartbeat's value is a JSON object
      naming its owner; one that does not parse is plain text. */
  datatype Entry =
    | Plain(text: string, ttl: int)
    | Beat(owner: string, timestamp: real, ttl: int)

  type Store = map<string, Entry>

  /** The commands a worker sends, and the clock taking a key away. */
  datatype Command =
    | Acquire(taskId: string, owner: string, ttl: int)
    | Refresh(taskId: string, owner: string, lockTtl: int, heartbeatTtl: int, timestamp: real)
    | Release(taskId: string, owner: string)
    | Expiry(key: string)

  predicate HoldsLock(store: Store, taskId: string, owner: string) {
    LockKey(taskId) in store && store[LockKey(taskId)].Plain? && store[LockKey(taskId)].text == owner
  }

  predicate Beats(store: Store, taskId: string, owner: string) {
    HeartbeatKey(taskId) in store && store[HeartbeatKey(taskId)].Beat? && store[HeartbeatKey(taskId)].owner == owner
  }

  function Step(store: Store, command: Command): Store {
    match command
    case Acquire(taskId, owner, ttl) =>
      if LockKey(taskId) in store then store else store[LockKey(taskId) := Plain(owner, ttl)]
    case Refresh(taskId, owner, lockTtl, heartbeatTtl, timestamp) =>
      if !HoldsLock(store, taskId, owner) then store
      else store[LockKey(taskId) := Plain(owner, lockTtl)][HeartbeatKey(taskId) := Beat(owner, timestamp, heartbeatTtl)]
    case Release(taskId, owner) =>
      store - (if HoldsLock(store, taskId, owner) then {LockKey(taskId)} else {})
            - (if Beats(store, taskId, owner) then {HeartbeatKey(taskId)} else {})
    case Expiry(key) => store - {key}
  }

  class Redis {
    var store: Store

    constructor ()
      ensures store == map[]
    {
      store := map[];
    }

    /** SET with NX: succeeds only on a free lock. */
    method AcquireTaskOwnership(taskId: string, owner: string, ttl: int) returns (acquired: bool)
      modifies this
      ensures store == Step(old(store), Acquire(taskId, owner, ttl))
      ensures acquired <==> LockKey(taskId) !in old(store)
      ensures store == if acquired then old(store)[LockKey(taskId) := Plain(owner, ttl)] else old(store)
      ensures acquired ==> HoldsLock(store, taskId, owner)
    {
      acquired := LockKey(taskId) !in store;
      if acquired {
        store := store[LockKey(taskId) := Plain(owner, ttl)];
      }
    }

    /** The refresh script: renews both keys, or nothing at all. */
    method RefreshTaskOwnership(taskId: string, owner: string, lockTtl: int, heartbeatTtl: int, timestamp: real)
      returns (renewed: bool)
      modifies this
      ensures store == Step(old(store), Refresh(taskId, owner, lockTtl, heartbeatTtl, timestamp))
      ensures renewed <==> HoldsLock(old(store), taskId, owner)
      ensures !renewed ==> store == old(store)
      ensures renewed ==>
                && LockKey(taskId) in store && store[LockKey(taskId)] == Plain(owner, lockTtl)
                && HeartbeatKey(taskId) in store && store[HeartbeatKey(taskId)] == Beat(owner, timestamp, heartbeatTtl)
                && store - {LockKey(taskId), HeartbeatKey(taskId)} == old(store) - {LockKey(taskId), HeartbeatKey(taskId)}
    {
      KeysAreDistinct(taskId, taskId);
      var lock := LockKey(taskId);
      if lock !in store || !store[lock].Plain? || store[lock].text != owner {
        return false;
      }
      store := store[lock := Plain(owner, lockTtl)];
      store := store[HeartbeatKey(taskId) := Beat(owner, timestamp, heartbeatTtl)];
      renewed := true;
    }

    /** The release script: each key goes only if it is this owner's. */
    method ReleaseTaskOwnership(taskId: string, owner: string)
      modifies this
      ensures store == Step(old(store), Release(taskId, owner))
      ensures !HoldsLock(store, taskId, owner) && !Beats(store, taskId, owner)
      ensures store - {LockKey(taskId), HeartbeatKey(taskId)} == old(store) - {LockKey(taskId), HeartbeatKey(taskId)}
      ensures !HoldsLock(old(store), taskId, owner) && LockKey(taskId) in old(store) ==>
                LockKey(taskId) in store && store[LockKey(taskId)] == old(store)[LockKey(taskId)]
      ensures !Beats(old(store), taskId, owner) && HeartbeatKey(taskId) in old(store) ==>
                HeartbeatKey(taskId) in store && store[HeartbeatKey(taskId)] == old(store)[HeartbeatKey(taskId)]
    {
      KeysAreDistinct(taskId, taskId);
      var lock, heartbeat := LockKey(taskId), HeartbeatKey(taskId);
      if lock in store && store[lock].Plain? && store[lock].text == owner {
        store := store - {lock};
      }
      if heartbeat in store && store[heartbeat].Beat? && store[heartbeat].owner == owner {
        store := store - {heartbeat};
      }
    }
  }

  // ----- Runs -----

  function Steps(store: Store, commands: seq<Command>): Store {
    if commands == [] then store else Step(Steps(store, commands[..|commands| - 1]), commands[|commands| - 1])
  }

  /** A command another worker sends, or the expiry of some other key. */
  predicate IsForeign(command: Command, taskId: string, owner: string) {
    match command
    case Expiry(key) => key != LockKey(taskId) && key != HeartbeatKey(taskId)
    case _ => command.owner != owner
  }

  lemma ForeignStepLeavesLease(store: Store, command: Command, taskId: string, owner: string)
    requires HoldsLock(store, taskId, owner) && IsForeign(command, taskId, owner)
    ensures HoldsLock(Step(store, command), taskId, owner)
    ensures Step(store, command)[LockKey(taskId)] == store[LockKey(taskId)]
    ensures Beats(store, taskId, owner) ==>
              Beats(Step(store, command), taskId, owner)
              && Step(store, command)[HeartbeatKey(taskId)] == store[HeartbeatKey(taskId)]
  {
    hide LockKey, HeartbeatKey;
    KeysAreDistinct(taskId, taskId);
    match command {
      case Expiry(_) =>
      case _ =>
        KeysAreDistinct(taskId, command.taskId);
        KeysAreDistinct(command.taskId, taskId);
    }
  }

  /** Whatever other workers send, in any order, for any task: until its keys expire, a held lease
      stays held, with the very lifetimes its owner last gave it. */
  lemma {:induction false} LeaseSurvivesOthers(store: Store, commands: seq<Command>, taskId: string, owner: string)
    requires HoldsLock(store, taskId, owner)
    requires forall command <- commands :: IsForeign(command, taskId, owner)
    ensures HoldsLock(Steps(store, commands), taskId, owner)
    ensures Steps(store, commands)[LockKey(taskId)] == store[LockKey(taskId)]
    ensures Beats(store, taskId, owner) ==>
              Beats(Steps(store, commands), taskId, owner)
              && Steps(store, commands)[HeartbeatKey(taskId)] == store[HeartbeatKey(taskId)]
  {
    hide LockKey, HeartbeatKey, IsForeign, HoldsLock, Step;
    if commands != [] {
      var earlier := commands[..|commands| - 1];
      LeaseSurvivesOthers(store, earlier, taskId, owner);
      ForeignStepLeavesLease(Steps(store, earlier), commands[|commands| - 1], taskId, owner);
    }
  }

  /** Once a lease is lost its owner can only get it back by acquiring a free lock: refreshing and
      releasing change no lock or heartbeat that is not the sender's own. */
  lemma LostLeaseTouchesNothing(store: Store, command: Command)
    requires command.Refresh? || command.Release?
    requires !HoldsLock(store, command.taskId, command.owner) && !Beats(store, command.taskId, command.owner)
    ensures Step(store, command) == store
  {
  }

  /** A heartbeat is only ever written by whoever holds the lock at that moment. */
  lemma HeartbeatNeedsLock(store: Store, command: Command, taskId: string, owner: string)
    requires Beats(Step(store, command), taskId, owner)
    ensures || (Beats(store, taskId, owner) && Step(store, command)[HeartbeatKey(taskId)] == store[HeartbeatKey(taskId)])
            || (HoldsLock(store, taskId, owner) && HoldsLock(Step(store, command), taskId, owner))
  {
    hide LockKey, HeartbeatKey;
    match command {
      case Expiry(_) =>
      case _ =>
        KeysAreDistinct(taskId, command.taskId);
        KeysAreDistinct(command.taskId, taskId);
    }
  }
}
