/** One runtime slot as the object the program changes under the runtime lock
    (connector-support/acp/runtime_pool.go). Every method is one critical section and is specified
    by the guard and the effect that the protocol's step of the same name uses. */
module PoolRuntime {
  import opened Options
  import opened Transcript
  import opened PoolState

  class SubprocessRuntime {
    const id: SlotId
    const key: RuntimeKey
    ghost const published: bool
    var proc: Option<Child>
    var transportFailed: bool
    var retiring: Option<Child>
    ghost var retiringFailed: bool
    var cleanupErr: bool
    var quarantined: bool
    var failedRetirement: Option<Child>
    var inUse: bool
    var initialized: bool
    var spawning: bool
    var processConfig: string
    var historyState: HistoryState
    var staleEpoch: nat
    var withdrawn: bool
    var deleted: bool
    var lastActivity: int
    ghost var cancelDue: bool
    ghost var holder: Option<TurnId>
    ghost var claims: nat

    constructor (id: SlotId, key: RuntimeKey, ghost published: bool, retiring: Option<Child>)
      ensures this.id == id && this.key == key
      ensures Value() == NewSlot(key).(published := published, retiring := retiring)
    {
      this.id, this.key, this.published := id, key, published;
      proc, transportFailed, this.retiring := None, false, retiring;
      cleanupErr, quarantined, failedRetirement := false, false, None;
      inUse, initialized, spawning := false, false, false;
      processConfig, historyState, staleEpoch := "", Zero, 0;
      withdrawn, deleted, lastActivity := false, false, 0;
      retiringFailed, cancelDue, holder, claims := false, false, None, 0;
    }

    ghost function Value(): Slot
      reads this
    {
      Slot(key, published, proc, transportFailed, retiring, retiringFailed, cancelDue, cleanupErr, quarantined,
           failedRetirement, inUse, holder, initialized, spawning, processConfig, historyState, staleEpoch,
           claims, withdrawn, deleted)
    }

    predicate CleanupOutcome()
      reads this
    {
      cleanupErr || transportFailed
    }

    predicate Live()
      reads this
      ensures Live() == MayBeLive(Value())
    {
      proc.Some? || retiring.Some? || quarantined
    }

    /** tryClaimForTurn. */
    method TryClaim(ghost t: TurnId) returns (claimed: bool)
      modifies this
      ensures claimed <==> Claimable(old(Value()))
      ensures Value() == if claimed then ClaimedSlot(old(Value()), t) else old(Value())
      ensures claimed ==> old(retiring).None? && !old(inUse) && !old(quarantined) && !old(deleted)
      ensures claimed ==> !old(CleanupOutcome()) && inUse && staleEpoch == old(staleEpoch) + 1 && proc == old(proc)
    {
      if deleted || inUse || spawning || retiring.Some? {
        return false;
      }
      if quarantined || CleanupOutcome() {
        return false;
      }
      inUse := true;
      staleEpoch := staleEpoch + 1;
      holder := Some(t);
      claims := claims + 1;
      return true;
    }

    /** The claim of Release; the token is the generation the release owns. */
    method EndClaim(now: int) returns (token: nat)
      modifies this
      ensures Value() == ReleasedSlot(old(Value())) && token == staleEpoch && lastActivity == now
    {
      inUse := false;
      holder := None;
      lastActivity := now;
      token := staleEpoch;
    }

    /** detachRuntimeLocked, and the retiring mark its callers set. */
    method DetachLocked()
      requires proc.Some? && retiring.None?
      modifies this
      ensures Value() == Detached(old(Value())) && lastActivity == old(lastActivity)
    {
      ClearProcess();
      retiringFailed := transportFailed;
      transportFailed := false;
      processConfig := "";
      withdrawn := false;
      historyState := Zero;
    }

    method ClearProcess()
      requires proc.Some? && retiring.None?
      modifies this
      ensures Value() == old(Value()).(proc := None, retiring := old(proc), initialized := false, spawning := false)
      ensures lastActivity == old(lastActivity)
    {
      retiring := proc;
      proc := None;
      initialized, spawning := false, false;
    }

    /** tryReapIdle; `expired` tells that the idle timeout has passed. */
    method TryReap(expired: bool) returns (reaped: bool)
      modifies this
      ensures reaped <==> Reapable(old(Value())) && expired
      ensures Value() == if reaped then Detached(old(Value())) else old(Value())
    {
      if retiring.Some? || inUse || spawning || quarantined || deleted || CleanupOutcome() {
        return false;
      }
      if proc.None? || !expired {
        return false;
      }
      DetachLocked();
      return true;
    }

    /** The reservation of reserveIdleVictim. */
    method TryEvict() returns (evicted: bool)
      modifies this
      ensures evicted <==> Evictable(old(Value()))
      ensures Value() == (if evicted then Detached(old(Value())) else old(Value())) && lastActivity == old(lastActivity)
    {
      if inUse || spawning || proc.None? || retiring.Some? || withdrawn || quarantined || deleted {
        return false;
      }
      DetachLocked();
      return true;
    }

    /** reserveStaleRetirement. */
    method TryReserve(epoch: nat) returns (reserved: bool)
      modifies this
      ensures reserved <==> Reservable(old(Value()), epoch)
      ensures Value() == if reserved then Detached(old(Value())) else old(Value())
    {
      if staleEpoch != epoch {
        return false;
      }
      if retiring.Some? || inUse || quarantined || cleanupErr || proc.None? {
        return false;
      }
      DetachLocked();
      return true;
    }

    /** The generation a release owns is spent when its timer is armed. */
    method TryArm(token: nat) returns (armed: bool)
      modifies this`staleEpoch
      ensures armed <==> Armable(old(Value()), token)
      ensures Value() == old(Value()).(epoch := if armed then token + 1 else old(staleEpoch))
    {
      if staleEpoch != token {
        return false;
      }
      if retiring.Some? || quarantined || proc.None? {
        return false;
      }
      staleEpoch := staleEpoch + 1;
      return true;
    }

    /** The retirement goroutine re-locks the slot. */
    method FinishRetirement(confirmed: bool)
      requires retiring.Some?
      modifies this
      ensures Value() == RetiredSlot(old(Value()), old(retiring.value), confirmed)
    {
      if !confirmed {
        cleanupErr := true;
        quarantined := true;
        failedRetirement := retiring;
      }
      retiring := None;
      retiringFailed := false;
    }

    /** registerProcess. */
    method TryPublish(c: Child, config: string) returns (published: bool)
      modifies this
      ensures published <==> Publishable(old(Value()))
      ensures Value() == if published then Publish(old(Value()), c, config) else old(Value())
    {
      if retiring.Some? || deleted || quarantined || CleanupOutcome() {
        return false;
      }
      proc := Some(c);
      transportFailed := false;
      initialized, spawning := false, true;
      processConfig := config;
      return true;
    }
  }
}
