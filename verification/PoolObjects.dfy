/** The pool as the program holds it: maps of runtime objects and timers, changed in place
    (connector-support/acp/runtime_pool.go). A method with several critical sections is specified
    for a run without interference between them; the protocol of PoolSteps covers interference. */
module PoolObjects {
  import opened Options
  import opened PoolState
  import opened PoolRuntime

  datatype StaleKillTimer = StaleKillTimer(epoch: nat, rt: SubprocessRuntime)

  /** A released slot of a bounded pool leaves when it has nothing to own. */
  predicate Leaves(cfg: Config, freed: Slot) {
    cfg.maxRuntimes > 0 && Removable(freed)
  }

  /** A released slot that keeps its process gets a stale-kill timer. */
  predicate Arms(cfg: Config, freed: Slot) {
    cfg.staleKill && Armable(freed, freed.epoch)
  }

  function Pruned(cfg: Config, freed: Slot): Slot {
    freed.(deleted := freed.deleted || Leaves(cfg, freed))
  }

  function Settled(cfg: Config, freed: Slot): Slot {
    Pruned(cfg, freed).(epoch := if Arms(cfg, freed) then freed.epoch + 1 else freed.epoch)
  }

  lemma PrunedArms(cfg: Config, freed: Slot)
    ensures Armable(Pruned(cfg, freed), freed.epoch) == Armable(freed, freed.epoch)
    ensures Leaves(cfg, freed) ==> !Arms(cfg, freed)
  {
  }

  class RuntimePool {
    const cfg: Config
    var pools: map<RuntimeKey, SubprocessRuntime>
    var retirements: set<SubprocessRuntime>
    var staleKillTimers: map<RuntimeKey, StaleKillTimer>

    constructor (cfg: Config)
      ensures this.cfg == cfg && pools == map[] && retirements == {} && staleKillTimers == map[]
    {
      this.cfg := cfg;
      pools, retirements, staleKillTimers := map[], {}, map[];
    }

    /** The slot of a key, created if the key has none. */
    method Resolve(key: RuntimeKey, id: SlotId) returns (rt: SubprocessRuntime)
      modifies this`pools
      ensures key in old(pools) ==> rt == old(pools)[key] && pools == old(pools)
      ensures key !in old(pools) ==>
                fresh(rt) && rt.id == id && rt.Value() == NewSlot(key) && pools == old(pools)[key := rt]
    {
      if key in pools {
        return pools[key];
      }
      rt := new SubprocessRuntime(id, key, true, None);
      pools := pools[key := rt];
    }

    /** A refused child gets an owner of its own. */
    method RetireUnpublished(key: RuntimeKey, id: SlotId, c: Child) returns (rt: SubprocessRuntime)
      modifies this`retirements
      ensures fresh(rt) && rt.id == id && rt.Value() == UnpublishedSlot(key, c)
      ensures retirements == old(retirements) + {rt}
    {
      rt := new SubprocessRuntime(id, key, false, Some(c));
      retirements := retirements + {rt};
    }

    /** The claim supersedes the runtime's stale-kill timer. */
    method TryClaimForTurn(rt: SubprocessRuntime, ghost t: TurnId) returns (claimed: bool)
      modifies this`staleKillTimers, rt
      ensures claimed <==> Claimable(old(rt.Value()))
      ensures rt.Value() == if claimed then ClaimedSlot(old(rt.Value()), t) else old(rt.Value())
      ensures staleKillTimers == if claimed then old(staleKillTimers) - {rt.key} else old(staleKillTimers)
      ensures claimed ==> old(rt.retiring).None? && !old(rt.inUse) && !old(rt.quarantined) && !old(rt.deleted)
      ensures claimed ==> rt.inUse && rt.staleEpoch == old(rt.staleEpoch) + 1 && rt.proc == old(rt.proc)
    {
      claimed := rt.TryClaim(t);
      if claimed {
        staleKillTimers := staleKillTimers - {rt.key};
      }
    }

    /** scheduleStaleKill: only the release that still owns the canonical slot's generation arms a
        timer, and what it arms carries the new generation. */
    method ScheduleStaleKill(key: RuntimeKey, owner: SubprocessRuntime, token: nat) returns (armed: bool)
      modifies this`staleKillTimers, owner`staleEpoch
      ensures armed <==> key in pools && pools[key] == owner && Armable(old(owner.Value()), token)
      ensures armed ==> staleKillTimers == old(staleKillTimers)[key := StaleKillTimer(owner.staleEpoch, owner)]
      ensures !armed ==> staleKillTimers == old(staleKillTimers)
      ensures owner.Value() == old(owner.Value()).(epoch := if armed then token + 1 else old(owner.staleEpoch))
    {
      if key !in pools || pools[key] != owner {
        return false;
      }
      armed := owner.TryArm(token);
      if armed {
        staleKillTimers := staleKillTimers[key := StaleKillTimer(owner.staleEpoch, owner)];
      }
    }

    /** disarmStaleKill: a timer of another epoch or runtime stays armed. */
    method DisarmStaleKill(key: RuntimeKey, rt: SubprocessRuntime, epoch: nat)
      modifies this`staleKillTimers
      ensures staleKillTimers ==
              if key in old(staleKillTimers) && old(staleKillTimers)[key] == StaleKillTimer(epoch, rt)
              then old(staleKillTimers) - {key} else old(staleKillTimers)
    {
      if key in staleKillTimers && staleKillTimers[key].epoch == epoch && staleKillTimers[key].rt == rt {
        staleKillTimers := staleKillTimers - {key};
      }
    }

    /** retireStaleRuntime: the callback of (runtime, epoch). */
    method RetireStaleRuntime(key: RuntimeKey, armed: SubprocessRuntime, epoch: nat) returns (retired: bool)
      modifies this`staleKillTimers, armed
      ensures retired <==> key in pools && pools[key] == armed && Reservable(old(armed.Value()), epoch)
      ensures armed.Value() == if retired then Detached(old(armed.Value())) else old(armed.Value())
      ensures key in staleKillTimers ==> staleKillTimers[key] != StaleKillTimer(epoch, armed)
      ensures forall k ::
                k in old(staleKillTimers) && (k != key || old(staleKillTimers)[k] != StaleKillTimer(epoch, armed)) ==>
                k in staleKillTimers && staleKillTimers[k] == old(staleKillTimers)[k]
    {
      if key !in pools || pools[key] != armed {
        DisarmStaleKill(key, armed, epoch);
        return false;
      }
      retired := armed.TryReserve(epoch);
      DisarmStaleKill(key, armed, epoch);
    }

    /** removeRetiredSlot: a slot that may still hold a process, or is claimed, keeps its place. */
    method RemoveRetiredSlot(rt: SubprocessRuntime) returns (removed: bool)
      modifies this`pools, rt`deleted
      ensures removed <==> Removable(old(rt.Value()))
      ensures rt.Value() == old(rt.Value()).(deleted := removed || old(rt.deleted))
      ensures pools ==
              if removed && rt.key in old(pools) && old(pools)[rt.key] == rt then old(pools) - {rt.key} else old(pools)
    {
      if rt.inUse || rt.spawning || rt.quarantined || rt.proc.Some? || rt.retiring.Some? || rt.CleanupOutcome() {
        return false;
      }
      rt.deleted := true;
      if rt.key in pools && pools[rt.key] == rt {
        pools := pools - {rt.key};
      }
      return true;
    }

    /** Release, run without interference: the claim ends, an empty slot of a bounded pool leaves,
        and with stale kills enabled a slot that keeps its live process is covered by a timer of
        its current generation; nothing else of the timers changes. */
    method Release(key: RuntimeKey, now: int)
      requires key in pools ==> pools[key].key == key
      modifies this`pools, this`staleKillTimers, if key in pools then {pools[key]} else {}
      ensures key !in old(pools) ==> pools == old(pools) && staleKillTimers == old(staleKillTimers)
      ensures key in old(pools) ==>
                var rt := old(pools)[key];
                var freed := ReleasedSlot(old(pools[key].Value()));
                && rt.Value() == Settled(cfg, freed)
                && pools == (if Leaves(cfg, freed) then old(pools) - {key} else old(pools))
                && staleKillTimers ==
                   if Arms(cfg, freed) then old(staleKillTimers)[key := StaleKillTimer(rt.staleEpoch, rt)]
                   else old(staleKillTimers)
    {
      if key !in pools {
        return;
      }
      var rt := pools[key];
      var token := rt.EndClaim(now);
      ghost var freed := rt.Value();
      assert freed == ReleasedSlot(old(pools[key].Value()));
      Prune(key, rt);
      PrunedArms(cfg, freed);
      Rearm(key, rt, token);
    }

    method Prune(key: RuntimeKey, rt: SubprocessRuntime)
      requires key in pools && pools[key] == rt && rt.key == key
      modifies this`pools, rt`deleted
      ensures var freed := old(rt.Value());
              && rt.Value() == Pruned(cfg, freed)
              && pools == if Leaves(cfg, freed) then old(pools) - {key} else old(pools)
    {
      if cfg.maxRuntimes > 0 {
        var _ := RemoveRetiredSlot(rt);
      }
    }

    method Rearm(key: RuntimeKey, rt: SubprocessRuntime, token: nat)
      requires token == rt.staleEpoch
      modifies this`staleKillTimers, rt`staleEpoch
      ensures var armed := cfg.staleKill && key in pools && pools[key] == rt && Armable(old(rt.Value()), token);
              && rt.Value() == old(rt.Value()).(epoch := if armed then token + 1 else token)
              && staleKillTimers ==
                 if armed then old(staleKillTimers)[key := StaleKillTimer(rt.staleEpoch, rt)] else old(staleKillTimers)
    {
      if cfg.staleKill {
        var _ := ScheduleStaleKill(key, rt, token);
      }
    }

    /** tryReapIdle: the timer of a reaped runtime is cancelled. */
    method TryReapIdle(rt: SubprocessRuntime, expired: bool) returns (reaped: bool)
      modifies this`staleKillTimers, rt
      ensures reaped <==> Reapable(old(rt.Value())) && expired
      ensures rt.Value() == if reaped then Detached(old(rt.Value())) else old(rt.Value())
      ensures staleKillTimers == if reaped then old(staleKillTimers) - {rt.key} else old(staleKillTimers)
    {
      reaped := rt.TryReap(expired);
      if reaped {
        staleKillTimers := staleKillTimers - {rt.key};
      }
    }

    // ----- Capacity -----

    ghost function LiveKeys(keys: set<RuntimeKey>): set<RuntimeKey>
      requires keys <= pools.Keys
      reads this, pools.Values
    {
      set k | k in keys && MayBeLive(pools[k].Value())
    }

    ghost function LiveRetirements(rts: set<SubprocessRuntime>): set<SubprocessRuntime>
      reads rts
    {
      set rt | rt in rts && MayBeLive(rt.Value())
    }

    /** liveProcessCount: slots and owners of refused children that may still hold a process. */
    method LiveProcessCount() returns (count: nat)
      ensures count == |LiveKeys(pools.Keys)| + |LiveRetirements(retirements)|
    {
      count := 0;
      var keys := pools.Keys;
      while keys != {}
        invariant keys <= pools.Keys
        invariant count + |LiveKeys(keys)| == |LiveKeys(pools.Keys)|
      {
        var k :| k in keys;
        if pools[k].Live() {
          count := count + 1;
          assert LiveKeys(keys) == LiveKeys(keys - {k}) + {k};
        } else {
          assert LiveKeys(keys) == LiveKeys(keys - {k});
        }
        keys := keys - {k};
      }
      var rest := retirements;
      while rest != {}
        invariant rest <= retirements
        invariant count + |LiveRetirements(rest)| == |LiveKeys(pools.Keys)| + |LiveRetirements(retirements)|
      {
        var rt :| rt in rest;
        if rt.Live() {
          count := count + 1;
          assert LiveRetirements(rest) == LiveRetirements(rest - {rt}) + {rt};
        } else {
          assert LiveRetirements(rest) == LiveRetirements(rest - {rt});
        }
        rest := rest - {rt};
      }
    }

    /** Candidate slots for eviction, least recently used first. */
    ghost predicate Ordered(candidates: seq<RuntimeKey>)
      reads this, pools.Values
    {
      && (forall i :: 0 <= i < |candidates| ==> candidates[i] in pools)
      && (forall i, j :: 0 <= i < j < |candidates| ==>
            pools[candidates[i]].lastActivity <= pools[candidates[j]].lastActivity)
    }

    method Insert(candidates: seq<RuntimeKey>, k: RuntimeKey) returns (out: seq<RuntimeKey>)
      requires Ordered(candidates) && k in pools
      ensures Ordered(out) && forall x :: x in out <==> x in candidates || x == k
    {
      var i := 0;
      while i < |candidates| && pools[candidates[i]].lastActivity <= pools[k].lastActivity
        invariant i <= |candidates|
        invariant forall j :: 0 <= j < i ==> pools[candidates[j]].lastActivity <= pools[k].lastActivity
      {
        i := i + 1;
      }
      out := candidates[..i] + [k] + candidates[i..];
    }

    method Candidates(keep: RuntimeKey) returns (candidates: seq<RuntimeKey>)
      ensures Ordered(candidates) && forall k :: k in candidates <==> k in pools && k != keep
    {
      candidates := [];
      var keys := pools.Keys - {keep};
      while keys != {}
        invariant keys <= pools.Keys - {keep} && Ordered(candidates)
        invariant forall k :: k in candidates <==> k in pools && k != keep && k !in keys
      {
        var k :| k in keys;
        candidates := Insert(candidates, k);
        keys := keys - {k};
      }
    }

    /** reserveIdleVictim: the least recently used slot that may be evicted, other than `keep`,
        loses its process; with none, nothing changes. */
    method ReserveIdleVictim(keep: RuntimeKey) returns (victim: Option<RuntimeKey>)
      requires forall j, k :: j in pools && k in pools && pools[j] == pools[k] ==> j == k
      modifies pools.Values
      ensures victim.None? ==> forall k :: k in pools && k != keep ==> !Evictable(old(pools[k].Value()))
      ensures victim.Some? ==>
                var v := victim.value;
                && v in pools && v != keep && Evictable(old(pools[v].Value()))
                && pools[v].Value() == Detached(old(pools[v].Value()))
                && (forall k :: k in pools && k != keep && Evictable(old(pools[k].Value())) ==>
                      old(pools[v].lastActivity) <= old(pools[k].lastActivity))
      ensures forall k :: k in pools && Some(k) != victim ==> pools[k].Value() == old(pools[k].Value())
    {
      var candidates := Candidates(keep);
      var i := TryCandidates(candidates);
      return if i < |candidates| then Some(candidates[i]) else None;
    }

    /** Takes the process of the first candidate that may be evicted. */
    method TryCandidates(candidates: seq<RuntimeKey>) returns (i: nat)
      requires forall j, k :: j in pools && k in pools && pools[j] == pools[k] ==> j == k
      requires forall k :: k in candidates ==> k in pools
      modifies pools.Values
      ensures i <= |candidates| && forall j :: 0 <= j < i ==> !Evictable(old(pools[candidates[j]].Value()))
      ensures i < |candidates| ==>
                Evictable(old(pools[candidates[i]].Value())) &&
                pools[candidates[i]].Value() == Detached(old(pools[candidates[i]].Value()))
      ensures forall k :: k in pools && (i < |candidates| ==> k != candidates[i]) ==>
                pools[k].Value() == old(pools[k].Value())
    {
      i := 0;
      while i < |candidates|
        invariant i <= |candidates| && forall j :: 0 <= j < i ==> !Evictable(old(pools[candidates[j]].Value()))
        invariant forall k :: k in pools ==> pools[k].Value() == old(pools[k].Value())
      {
        var evicted := pools[candidates[i]].TryEvict();
        if evicted {
          return;
        }
        i := i + 1;
      }
    }
  }
}
