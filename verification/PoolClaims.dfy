/** Steps that take a claim, release it, or give up a refused child. */
module PoolClaims {
  import opened Options
  import opened PoolState
  import opened PoolSteps
  import opened PoolInv
  import opened PoolLocal
  import opened PoolHeld
  import opened PoolEnv

  // ----- Claims -----

  /** A turn without a claim moves on without one. */
  lemma UnheldSafe(cfg: Config, st: State, t: TurnId, phase: Phase)
    requires Safe(cfg, st) && t in st.turns && !st.turns[t].phase.Held? && !phase.Held?
    requires phase.Resolved? ==>
               phase.slot in st.slots && st.slots[phase.slot].published && st.slots[phase.slot].key == st.turns[t].key
    ensures Safe(cfg, SetPhase(st, t, phase))
  {
    var st' := SetPhase(st, t, phase);
    UnheldLinks(cfg, st, t, phase);
    ClockFrame(cfg, st, st');
    assert forall x, c :: SpawnedChild(st, x, c) ==> SpawnedChild(st', x, c);
    UnheldCore(st, t, phase);
  }

  lemma UnheldLinks(cfg: Config, st: State, t: TurnId, phase: Phase)
    requires Links(cfg, st) && Stages(st) && t in st.turns && !st.turns[t].phase.Held? && !phase.Held?
    requires phase.Resolved? ==>
               phase.slot in st.slots && st.slots[phase.slot].published && st.slots[phase.slot].key == st.turns[t].key
    ensures Links(cfg, SetPhase(st, t, phase)) && Stages(SetPhase(st, t, phase))
  {
    var st' := SetPhase(st, t, phase);
    forall x | x in st'.turns ensures TurnLinked(cfg, st', x) && TurnStaged(st', x) {
      assert TurnLinked(cfg, st, x) && TurnStaged(st, x);
    }
    forall x | x in st'.slots ensures SlotLinked(st', x) { assert SlotLinked(st, x); }
  }

  lemma UnheldCore(st: State, t: TurnId, phase: Phase)
    requires Owners(st) && Logs(st) && t in st.turns && !st.turns[t].phase.Held?
    ensures Owners(SetPhase(st, t, phase)) && Logs(SetPhase(st, t, phase))
  {
  }

  lemma ClaimsLinks(cfg: Config, st: State, t: TurnId, s: SlotId)
    requires Links(cfg, st) && t in st.turns && st.turns[t].phase == Resolved(s)
    requires s in st.slots && Claimable(st.slots[s])
    ensures Links(cfg, TakeClaim(st, t, s))
  {
    var st' := TakeClaim(st, t, s);
    assert TurnLinked(cfg, st, t) && SlotOk(st.slots[s]);
    forall x | x in st'.turns ensures TurnLinked(cfg, st', x) { ClaimsTurnLinks(cfg, st, t, s, x); }
    forall x | x in st'.slots ensures SlotLinked(st', x) { ClaimsSlotLinks(st, t, s, x); }
  }

  lemma ClaimsTurnLinks(cfg: Config, st: State, t: TurnId, s: SlotId, x: TurnId)
    requires t in st.turns && st.turns[t].phase == Resolved(s) && s in st.slots && Claimable(st.slots[s])
    requires SlotOk(st.slots[s]) && TurnLinked(cfg, st, t) && x in st.turns && TurnLinked(cfg, st, x)
    ensures TurnLinked(cfg, TakeClaim(st, t, s), x)
  {
  }

  lemma ClaimsSlotLinks(st: State, t: TurnId, s: SlotId, x: SlotId)
    requires t in st.turns && st.turns[t].phase == Resolved(s) && s in st.slots && x in st.slots && SlotLinked(st, x)
    ensures SlotLinked(TakeClaim(st, t, s), x)
  {
  }

  lemma ClaimsCore(st: State, t: TurnId, s: SlotId)
    requires Owners(st) && Logs(st) && t in st.turns && !st.turns[t].phase.Held? && s in st.slots
    ensures Owners(TakeClaim(st, t, s)) && Logs(TakeClaim(st, t, s))
  {
    var st' := TakeClaim(st, t, s);
    OwnerFrame(st, st', s);
    LogFrame(st, st', s);
  }

  lemma ClaimsStages(cfg: Config, st: State, t: TurnId, s: SlotId)
    requires Links(cfg, st) && Stages(st) && t in st.turns && !st.turns[t].phase.Held?
    requires s in st.slots && Claimable(st.slots[s])
    ensures Stages(TakeClaim(st, t, s))
  {
    var st' := TakeClaim(st, t, s);
    assert SlotOk(st.slots[s]);
    forall x | x in st'.turns ensures TurnStaged(st', x) {
      if x != t { assert TurnStaged(st, x) && TurnLinked(cfg, st, x); }
    }
  }

  lemma ClaimCovered(cfg: Config, st: State, t: TurnId, s: SlotId, x: SlotId)
    requires t in st.turns && s in st.slots && Claimable(st.slots[s]) && Canonical(st, s)
    requires st.slots[s].key == st.turns[t].key
    requires x in st.slots && SlotCovered(cfg, st, x) && SlotOk(st.slots[x]) && SlotLinked(st, x)
    ensures SlotCovered(cfg, TakeClaim(st, t, s), x)
  {
  }

  lemma ClaimsArmed(cfg: Config, st: State, t: TurnId, s: SlotId)
    requires Timers(cfg, st) && t in st.turns && s in st.slots
    ensures var st' := TakeClaim(st, t, s);
            && (forall k :: k in st'.timers ==> TimerOk(st', k))
            && (forall cb :: cb in st'.callbacks ==> CallbackOk(st', cb))
            && (forall p :: p in st'.schedules ==> ScheduleOk(st', p))
  {
  }

  lemma ClaimSafe(cfg: Config, st: State, t: TurnId, s: SlotId)
    requires Safe(cfg, st) && t in st.turns && st.turns[t].phase == Resolved(s)
    requires s in st.slots && Claimable(st.slots[s])
    ensures Safe(cfg, TakeClaim(st, t, s))
  {
    assert TurnLinked(cfg, st, t) && SlotLinked(st, s);
    ClaimsLinks(cfg, st, t, s);
    ClaimsCore(st, t, s);
    ClaimsStages(cfg, st, t, s);
    ClaimsArmed(cfg, st, t, s);
    forall x | x in st.slots ensures SlotCovered(cfg, TakeClaim(st, t, s), x) { ClaimCovered(cfg, st, t, s, x); }
  }

  // ----- Release -----

  /** The claim ends on the slot the key resolves to, which is the held one. */
  function Freed(cfg: Config, st: State, t: TurnId, s: SlotId): State
    requires t in st.turns && s in st.slots
  {
    ReleaseSlot(cfg, SetPhase(st, t, Done), st.turns[t].key, s)
  }

  lemma FreesLinks(cfg: Config, st: State, t: TurnId, s: SlotId)
    requires Links(cfg, st) && HeldBy(st, t, s) && s in st.slots && st.turns[t].phase.stage.Releasing?
    requires NotSpawning(st.slots[s])
    ensures Links(cfg, Freed(cfg, st, t, s))
  {
    var st' := Freed(cfg, st, t, s);
    assert TurnLinked(cfg, st, t) && SlotOk(st.slots[s]) && SlotLinked(st, s);
    forall x | x in st'.turns ensures TurnLinked(cfg, st', x) { assert TurnLinked(cfg, st, x); }
    forall x | x in st'.slots ensures SlotLinked(st', x) { assert SlotLinked(st, x); }
  }

  lemma FreesCore(cfg: Config, st: State, t: TurnId, s: SlotId)
    requires Owners(st) && Logs(st) && HeldBy(st, t, s) && s in st.slots && st.turns[t].phase.stage.Releasing?
    ensures Owners(Freed(cfg, st, t, s)) && Logs(Freed(cfg, st, t, s))
  {
    OwnerFrame(st, Freed(cfg, st, t, s), s);
    LogFrame(st, Freed(cfg, st, t, s), s);
  }

  lemma FreesStages(cfg: Config, st: State, t: TurnId, s: SlotId)
    requires Stages(st) && t in st.turns && s in st.slots
    ensures Stages(Freed(cfg, st, t, s))
  {
    var st' := Freed(cfg, st, t, s);
    forall x | x in st'.turns ensures TurnStaged(st', x) {
      if x != t { assert TurnStaged(st, x); }
    }
  }

  lemma FreesClock(cfg: Config, st: State, t: TurnId, s: SlotId)
    requires Timers(cfg, st) && t in st.turns && s in st.slots
    requires st.slots[s].key == st.turns[t].key && st.slots[s].inUse
    ensures Timers(cfg, Freed(cfg, st, t, s))
  {
  }

  lemma FreeSafe(cfg: Config, st: State, t: TurnId)
    requires Safe(cfg, st) && CloseEnabled(st, t, Release)
    ensures Safe(cfg, CloseApply(cfg, st, t, Release))
  {
    var s := st.turns[t].phase.slot;
    HereHolds(cfg, st, t);
    FreesLinks(cfg, st, t, s);
    FreesCore(cfg, st, t, s);
    FreesStages(cfg, st, t, s);
    FreesClock(cfg, st, t, s);
    assert CloseApply(cfg, st, t, Release) == Freed(cfg, st, t, s);
  }

  // ----- A refused child gets its own owner -----

  function Refused(st: State, t: TurnId, owner: SlotId): State
    requires t in st.turns && st.turns[t].phase.Held? && st.turns[t].phase.stage.Spawned?
  {
    var turn := st.turns[t];
    var c := turn.phase.stage.child;
    Move(SetStage(SetSlot(st, owner, UnpublishedSlot(turn.key, c)), t, Unwinding), c, Retiring(owner))
    .(retirements := st.retirements + {owner})
  }

  lemma RefusesTurnLinks(cfg: Config, st: State, t: TurnId, owner: SlotId, x: TurnId)
    requires SpawnEnabled(st, t, Refuse(owner)) && x in st.turns && TurnLinked(cfg, st, x)
    ensures TurnLinked(cfg, Refused(st, t, owner), x)
  {
  }

  lemma RefusesSlotLinks(st: State, t: TurnId, owner: SlotId, x: SlotId)
    requires SpawnEnabled(st, t, Refuse(owner))
    requires x in st.slots ==> SlotLinked(st, x)
    requires x in st.slots || x == owner
    ensures SlotLinked(Refused(st, t, owner), x)
  {
  }

  lemma RefusesLinks(cfg: Config, st: State, t: TurnId, owner: SlotId)
    requires Links(cfg, st) && SpawnEnabled(st, t, Refuse(owner))
    ensures Links(cfg, Refused(st, t, owner))
  {
    var st' := Refused(st, t, owner);
    forall x | x in st'.turns ensures TurnLinked(cfg, st', x) { RefusesTurnLinks(cfg, st, t, owner, x); }
    forall x | x in st'.slots ensures SlotLinked(st', x) && SlotOk(st'.slots[x]) {
      RefusesSlotLinks(st, t, owner, x);
      assert x != owner ==> SlotOk(st.slots[x]);
    }
    RefusesKeyLinks(cfg, st, t, owner);
  }

  lemma RefusesKeyLinks(cfg: Config, st: State, t: TurnId, owner: SlotId)
    requires Links(cfg, st) && SpawnEnabled(st, t, Refuse(owner))
    ensures var st' := Refused(st, t, owner);
            && (forall k :: k in st'.pools ==> KeyLinked(st', k))
            && (forall x :: x in st'.retirements ==> RetirementLinked(st', x))
  {
    var st' := Refused(st, t, owner);
    forall k | k in st'.pools ensures KeyLinked(st', k) { assert KeyLinked(st, k); }
    forall x | x in st'.retirements ensures RetirementLinked(st', x) {
      assert x != owner ==> RetirementLinked(st, x);
    }
  }

  lemma RefusesOwners(cfg: Config, st: State, t: TurnId, owner: SlotId)
    requires Owners(st) && SpawnEnabled(st, t, Refuse(owner)) && TurnStaged(st, t)
    ensures Owners(Refused(st, t, owner))
  {
    var st' := Refused(st, t, owner);
    var c := st.turns[t].phase.stage.child;
    forall x | x in st'.slots ensures SlotOwns(st', x) {
      if x != owner { assert SlotOwns(st, x); }
    }
    forall x | x in st'.children ensures ChildPlaced(st', x) {
      if x != c { assert ChildPlaced(st, x); }
    }
  }

  lemma RefusesLogs(st: State, t: TurnId, owner: SlotId)
    requires Logs(st) && SpawnEnabled(st, t, Refuse(owner))
    ensures Logs(Refused(st, t, owner))
  {
    var st' := Refused(st, t, owner);
    forall x | x in st'.slots ensures SlotMarked(st', x) {
      if x != owner { assert SlotMarked(st, x); }
    }
  }

  lemma RefusesStaged(cfg: Config, st: State, t: TurnId, owner: SlotId, x: TurnId)
    requires SpawnEnabled(st, t, Refuse(owner)) && TurnStaged(st, t)
    requires x in st.turns && TurnLinked(cfg, st, x) && TurnStaged(st, x)
    requires st.turns[x].phase.Held? ==> SlotOwns(st, st.turns[x].phase.slot)
    ensures TurnStaged(Refused(st, t, owner), x)
  {
    var st' := Refused(st, t, owner);
    if x == t {
      assert st'.turns[t].phase.stage.Unwinding?;
    } else if st.turns[x].phase.Held? {
      var y := st.turns[x].phase.slot;
      RefusesChildren(st, t, owner, x, y);
      StageFrame(st.children, st'.children, x, st.turns[x], st.slots[y], y);
    }
  }

  /** Only the refused child moves, and it belonged to the refused leader. */
  lemma RefusesChildren(st: State, t: TurnId, owner: SlotId, x: TurnId, y: SlotId)
    requires SpawnEnabled(st, t, Refuse(owner)) && TurnStaged(st, t) && x != t
    ensures var cs, cs' := st.children, Refused(st, t, owner).children;
            && (forall d :: d in cs ==> d in cs')
            && (forall d :: d in cs && (cs[d].where == Live(y) || cs[d].where == WithLeader(x)) ==> cs'[d] == cs[d])
  {
  }

  lemma RefusesStages(cfg: Config, st: State, t: TurnId, owner: SlotId)
    requires Links(cfg, st) && Owners(st) && Stages(st) && SpawnEnabled(st, t, Refuse(owner))
    ensures Stages(Refused(st, t, owner))
  {
    forall x | x in st.turns ensures TurnStaged(Refused(st, t, owner), x) { RefusesStaged(cfg, st, t, owner, x); }
  }

  lemma RefusesClock(cfg: Config, st: State, t: TurnId, owner: SlotId)
    requires Timers(cfg, st) && SpawnEnabled(st, t, Refuse(owner))
    ensures Timers(cfg, Refused(st, t, owner))
  {
  }

  lemma RefuseSafe(cfg: Config, st: State, t: TurnId, owner: SlotId)
    requires Safe(cfg, st) && SpawnEnabled(st, t, Refuse(owner))
    ensures Safe(cfg, SpawnApply(st, t, Refuse(owner)))
  {
    assert TurnStaged(st, t);
    RefusesLinks(cfg, st, t, owner);
    RefusesOwners(cfg, st, t, owner);
    RefusesLogs(st, t, owner);
    RefusesStages(cfg, st, t, owner);
    RefusesClock(cfg, st, t, owner);
    assert SpawnApply(st, t, Refuse(owner)) == Refused(st, t, owner);
  }
}
