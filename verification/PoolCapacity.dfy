/** The spawn gate makes the non-atomic process count an upper bound, so no step exceeds
    MaxRuntimes. */
module PoolCapacity {
  import opened Basics
  import opened Options
  import opened PoolState
  import opened PoolSteps
  import opened PoolInv
  import opened PoolLocal

  /** No slot starts to count as live. */
  predicate Shrinks(st: State, st': State) {
    forall s :: s in st'.slots && MayBeLive(st'.slots[s]) ==> s in st.slots && MayBeLive(st.slots[s])
  }

  /** The gate and its holder are left alone. */
  predicate GateKept(st: State, st': State) {
    st'.gate == st.gate &&
    (st.gate.Some? && st.gate.value in st.turns ==>
       st.gate.value in st'.turns && st'.turns[st.gate.value] == st.turns[st.gate.value])
  }

  lemma QuietCapacity(cfg: Config, st: State, st': State)
    requires Capacity(cfg, st) && Shrinks(st, st') && GateKept(st, st')
    ensures Capacity(cfg, st')
  {
    assert LiveSlots(st') <= LiveSlots(st);
    SubsetSize(LiveSlots(st'), LiveSlots(st));
  }

  // ----- Steps outside construction -----

  lemma DetachShrinks(st: State, s: SlotId)
    requires s in st.slots && st.slots[s].proc.Some?
    ensures Shrinks(st, Detach(st, s)) && GateKept(st, Detach(st, s))
  {
  }

  lemma SlotStepShrinks(cfg: Config, st: State, step: SlotStep)
    requires SlotEnabled(cfg, st, step)
    ensures Shrinks(st, SlotApply(cfg, st, step)) && GateKept(st, SlotApply(cfg, st, step))
  {
    match step
    case Reap(s) => DetachShrinks(st, s);
    case Evict(s) => DetachShrinks(st, s);
    case FinishRetirement(s, confirmed) => assert Shrinks(st, Retired(st, s, confirmed));
    case _ =>
  }

  lemma TimerStepShrinks(st: State, step: TimerStep)
    requires TimerEnabled(st, step)
    ensures Shrinks(st, TimerApply(st, step)) && GateKept(st, TimerApply(st, step))
  {
    if step.Reserve? && Reservable(st.slots[step.cb.slot], step.cb.epoch) { DetachShrinks(st, step.cb.slot); }
  }

  /** A turn that does not hold the gate moves on. */
  lemma MovedKeepsGate(st: State, st': State, t: TurnId, st1: State)
    requires Shrinks(st, st1) && GateKept(st, st1) && st.gate != Some(t) && t in st1.turns
    requires st'.slots == st1.slots && st'.gate == st1.gate
    requires t in st'.turns && st'.turns == st1.turns[t := st'.turns[t]]
    ensures Shrinks(st, st') && GateKept(st, st')
  {
  }

  lemma ClaimStepShrinks(cfg: Config, st: State, t: TurnId, step: ClaimStep)
    requires GateOk(cfg, st) && ClaimEnabled(st, t, step)
    ensures Shrinks(st, ClaimApply(st, t, step)) && GateKept(st, ClaimApply(st, t, step))
  {
    if step.DetachForClaim? { ClaimDetachShrinks(cfg, st, t); }
  }

  lemma ClaimDetachShrinks(cfg: Config, st: State, t: TurnId)
    requires GateOk(cfg, st) && ClaimEnabled(st, t, DetachForClaim)
    ensures Shrinks(st, ClaimApply(st, t, DetachForClaim)) && GateKept(st, ClaimApply(st, t, DetachForClaim))
  {
    var s := st.turns[t].phase.slot;
    var st1 := if st.slots[s].retiring.None? && st.slots[s].proc.Some? then Detach(st, s) else st;
    if st.slots[s].proc.Some? { DetachShrinks(st, s); }
    MovedKeepsGate(st, ClaimApply(st, t, DetachForClaim), t, st1);
  }

  lemma KillStepShrinks(cfg: Config, st: State, t: TurnId, step: KillStep)
    requires GateOk(cfg, st) && KillEnabled(st, t, step)
    ensures Shrinks(st, KillApply(st, t, step)) && GateKept(st, KillApply(st, t, step))
  {
    if step.KillLock? { KillLockShrinks(cfg, st, t); }
  }

  lemma KillLockShrinks(cfg: Config, st: State, t: TurnId)
    requires GateOk(cfg, st) && KillEnabled(st, t, KillLock)
    ensures Shrinks(st, KillApply(st, t, KillLock)) && GateKept(st, KillApply(st, t, KillLock))
  {
    var s := st.turns[t].phase.stage.rt;
    var sl := st.slots[s];
    var st1 := if sl.retiring.None? && !sl.cleanupErr && sl.proc.Some? then Detach(st, s) else st;
    if sl.proc.Some? { DetachShrinks(st, s); }
    MovedKeepsGate(st, KillApply(st, t, KillLock), t, st1);
  }

  lemma FlightStepShrinks(cfg: Config, st: State, t: TurnId, step: FlightStep)
    requires GateOk(cfg, st) && FlightEnabled(st, t, step)
    ensures Shrinks(st, FlightApply(st, t, step)) && GateKept(st, FlightApply(st, t, step))
  {
  }

  lemma PlanStepShrinks(cfg: Config, st: State, t: TurnId, step: PlanStep)
    requires GateOk(cfg, st) && PlanEnabled(st, t, step)
    ensures Shrinks(st, PlanApply(st, t, step)) && GateKept(st, PlanApply(st, t, step))
  {
  }

  lemma PromptStepShrinks(cfg: Config, st: State, t: TurnId, step: PromptStep)
    requires GateOk(cfg, st) && PromptEnabled(st, t, step)
    ensures Shrinks(st, PromptApply(st, t, step)) && GateKept(st, PromptApply(st, t, step))
  {
  }

  lemma CloseStepShrinks(cfg: Config, st: State, t: TurnId, step: CloseStep)
    requires GateOk(cfg, st) && CloseEnabled(st, t, step)
    ensures Shrinks(st, CloseApply(cfg, st, t, step)) && GateKept(st, CloseApply(cfg, st, t, step))
  {
    match step
    case CloseClean =>
    case CloseWithdrawn =>
    case DetachTurn => TurnDetachShrinks(cfg, st, t);
    case Release =>
  }

  lemma TurnDetachShrinks(cfg: Config, st: State, t: TurnId)
    requires GateOk(cfg, st) && CloseEnabled(st, t, DetachTurn)
    ensures Shrinks(st, CloseApply(cfg, st, t, DetachTurn)) && GateKept(st, CloseApply(cfg, st, t, DetachTurn))
  {
    var s := st.pools[st.turns[t].key];
    var st1 := if st.slots[s].retiring.None? && st.slots[s].proc.Some? then Detach(st, s) else st;
    if st.slots[s].proc.Some? { DetachShrinks(st, s); }
    MovedKeepsGate(st, CloseApply(cfg, st, t, DetachTurn), t, st1);
  }

  // ----- The gate and the count -----

  /** liveProcessCount's snapshot misses no slot that may hold a process. */
  lemma SnapshotCovers(cfg: Config, st: State)
    requires Links(cfg, st)
    ensures LiveSlots(st) <= Snapshot(st)
  {
    forall s | s in LiveSlots(st) ensures s in Snapshot(st) {
      assert SlotOk(st.slots[s]) && SlotLinked(st, s);
    }
  }

  lemma GateLeavesSlots(cfg: Config, st: State, t: TurnId, step: GateStep)
    requires GateEnabled(cfg, st, t, step)
    ensures LiveSlots(GateApply(cfg, st, t, step)) == LiveSlots(st)
  {
  }

  lemma CountCapacity(cfg: Config, st: State, t: TurnId, step: GateStep)
    requires Links(cfg, st) && Capacity(cfg, st) && GateEnabled(cfg, st, t, step)
    requires step.BeginCount? || step.CountSlot? || step.EndCount?
    ensures Capacity(cfg, GateApply(cfg, st, t, step))
  {
    assert TurnLinked(cfg, st, t);
    GateLeavesSlots(cfg, st, t, step);
    if step.BeginCount? {
      SnapshotCovers(cfg, st);
    } else if step.EndCount? && cfg.maxRuntimes > 0 {
      SubsetSize(LiveSlots(st), st.turns[t].phase.stage.hits);
    }
  }

  lemma GateStepCapacity(cfg: Config, st: State, t: TurnId, step: GateStep)
    requires Links(cfg, st) && Capacity(cfg, st) && GateEnabled(cfg, st, t, step)
    ensures Capacity(cfg, GateApply(cfg, st, t, step))
  {
    if step.BeginCount? || step.CountSlot? || step.EndCount? {
      CountCapacity(cfg, st, t, step);
    } else {
      assert TurnLinked(cfg, st, t);
      assert LiveSlots(GateApply(cfg, st, t, step)) == LiveSlots(st);
    }
  }

  // ----- Registration -----

  lemma RegisterCapacity(cfg: Config, st: State, t: TurnId)
    requires Links(cfg, st) && Capacity(cfg, st) && SpawnEnabled(st, t, Register)
    ensures Capacity(cfg, SpawnApply(st, t, Register))
  {
    var st' := SpawnApply(st, t, Register);
    var s := st.pools[st.turns[t].key];
    assert TurnLinked(cfg, st, t);
    assert LiveSlots(st') <= LiveSlots(st) + {s};
    SubsetSize(LiveSlots(st'), LiveSlots(st) + {s});
  }

  lemma RefuseCapacity(cfg: Config, st: State, t: TurnId, owner: SlotId)
    requires Links(cfg, st) && Capacity(cfg, st) && SpawnEnabled(st, t, Refuse(owner))
    ensures Capacity(cfg, SpawnApply(st, t, Refuse(owner)))
  {
    var st' := SpawnApply(st, t, Refuse(owner));
    assert TurnLinked(cfg, st, t);
    assert LiveSlots(st') <= LiveSlots(st) + {owner};
    SubsetSize(LiveSlots(st'), LiveSlots(st) + {owner});
  }

  lemma SpawnCapacity(cfg: Config, st: State, t: TurnId, c: Child)
    requires Capacity(cfg, st) && SpawnEnabled(st, t, Spawn(c))
    ensures Capacity(cfg, SpawnApply(st, t, Spawn(c)))
  {
    assert LiveSlots(SpawnApply(st, t, Spawn(c))) == LiveSlots(st);
  }

  lemma HandshakeShrinks(cfg: Config, st: State, t: TurnId, step: SpawnStep)
    requires GateOk(cfg, st) && SpawnEnabled(st, t, step) && (step.HandshakeOk? || step.HandshakeFails?)
    ensures Shrinks(st, SpawnApply(st, t, step)) && GateKept(st, SpawnApply(st, t, step))
  {
  }

  lemma SpawnStepCapacity(cfg: Config, st: State, t: TurnId, step: SpawnStep)
    requires Links(cfg, st) && Capacity(cfg, st) && SpawnEnabled(st, t, step)
    ensures Capacity(cfg, SpawnApply(st, t, step))
  {
    match step
    case Spawn(c) => SpawnCapacity(cfg, st, t, c);
    case Register => RegisterCapacity(cfg, st, t);
    case Refuse(owner) => RefuseCapacity(cfg, st, t, owner);
    case HandshakeOk => HandshakeShrinks(cfg, st, t, step); QuietCapacity(cfg, st, SpawnApply(st, t, step));
    case HandshakeFails => HandshakeShrinks(cfg, st, t, step); QuietCapacity(cfg, st, SpawnApply(st, t, step));
  }

  lemma StepCapacity(cfg: Config, st: State, step: Step)
    requires Safe(cfg, st) && Capacity(cfg, st) && Enabled(cfg, st, step)
    ensures Capacity(cfg, Apply(cfg, st, step))
  {
    var st' := Apply(cfg, st, step);
    match step
    case ByGate(t, x) => GateStepCapacity(cfg, st, t, x);
    case BySpawn(t, x) => SpawnStepCapacity(cfg, st, t, x);
    case BySlot(x) => SlotStepShrinks(cfg, st, x); QuietCapacity(cfg, st, st');
    case ByTimer(x) => TimerStepShrinks(st, x); QuietCapacity(cfg, st, st');
    case ByClaim(t, x) => ClaimStepShrinks(cfg, st, t, x); QuietCapacity(cfg, st, st');
    case ByKill(t, x) => KillStepShrinks(cfg, st, t, x); QuietCapacity(cfg, st, st');
    case ByFlight(t, x) => FlightStepShrinks(cfg, st, t, x); QuietCapacity(cfg, st, st');
    case ByPlan(t, x) => PlanStepShrinks(cfg, st, t, x); QuietCapacity(cfg, st, st');
    case ByPrompt(t, x) => PromptStepShrinks(cfg, st, t, x); QuietCapacity(cfg, st, st');
    case ByClose(t, x) => CloseStepShrinks(cfg, st, t, x); QuietCapacity(cfg, st, st');
  }
}
