/** Children over whole runs: none is ever dropped from the record, and one counts as gone only when
    the retirement that owns it is confirmed. */
module PoolOwnership {
  import opened Options
  import opened PoolState
  import opened PoolSteps
  import opened PoolInv
  import opened PoolLocal
  import opened PoolHeld
  import opened PoolRuns
  import opened PoolContinuity

  /** Child `c` stays on record, and stays gone or alive. */
  predicate Tracked(st: State, st': State, c: Child) {
    c in st.children ==> c in st'.children && (st'.children[c].where.Gone? <==> st.children[c].where.Gone?)
  }

  /** The step confirms the retirement of `c`. */
  predicate Confirms(st: State, step: Step, c: Child) {
    step.BySlot? && step.slotStep.FinishRetirement? && step.slotStep.confirmed &&
    step.slotStep.s in st.slots && st.slots[step.slotStep.s].retiring == Some(c)
  }

  lemma DetachTracks(st: State, s: SlotId, c: Child)
    requires s in st.slots && SlotOwns(st, s) && st.slots[s].proc.Some?
    ensures Tracked(st, Detach(st, s), c)
  {
  }

  lemma RetiredTracks(st: State, s: SlotId, confirmed: bool, c: Child)
    requires s in st.slots && SlotOwns(st, s) && st.slots[s].retiring.Some? && c in st.children
    ensures c in Retired(st, s, confirmed).children
    ensures Retired(st, s, confirmed).children[c].where.Gone? <==>
              st.children[c].where.Gone? || (confirmed && st.slots[s].retiring == Some(c))
  {
  }

  lemma SlotStepTracks(cfg: Config, st: State, step: SlotStep, c: Child)
    requires Owners(st) && SlotEnabled(cfg, st, step) && !step.FinishRetirement?
    ensures Tracked(st, SlotApply(cfg, st, step), c)
  {
    match step
    case Reap(s) => assert SlotOwns(st, s); DetachTracks(st, s, c);
    case Evict(s) => assert SlotOwns(st, s); DetachTracks(st, s, c);
    case _ =>
  }

  lemma TimerStepTracks(st: State, step: TimerStep, c: Child)
    requires Owners(st) && TimerEnabled(st, step)
    ensures Tracked(st, TimerApply(st, step), c)
  {
    match step
    case Reserve(cb) =>
      assert SlotOwns(st, cb.slot);
      if Reservable(st.slots[cb.slot], cb.epoch) { DetachTracks(st, cb.slot, c); }
    case _ =>
  }

  lemma ClaimStepTracks(st: State, t: TurnId, step: ClaimStep, c: Child)
    requires Owners(st) && ClaimEnabled(st, t, step)
    ensures Tracked(st, ClaimApply(st, t, step), c)
  {
    match step
    case DetachForClaim =>
      var s := st.turns[t].phase.slot;
      assert SlotOwns(st, s);
      if st.slots[s].proc.Some? { DetachTracks(st, s, c); }
    case _ =>
  }

  lemma KillStepTracks(st: State, t: TurnId, step: KillStep, c: Child)
    requires Owners(st) && KillEnabled(st, t, step)
    ensures Tracked(st, KillApply(st, t, step), c)
  {
    match step
    case KillLock =>
      var s := st.turns[t].phase.stage.rt;
      assert SlotOwns(st, s);
      if st.slots[s].proc.Some? { DetachTracks(st, s, c); }
    case _ =>
  }

  lemma SpawnStepTracks(st: State, t: TurnId, step: SpawnStep, c: Child)
    requires SpawnEnabled(st, t, step) && TurnStaged(st, t)
    ensures Tracked(st, SpawnApply(st, t, step), c)
  {
  }

  lemma PromptStepTracks(st: State, t: TurnId, step: PromptStep, c: Child)
    requires PromptEnabled(st, t, step)
    ensures Tracked(st, PromptApply(st, t, step), c)
  {
  }

  lemma CloseStepTracks(cfg: Config, st: State, t: TurnId, step: CloseStep, c: Child)
    requires Owners(st) && CloseEnabled(st, t, step)
    ensures Tracked(st, CloseApply(cfg, st, t, step), c)
  {
    match step
    case DetachTurn =>
      var s := st.pools[st.turns[t].key];
      assert SlotOwns(st, s);
      if st.slots[s].proc.Some? { DetachTracks(st, s, c); }
    case _ =>
  }

  lemma StepTracks(cfg: Config, st: State, step: Step, c: Child)
    requires Inv(cfg, st) && Enabled(cfg, st, step) && !(step.BySlot? && step.slotStep.FinishRetirement?)
    ensures Tracked(st, Apply(cfg, st, step), c)
  {
    match step
    case BySlot(x) => SlotStepTracks(cfg, st, x, c);
    case ByTimer(x) => TimerStepTracks(st, x, c);
    case ByClaim(t, x) => ClaimStepTracks(st, t, x, c);
    case ByKill(t, x) => KillStepTracks(st, t, x, c);
    case ByFlight(t, x) => FlightLogs(st, t, x);
    case ByGate(t, x) => GateLogs(cfg, st, t, x);
    case BySpawn(t, x) => assert TurnStaged(st, t); SpawnStepTracks(st, t, x, c);
    case ByPlan(t, x) => PlanLogs(st, t, x);
    case ByPrompt(t, x) => PromptStepTracks(st, t, x, c);
    case ByClose(t, x) => CloseStepTracks(cfg, st, t, x, c);
  }

  /** At every step of every run, a child stays on record, and it becomes gone exactly when the step
      confirms the retirement that owns it. */
  lemma GoneIsConfirmed(cfg: Config, st: State, step: Step, c: Child)
    requires Inv(cfg, st) && Enabled(cfg, st, step) && c in st.children
    ensures c in Apply(cfg, st, step).children
    ensures Apply(cfg, st, step).children[c].where.Gone? <==> st.children[c].where.Gone? || Confirms(st, step, c)
  {
    if step.BySlot? && step.slotStep.FinishRetirement? {
      assert SlotOwns(st, step.slotStep.s);
      RetiredTracks(st, step.slotStep.s, step.slotStep.confirmed, c);
    } else {
      StepTracks(cfg, st, step, c);
    }
  }

  /** Some step of the run confirms the retirement of `c`. */
  predicate Confirmed(cfg: Config, st: State, steps: seq<Step>, c: Child)
    requires Runs(cfg, st, steps)
    decreases |steps|
  {
    steps != [] && (Confirms(st, steps[0], c) || Confirmed(cfg, Apply(cfg, st, steps[0]), steps[1..], c))
  }

  lemma {:induction false} GoneInRun(cfg: Config, st: State, steps: seq<Step>, c: Child)
    requires Inv(cfg, st) && Runs(cfg, st, steps) && c in st.children
    ensures c in Final(cfg, st, steps).children
    ensures Final(cfg, st, steps).children[c].where.Gone? <==>
              st.children[c].where.Gone? || Confirmed(cfg, st, steps, c)
    decreases |steps|
  {
    if steps != [] {
      StepKeepsInv(cfg, st, steps[0]);
      GoneIsConfirmed(cfg, st, steps[0], c);
      GoneInRun(cfg, Apply(cfg, st, steps[0]), steps[1..], c);
    }
  }

  lemma Placed(cfg: Config, st: State, c: Child)
    requires Inv(cfg, st) && c in st.children && !st.children[c].where.Gone?
    ensures Keeps(st, c, st.children[c].where)
  {
    assert ChildPlaced(st, c);
  }

  /** Process ownership: from the moment a child is spawned, through every further run, it is kept by
      its flight leader, a slot, a retirement or failed-retirement evidence, unless and until some
      step confirmed the retirement that owned it. */
  lemma SpawnedIsAccountedFor(cfg: Config, before: seq<Step>, t: TurnId, c: Child, after: seq<Step>)
    requires Runs(cfg, Init, before) && SpawnEnabled(Final(cfg, Init, before), t, Spawn(c))
    requires Runs(cfg, SpawnApply(Final(cfg, Init, before), t, Spawn(c)), after)
    ensures var born := SpawnApply(Final(cfg, Init, before), t, Spawn(c));
            var st := Final(cfg, born, after);
            && c in st.children
            && (st.children[c].where.Gone? <==> Confirmed(cfg, born, after, c))
            && (!st.children[c].where.Gone? ==> Keeps(st, c, st.children[c].where))
  {
    Reachable(cfg, before);
    var old_ := Final(cfg, Init, before);
    var born := SpawnApply(old_, t, Spawn(c));
    StepKeepsInv(cfg, old_, BySpawn(t, Spawn(c)));
    GoneInRun(cfg, born, after, c);
    RunsKeepInv(cfg, born, after);
    if !Final(cfg, born, after).children[c].where.Gone? { Placed(cfg, Final(cfg, born, after), c); }
  }
}
