/** Pools of processes whose Wait never reports an incomplete cleanup. */
module PoolCleanup {
  import opened Options
  import opened PoolState
  import opened PoolSteps
  import opened PoolInv
  import opened PoolRuns

  /** No cleanup of the slot's processes failed. */
  predicate Spotless(sl: Slot) {
    !sl.transportFailed && !sl.retiringFailed && !sl.cleanupErr && !sl.quarantined
  }

  predicate Clean(st: State, s: SlotId) {
    s in st.slots ==> Spotless(st.slots[s])
  }

  lemma SlotStepClean(cfg: Config, st: State, step: SlotStep, s: SlotId)
    requires SlotEnabled(cfg, st, step) && !cfg.reportsCleanup && Clean(st, s)
    ensures Clean(SlotApply(cfg, st, step), s)
  {
    match step
    case FinishRetirement(x, confirmed) => assert Clean(Retired(st, x, true), s);
    case Reap(x) => assert Clean(Detach(st, x), s);
    case Evict(x) => assert Clean(Detach(st, x), s);
    case _ =>
  }

  lemma TimerStepClean(st: State, step: TimerStep, s: SlotId)
    requires TimerEnabled(st, step) && Clean(st, s)
    ensures Clean(TimerApply(st, step), s)
  {
    match step
    case Reserve(_) =>
    case RunSchedule(_) =>
    case _ =>
  }

  lemma ClaimStepClean(st: State, t: TurnId, step: ClaimStep, s: SlotId)
    requires ClaimEnabled(st, t, step) && Clean(st, s)
    ensures Clean(ClaimApply(st, t, step), s)
  {
  }

  lemma KillStepClean(st: State, t: TurnId, step: KillStep, s: SlotId)
    requires KillEnabled(st, t, step) && Clean(st, s)
    ensures Clean(KillApply(st, t, step), s)
  {
  }

  lemma FlightStepClean(st: State, t: TurnId, step: FlightStep, s: SlotId)
    requires FlightEnabled(st, t, step) && Clean(st, s)
    ensures Clean(FlightApply(st, t, step), s)
  {
  }

  lemma GateStepClean(cfg: Config, st: State, t: TurnId, step: GateStep, s: SlotId)
    requires GateEnabled(cfg, st, t, step) && Clean(st, s)
    ensures Clean(GateApply(cfg, st, t, step), s)
  {
  }

  lemma SpawnStepClean(st: State, t: TurnId, step: SpawnStep, s: SlotId)
    requires SpawnEnabled(st, t, step) && Clean(st, s)
    ensures Clean(SpawnApply(st, t, step), s)
  {
  }

  lemma PlanStepClean(st: State, t: TurnId, step: PlanStep, s: SlotId)
    requires PlanEnabled(st, t, step) && Clean(st, s)
    ensures Clean(PlanApply(st, t, step), s)
  {
  }

  lemma PromptStepClean(st: State, t: TurnId, step: PromptStep, s: SlotId)
    requires PromptEnabled(st, t, step) && Clean(st, s)
    ensures Clean(PromptApply(st, t, step), s)
  {
  }

  lemma CloseStepClean(cfg: Config, st: State, t: TurnId, step: CloseStep, s: SlotId)
    requires CloseEnabled(st, t, step) && Clean(st, s)
    ensures Clean(CloseApply(cfg, st, t, step), s)
  {
  }

  lemma StepClean(cfg: Config, st: State, step: Step, s: SlotId)
    requires Enabled(cfg, st, step) && !cfg.reportsCleanup && Clean(st, s)
    ensures Clean(Apply(cfg, st, step), s)
  {
    match step
    case BySlot(x) => SlotStepClean(cfg, st, x, s);
    case ByTimer(x) => TimerStepClean(st, x, s);
    case ByClaim(t, x) => ClaimStepClean(st, t, x, s);
    case ByKill(t, x) => KillStepClean(st, t, x, s);
    case ByFlight(t, x) => FlightStepClean(st, t, x, s);
    case ByGate(t, x) => GateStepClean(cfg, st, t, x, s);
    case BySpawn(t, x) => SpawnStepClean(st, t, x, s);
    case ByPlan(t, x) => PlanStepClean(st, t, x, s);
    case ByPrompt(t, x) => PromptStepClean(st, t, x, s);
    case ByClose(t, x) => CloseStepClean(cfg, st, t, x, s);
  }

  lemma {:induction false} RunsClean(cfg: Config, st: State, steps: seq<Step>, s: SlotId)
    requires Runs(cfg, st, steps) && !cfg.reportsCleanup && Clean(st, s)
    ensures Clean(Final(cfg, st, steps), s)
    decreases |steps|
  {
    if steps != [] {
      StepClean(cfg, st, steps[0], s);
      RunsClean(cfg, Apply(cfg, st, steps[0]), steps[1..], s);
    }
  }

  /** Such a pool never sees a failed cleanup, and quarantines no slot, in any run. */
  lemma NothingIsQuarantined(cfg: Config, steps: seq<Step>, s: SlotId)
    requires Runs(cfg, Init, steps) && !cfg.reportsCleanup
    ensures var st := Final(cfg, Init, steps);
            s in st.slots ==> Spotless(st.slots[s]) && st.slots[s].failed.None?
  {
    RunsClean(cfg, Init, steps, s);
    Reachable(cfg, steps);
    var st := Final(cfg, Init, steps);
    if s in st.slots { assert SlotOk(st.slots[s]); }
  }
}
