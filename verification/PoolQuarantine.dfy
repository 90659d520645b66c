/** A failed retirement is never forgotten: its slot keeps the unconfirmed child, the error and
    its place in the pool, and never receives another process. */
module PoolQuarantine {
  import opened Options
  import opened PoolState
  import opened PoolSteps
  import opened PoolInv
  import opened PoolRuns

  predicate Quarantined(sl: Slot) {
    sl.quarantined && sl.proc.None? && sl.retiring.None?
  }

  predicate EvidenceKept(st: State, st': State, s: SlotId) {
    && s in st.slots && s in st'.slots
    && st'.slots[s].quarantined && st'.slots[s].failed == st.slots[s].failed
    && st'.slots[s].published == st.slots[s].published && st'.slots[s].key == st.slots[s].key
  }

  lemma SlotStepKeepsEvidence(cfg: Config, st: State, step: SlotStep, s: SlotId)
    requires SlotEnabled(cfg, st, step) && s in st.slots && Quarantined(st.slots[s])
    ensures EvidenceKept(st, SlotApply(cfg, st, step), s)
  {
  }

  lemma TimerStepKeepsEvidence(st: State, step: TimerStep, s: SlotId)
    requires TimerEnabled(st, step) && s in st.slots && Quarantined(st.slots[s])
    ensures EvidenceKept(st, TimerApply(st, step), s)
  {
  }

  lemma ClaimStepKeepsEvidence(st: State, t: TurnId, step: ClaimStep, s: SlotId)
    requires ClaimEnabled(st, t, step) && s in st.slots && Quarantined(st.slots[s])
    ensures EvidenceKept(st, ClaimApply(st, t, step), s)
  {
  }

  lemma KillStepKeepsEvidence(st: State, t: TurnId, step: KillStep, s: SlotId)
    requires KillEnabled(st, t, step) && s in st.slots && Quarantined(st.slots[s])
    ensures EvidenceKept(st, KillApply(st, t, step), s)
  {
  }

  lemma FlightStepKeepsEvidence(st: State, t: TurnId, step: FlightStep, s: SlotId)
    requires FlightEnabled(st, t, step) && s in st.slots && Quarantined(st.slots[s])
    ensures EvidenceKept(st, FlightApply(st, t, step), s)
  {
  }

  lemma GateStepKeepsEvidence(cfg: Config, st: State, t: TurnId, step: GateStep, s: SlotId)
    requires GateEnabled(cfg, st, t, step) && s in st.slots && Quarantined(st.slots[s])
    ensures EvidenceKept(st, GateApply(cfg, st, t, step), s)
  {
  }

  lemma SpawnStepKeepsEvidence(st: State, t: TurnId, step: SpawnStep, s: SlotId)
    requires SpawnEnabled(st, t, step) && s in st.slots && Quarantined(st.slots[s])
    ensures EvidenceKept(st, SpawnApply(st, t, step), s)
  {
  }

  lemma PlanStepKeepsEvidence(st: State, t: TurnId, step: PlanStep, s: SlotId)
    requires PlanEnabled(st, t, step) && s in st.slots && Quarantined(st.slots[s])
    ensures EvidenceKept(st, PlanApply(st, t, step), s)
  {
  }

  lemma PromptStepKeepsEvidence(st: State, t: TurnId, step: PromptStep, s: SlotId)
    requires PromptEnabled(st, t, step) && s in st.slots && Quarantined(st.slots[s])
    ensures EvidenceKept(st, PromptApply(st, t, step), s)
  {
  }

  lemma CloseStepKeepsEvidence(cfg: Config, st: State, t: TurnId, step: CloseStep, s: SlotId)
    requires CloseEnabled(st, t, step) && s in st.slots && Quarantined(st.slots[s])
    ensures EvidenceKept(st, CloseApply(cfg, st, t, step), s)
  {
  }

  lemma StepKeepsEvidence(cfg: Config, st: State, step: Step, s: SlotId)
    requires Enabled(cfg, st, step) && s in st.slots && Quarantined(st.slots[s])
    ensures EvidenceKept(st, Apply(cfg, st, step), s)
  {
    match step
    case BySlot(x) => SlotStepKeepsEvidence(cfg, st, x, s);
    case ByTimer(x) => TimerStepKeepsEvidence(st, x, s);
    case ByClaim(t, x) => ClaimStepKeepsEvidence(st, t, x, s);
    case ByKill(t, x) => KillStepKeepsEvidence(st, t, x, s);
    case ByFlight(t, x) => FlightStepKeepsEvidence(st, t, x, s);
    case ByGate(t, x) => GateStepKeepsEvidence(cfg, st, t, x, s);
    case BySpawn(t, x) => SpawnStepKeepsEvidence(st, t, x, s);
    case ByPlan(t, x) => PlanStepKeepsEvidence(st, t, x, s);
    case ByPrompt(t, x) => PromptStepKeepsEvidence(st, t, x, s);
    case ByClose(t, x) => CloseStepKeepsEvidence(cfg, st, t, x, s);
  }

  lemma {:induction false} RunsKeepEvidence(cfg: Config, st: State, more: seq<Step>, s: SlotId)
    requires Inv(cfg, st) && Runs(cfg, st, more) && s in st.slots && st.slots[s].quarantined
    ensures EvidenceKept(st, Final(cfg, st, more), s)
    decreases |more|
  {
    if more != [] {
      assert SlotOk(st.slots[s]);
      StepKeepsEvidence(cfg, st, more[0], s);
      StepKeepsInv(cfg, st, more[0]);
      RunsKeepEvidence(cfg, Apply(cfg, st, more[0]), more[1..], s);
    }
  }

  /** Once a retirement failed, after any further steps the slot still holds the same unconfirmed
      child and its error, is still owned by the pool, has no process, accepts none and refuses every
      claim. */
  lemma QuarantineIsPermanent(cfg: Config, steps: seq<Step>, more: seq<Step>, s: SlotId)
    requires Runs(cfg, Init, steps) && Runs(cfg, Final(cfg, Init, steps), more)
    requires s in Final(cfg, Init, steps).slots && Final(cfg, Init, steps).slots[s].quarantined
    ensures var st := Final(cfg, Init, steps);
            var st' := Final(cfg, st, more);
            && s in st'.slots && st'.slots[s].failed == st.slots[s].failed && st.slots[s].failed.Some?
            && st'.slots[s].cleanupErr && st'.slots[s].proc.None? && !st'.slots[s].deleted
            && !Claimable(st'.slots[s]) && !Publishable(st'.slots[s])
            && (if st'.slots[s].published then Canonical(st', s) else s in st'.retirements)
  {
    var st := Final(cfg, Init, steps);
    var st' := Final(cfg, st, more);
    Reachable(cfg, steps);
    RunsKeepInv(cfg, st, more);
    RunsKeepEvidence(cfg, st, more, s);
    assert SlotOk(st.slots[s]) && SlotOk(st'.slots[s]) && SlotLinked(st', s);
  }
}
