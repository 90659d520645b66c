/** A conversation that diverged from what a session was sent is never sent into that session: the
    turn retires the process first, and its prompt is the first of a new session. */
module PoolReset {
  import opened Options
  import opened Transcript
  import opened PoolState
  import opened PoolSteps
  import opened PoolInv
  import opened PoolLocal
  import opened PoolHeld
  import opened PoolSafety
  import opened PoolRuns
  import opened PoolContinuity

  /** The plan a turn will ensure a process for. */
  function StagePlan(stage: Stage): Option<Plan> {
    match stage
    case KillDue(after) => if after.ThenBuild? then Some(after.plan) else None
    case Killing(_, after) => if after.ThenBuild? then Some(after.plan) else None
    case AwaitingKill(_, after) => if after.ThenBuild? then Some(after.plan) else None
    case Killed(after, _) => if after.ThenBuild? then Some(after.plan) else None
    case Planned(plan) => Some(plan)
    case Following(plan) => Some(plan)
    case Leading(plan) => Some(plan)
    case Cleared(plan) => Some(plan)
    case Reserving(plan) => Some(plan)
    case Counting(plan, _, _) => Some(plan)
    case Permitted(plan) => Some(plan)
    case Spawned(plan, _) => Some(plan)
    case Registered(plan) => Some(plan)
    case Handshaking(plan) => Some(plan)
    case Built(plan) => Some(plan)
    case Ready(plan, _) => Some(plan)
    case _ => None
  }

  /** The slot's process, if it has one, was sent nothing. */
  predicate Unsent(cs: Children, sl: Slot) {
    sl.proc.Some? ==> sl.proc.value in cs && cs[sl.proc.value].log == []
  }

  predicate Diverging(turn: Turn) {
    turn.phase.Held? && StagePlan(turn.phase.stage).Some? &&
    ResetNeeded(turn.messages, StagePlan(turn.phase.stage).value.base)
  }

  predicate AfreshAt(st: State, t: TurnId, s: SlotId) {
    t in st.turns && (HeldBy(st, t, s) && Diverging(st.turns[t]) ==> s in st.slots && Unsent(st.children, st.slots[s]))
  }

  predicate TurnAfresh(st: State, t: TurnId)
    requires t in st.turns
  {
    st.turns[t].phase.Held? ==> AfreshAt(st, t, st.turns[t].phase.slot)
  }

  ghost predicate Afresh(st: State) {
    forall t :: t in st.turns ==> TurnAfresh(st, t)
  }

  // ----- Steps of the turn itself -----

  /** The turn relies on no process. */
  predicate Planless(st: State, t: TurnId) {
    t in st.turns && (st.turns[t].phase.Held? ==> StagePlan(st.turns[t].phase.stage).None?)
  }

  lemma NoPlan(st: State, t: TurnId, s: SlotId)
    requires Planless(st, t)
    ensures AfreshAt(st, t, s)
  {
  }

  lemma StagePlanless(st: State, t: TurnId, stage: Stage)
    requires t in st.turns && st.turns[t].phase.Held? && StagePlan(stage).None?
    ensures Planless(SetStage(st, t, stage), t)
  {
  }

  lemma ClaimPlansNothing(st: State, t: TurnId, step: ClaimStep)
    requires ClaimEnabled(st, t, step) && st.turns[t].phase.Held?
    ensures Planless(ClaimApply(st, t, step), t)
  {
    match step
    case DetachForClaim =>
      var s := st.turns[t].phase.slot;
      StagePlanless(if st.slots[s].retiring.None? && st.slots[s].proc.Some? then Detach(st, s) else st, t, Rechecking);
    case Recheck => StagePlanless(st, t, Releasing); StagePlanless(st, t, Claimed);
    case CancelClaim => StagePlanless(st, t, Releasing);
  }

  /** Once the prompt is sent, or refused, nothing of the plan remains. */
  lemma PromptPlansNothing(st: State, t: TurnId, step: PromptStep)
    requires PromptEnabled(st, t, step) && !step.Rotate?
    ensures Planless(PromptApply(st, t, step), t)
  {
    match step
    case SendOk =>
    case SendFails(_, _) =>
    case Commit =>
  }

  /** A new session is planned without a marker. */
  lemma RotateAfresh(st: State, t: TurnId, s: SlotId)
    requires PromptEnabled(st, t, Rotate)
    ensures AfreshAt(PromptApply(st, t, Rotate), t, s)
  {
    assert !ResetNeeded(st.turns[t].messages, Zero);
  }

  lemma PromptAfresh(st: State, t: TurnId, s: SlotId, step: PromptStep)
    requires PromptEnabled(st, t, step)
    ensures AfreshAt(PromptApply(st, t, step), t, s)
  {
    if step.Rotate? {
      RotateAfresh(st, t, s);
    } else {
      PromptPlansNothing(st, t, step);
      NoPlan(PromptApply(st, t, step), t, s);
    }
  }

  lemma ClosePlansNothing(cfg: Config, st: State, t: TurnId, step: CloseStep)
    requires CloseEnabled(st, t, step) && !step.Release?
    ensures Planless(CloseApply(cfg, st, t, step), t)
  {
    match step
    case CloseClean => StagePlanless(st, t, Releasing);
    case CloseWithdrawn => StagePlanless(Withdraw(st, st.pools[st.turns[t].key]), t, Detaching);
    case DetachTurn =>
      var s := st.pools[st.turns[t].key];
      StagePlanless(if st.slots[s].retiring.None? && st.slots[s].proc.Some? then Detach(st, s) else st, t, Releasing);
  }

  lemma KillAfresh(cfg: Config, st: State, t: TurnId, s: SlotId, step: KillStep)
    requires Here(cfg, st, t, s) && AfreshAt(st, t, s) && KillEnabled(st, t, step)
    ensures AfreshAt(KillApply(st, t, step), t, s)
  {
    match step
    case BeginKill =>
    case KillLock =>
    case AwaitKill(_) =>
    case KillReturn => KillReturnAfresh(cfg, st, t, s);
  }

  lemma KillReturnAfresh(cfg: Config, st: State, t: TurnId, s: SlotId)
    requires Here(cfg, st, t, s) && KillEnabled(st, t, KillReturn)
    ensures AfreshAt(KillApply(st, t, KillReturn), t, s)
  {
    assert st.slots[s].proc.None?;
  }

  /** The same plan, with the same process. */
  lemma SamePlan(st: State, st': State, t: TurnId, s: SlotId)
    requires AfreshAt(st, t, s) && HeldBy(st, t, s) && HeldBy(st', t, s)
    requires st'.slots == st.slots && st'.children == st.children && st'.turns[t].messages == st.turns[t].messages
    requires StagePlan(st'.turns[t].phase.stage) == StagePlan(st.turns[t].phase.stage)
    ensures AfreshAt(st', t, s)
  {
  }

  predicate KeepsPlan(st: State, st': State, t: TurnId)
    requires t in st.turns && st.turns[t].phase.Held?
  {
    && st'.slots == st.slots && st'.children == st.children
    && t in st'.turns && st'.turns[t].messages == st.turns[t].messages
    && HeldBy(st', t, st.turns[t].phase.slot)
    && StagePlan(st'.turns[t].phase.stage) == StagePlan(st.turns[t].phase.stage)
  }

  lemma StageKeepsPlan(st: State, t: TurnId, stage: Stage)
    requires t in st.turns && st.turns[t].phase.Held? && StagePlan(stage) == StagePlan(st.turns[t].phase.stage)
    ensures KeepsPlan(st, SetStage(st, t, stage), t)
  {
  }

  lemma FlightKeepsPlan(st: State, t: TurnId, step: FlightStep)
    requires FlightEnabled(st, t, step) && !step.UnwindFlight?
    ensures KeepsPlan(st, FlightApply(st, t, step), t)
  {
    var stage := st.turns[t].phase.stage;
    match step
    case BeginFlight => StageKeepsPlan(st, t, Following(stage.plan)); StageKeepsPlan(st, t, Leading(stage.plan));
    case Resume => StageKeepsPlan(st, t, Planned(stage.plan));
    case LeaderReady => StageKeepsPlan(st, t, Planned(stage.plan));
    case LeaderKill => StageKeepsPlan(st, t, KillDue(ThenBuild(stage.plan)));
    case FinishFlight => StageKeepsPlan(st, t, Planned(stage.plan));
  }

  lemma FlightAfresh(st: State, t: TurnId, s: SlotId, step: FlightStep)
    requires HeldBy(st, t, s) && AfreshAt(st, t, s) && FlightEnabled(st, t, step)
    ensures AfreshAt(FlightApply(st, t, step), t, s)
  {
    if step.UnwindFlight? {
      StagePlanless(st, t, Releasing);
      NoPlan(FlightApply(st, t, step), t, s);
    } else {
      FlightKeepsPlan(st, t, step);
      SamePlan(st, FlightApply(st, t, step), t, s);
    }
  }

  lemma GateAfresh(cfg: Config, st: State, t: TurnId, s: SlotId, step: GateStep)
    requires Here(cfg, st, t, s) && AfreshAt(st, t, s) && GateEnabled(cfg, st, t, step)
    ensures AfreshAt(GateApply(cfg, st, t, step), t, s)
  {
  }

  lemma SpawnAfresh(cfg: Config, st: State, t: TurnId, s: SlotId, step: SpawnStep)
    requires Here(cfg, st, t, s) && AfreshAt(st, t, s) && SpawnEnabled(st, t, step) && !step.Refuse?
    ensures AfreshAt(SpawnApply(st, t, step), t, s)
  {
    match step
    case Spawn(_) =>
    case Register => RegisterAfresh(cfg, st, t, s);
    case HandshakeOk =>
    case HandshakeFails =>
  }

  lemma RegisterAfresh(cfg: Config, st: State, t: TurnId, s: SlotId)
    requires Here(cfg, st, t, s) && SpawnEnabled(st, t, Register)
    ensures AfreshAt(SpawnApply(st, t, Register), t, s)
  {
  }

  lemma PlanAfresh(cfg: Config, st: State, t: TurnId, s: SlotId, step: PlanStep)
    requires Here(cfg, st, t, s) && AfreshAt(st, t, s) && PlanEnabled(st, t, step)
    ensures AfreshAt(PlanApply(st, t, step), t, s)
  {
    match step
    case ValidateReuse(_, _) =>
    case ReadHistory =>
    case CheckReady => CheckAfresh(cfg, st, t, s);
    case EnsureFails =>
    case Fingerprint(_) =>
  }

  lemma CheckAfresh(cfg: Config, st: State, t: TurnId, s: SlotId)
    requires Here(cfg, st, t, s) && AfreshAt(st, t, s) && PlanEnabled(st, t, CheckReady)
    ensures AfreshAt(PlanApply(st, t, CheckReady), t, s)
  {
  }

  lemma HolderAfresh(cfg: Config, st: State, step: Step, s: SlotId)
    requires Enabled(cfg, st, step) && HolderStep(st, step) && Here(cfg, st, step.t, s) && AfreshAt(st, step.t, s)
    ensures AfreshAt(Apply(cfg, st, step), step.t, s)
  {
    match step
    case ByClaim(t, x) => ClaimPlansNothing(st, t, x); NoPlan(ClaimApply(st, t, x), t, s);
    case ByKill(t, x) => KillAfresh(cfg, st, t, s, x);
    case ByFlight(t, x) => FlightAfresh(st, t, s, x);
    case ByGate(t, x) => GateAfresh(cfg, st, t, s, x);
    case BySpawn(t, x) => SpawnAfresh(cfg, st, t, s, x);
    case ByPlan(t, x) => PlanAfresh(cfg, st, t, s, x);
    case ByPrompt(t, x) => PromptAfresh(st, t, s, x);
    case ByClose(t, x) => ClosePlansNothing(cfg, st, t, x); NoPlan(CloseApply(cfg, st, t, x), t, s);
  }

  // ----- Steps of others -----

  /** A step elsewhere leaves the slot's process and what it was sent. */
  lemma ElsewhereAfresh(st: State, st': State, t: TurnId)
    requires t in st.turns && TurnAfresh(st, t) && t in st'.turns && st'.turns[t] == st.turns[t]
    requires st.turns[t].phase.Held? ==>
               var s := st.turns[t].phase.slot;
               && s in st'.slots && s in st.slots && st'.slots[s].proc == st.slots[s].proc
               && (st.slots[s].proc.Some? ==> LogKept(st, st', st.slots[s].proc.value))
               && (st.slots[s].proc.Some? ==> st.slots[s].proc.value in st'.children)
    ensures TurnAfresh(st', t)
  {
  }

  /** Another turn's step changes no child that is live in this turn's slot. */
  lemma LocalAfresh(cfg: Config, st: State, st': State, t: TurnId, s: SlotId, c: Option<Child>, x: TurnId)
    requires Safe(cfg, st) && LocalOk(cfg, st, st', t, s, c) && x in st.turns && !HeldBy(st, x, s) && TurnAfresh(st, x)
    requires x != t
    ensures x in st'.turns && TurnAfresh(st', x)
  {
    if st.turns[x].phase.Held? {
      var y := st.turns[x].phase.slot;
      HereHolds(cfg, st, x);
      assert SlotOwns(st, y) && ChildHere(st, t, s, c);
      assert st.slots[y].proc.Some? ==> c != st.slots[y].proc;
    }
    ElsewhereAfresh(st, st', x);
  }

  lemma HeldAlone(cfg: Config, st: State, t: TurnId, x: TurnId, s: SlotId)
    requires Links(cfg, st) && HeldBy(st, t, s) && x != t
    ensures !HeldBy(st, x, s)
  {
    assert TurnLinked(cfg, st, t);
    assert HeldBy(st, x, s) ==> TurnLinked(cfg, st, x);
  }

  lemma OwnAfresh(cfg: Config, st: State, st': State, t: TurnId, s: SlotId, c: Option<Child>)
    requires Local(st, st', t, s, c) && HeldBy(st, t, s) && AfreshAt(st', t, s)
    ensures t in st'.turns && TurnAfresh(st', t)
  {
    assert st'.turns[t].phase.Held? && st'.turns[t].phase.slot == s;
  }

  lemma OthersAfresh(cfg: Config, st: State, st': State, t: TurnId, s: SlotId, c: Option<Child>)
    requires Safe(cfg, st) && Afresh(st) && LocalOk(cfg, st, st', t, s, c) && HeldBy(st, t, s)
    requires AfreshAt(st', t, s)
    ensures Afresh(st')
  {
    OwnAfresh(cfg, st, st', t, s, c);
    forall x | x in st'.turns ensures TurnAfresh(st', x) {
      if x != t {
        HeldAlone(cfg, st, t, x, s);
        assert TurnAfresh(st, x);
        LocalAfresh(cfg, st, st', t, s, c, x);
      }
    }
  }

  lemma HolderStepAfresh(cfg: Config, st: State, step: Step)
    requires Inv(cfg, st) && Afresh(st) && Enabled(cfg, st, step) && HolderStep(st, step)
    ensures Afresh(Apply(cfg, st, step))
  {
    var t := step.t;
    var s := st.turns[t].phase.slot;
    var st' := Apply(cfg, st, step);
    HereHolds(cfg, st, t);
    assert TurnAfresh(st, t);
    HolderAfresh(cfg, st, step, s);
    var c := HolderStepIsLocal(cfg, st, step);
    OthersAfresh(cfg, st, st', t, s, c);
  }

  /** Steps outside every claim keep what held turns rely on. */
  lemma OutsideKeeps(cfg: Config, st: State, step: Step, x: TurnId)
    requires Inv(cfg, st) && Enabled(cfg, st, step) && (step.BySlot? || step.ByTimer?) && x in st.turns
    ensures var st' := Apply(cfg, st, step);
            && x in st'.turns && st'.turns[x] == st.turns[x]
            && (st.turns[x].phase.Held? ==>
                  var s := st.turns[x].phase.slot;
                  s in st.slots && s in st'.slots && st'.slots[s].proc == st.slots[s].proc)
  {
    if st.turns[x].phase.Held? {
      HeldProcessIsSafe(cfg, st, step, x, st.turns[x].phase.slot);
    }
    match step
    case BySlot(y) => SlotStepTurnFrame(cfg, st, y, x);
    case ByTimer(y) => TimerStepTurnFrame(st, y);
  }

  /** A step outside every claim starts no held turn and loses no child. */
  lemma SlotStepAdds(cfg: Config, st: State, step: SlotStep)
    requires SlotEnabled(cfg, st, step)
    ensures var st' := SlotApply(cfg, st, step);
            && (forall t :: t in st'.turns && t !in st.turns ==> st'.turns[t].phase.Opening?)
            && (forall c :: c in st.children ==> c in st'.children)
  {
  }

  lemma TimerStepAdds(st: State, step: TimerStep)
    requires TimerEnabled(st, step)
    ensures forall c :: c in st.children ==> c in TimerApply(st, step).children
  {
  }

  lemma OutsideAfresh(cfg: Config, st: State, step: Step)
    requires Inv(cfg, st) && Afresh(st) && Enabled(cfg, st, step) && (step.BySlot? || step.ByTimer?)
    ensures Afresh(Apply(cfg, st, step))
  {
    var st' := Apply(cfg, st, step);
    match step {
      case BySlot(y) => SlotStepAdds(cfg, st, y);
      case ByTimer(y) => TimerStepAdds(st, y); TimerStepTurnFrame(st, y);
    }
    forall x | x in st'.turns ensures TurnAfresh(st', x) {
      if x in st.turns {
        OutsideKeeps(cfg, st, step, x);
        assert TurnAfresh(st, x);
        if st.turns[x].phase.Held? {
          HereHolds(cfg, st, x);
          var sl := st.slots[st.turns[x].phase.slot];
          if sl.proc.Some? { StepLogKept(cfg, st, step, sl.proc.value); }
        }
        ElsewhereAfresh(st, st', x);
      }
    }
  }

  /** One turn takes, leaves or gives up a claim. */
  lemma EdgeAfresh(st: State, st': State, t: TurnId)
    requires Afresh(st) && st'.turns.Keys == st.turns.Keys && t in st.turns
    requires forall x :: x in st.turns && x != t ==> st'.turns[x] == st.turns[x]
    requires !Diverging(st'.turns[t])
    requires forall s :: s in st.slots ==> s in st'.slots && st'.slots[s].proc == st.slots[s].proc
    requires forall c :: c in st.children ==> c in st'.children && st'.children[c].log == st.children[c].log
    ensures Afresh(st')
  {
    forall x | x in st'.turns ensures TurnAfresh(st', x) { assert TurnAfresh(st, x); }
  }

  lemma PhaseAfresh(st: State, t: TurnId, phase: Phase)
    requires Afresh(st) && t in st.turns && !phase.Held?
    ensures Afresh(SetPhase(st, t, phase))
  {
    EdgeAfresh(st, SetPhase(st, t, phase), t);
  }

  lemma TakeClaimAfresh(st: State, t: TurnId, s: SlotId)
    requires Afresh(st) && t in st.turns && s in st.slots
    ensures Afresh(TakeClaim(st, t, s))
  {
    EdgeAfresh(st, TakeClaim(st, t, s), t);
  }

  lemma TakesAfresh(st: State, t: TurnId, step: ClaimStep)
    requires Afresh(st) && ClaimEnabled(st, t, step) && !st.turns[t].phase.Held?
    ensures Afresh(ClaimApply(st, t, step))
  {
    PhaseAfresh(st, t, Opening);
    PhaseAfresh(st, t, Done);
    match step
    case ResolveSlot => PhaseAfresh(st, t, Resolved(st.pools[st.turns[t].key]));
    case TryClaim => TakeClaimAfresh(st, t, st.turns[t].phase.slot);
    case GiveUp =>
  }

  lemma RefusesAfresh(st: State, t: TurnId, owner: SlotId)
    requires Afresh(st) && SpawnEnabled(st, t, Refuse(owner))
    ensures Afresh(SpawnApply(st, t, Refuse(owner)))
  {
    EdgeAfresh(st, SpawnApply(st, t, Refuse(owner)), t);
  }

  lemma LeavesAfresh(cfg: Config, st: State, t: TurnId)
    requires Afresh(st) && CloseEnabled(st, t, Release)
    ensures Afresh(CloseApply(cfg, st, t, Release))
  {
    EdgeAfresh(st, CloseApply(cfg, st, t, Release), t);
  }

  lemma StepAfresh(cfg: Config, st: State, step: Step)
    requires Inv(cfg, st) && Afresh(st) && Enabled(cfg, st, step)
    ensures Afresh(Apply(cfg, st, step))
  {
    if HolderStep(st, step) {
      HolderStepAfresh(cfg, st, step);
    } else {
      match step
      case BySlot(_) => OutsideAfresh(cfg, st, step);
      case ByTimer(_) => OutsideAfresh(cfg, st, step);
      case ByClaim(t, x) => TakesAfresh(st, t, x);
      case BySpawn(t, x) => RefusesAfresh(st, t, x.owner);
      case ByClose(t, _) => LeavesAfresh(cfg, st, t);
    }
  }

  lemma {:induction false} RunsAfresh(cfg: Config, st: State, steps: seq<Step>)
    requires Inv(cfg, st) && Afresh(st) && Runs(cfg, st, steps)
    ensures Afresh(Final(cfg, st, steps))
    decreases |steps|
  {
    if steps != [] {
      StepKeepsInv(cfg, st, steps[0]);
      StepAfresh(cfg, st, steps[0]);
      RunsAfresh(cfg, Apply(cfg, st, steps[0]), steps[1..]);
    }
  }

  lemma DivergedNow(cfg: Config, st: State, t: TurnId)
    requires Inv(cfg, st) && t in st.turns && TurnAfresh(st, t) && PromptEnabled(st, t, SendOk)
    requires ResetNeeded(st.turns[t].messages, st.turns[t].phase.stage.plan.base)
    ensures var c := st.turns[t].phase.stage.child; c in st.children && st.children[c].log == []
  {
    HereHolds(cfg, st, t);
  }

  lemma Delivered(st: State, t: TurnId)
    requires PromptEnabled(st, t, SendOk) && st.turns[t].phase.stage.child in st.children
    ensures var turn := st.turns[t];
            var c := turn.phase.stage.child;
            var st' := PromptApply(st, t, SendOk);
            c in st'.children &&
            st'.children[c].log == st.children[c].log + [Prompt(turn.messages, turn.phase.stage.plan.base)]
  {
  }

  /** In every run, a prompt whose conversation diverged from the marker its turn read is the first
      prompt of its session, and is the whole conversation. */
  lemma DivergedStartsAfresh(cfg: Config, steps: seq<Step>, t: TurnId)
    requires Runs(cfg, Init, steps) && PromptEnabled(Final(cfg, Init, steps), t, SendOk)
    requires var turn := Final(cfg, Init, steps).turns[t]; ResetNeeded(turn.messages, turn.phase.stage.plan.base)
    ensures var st := Final(cfg, Init, steps);
            var turn := st.turns[t];
            var c := turn.phase.stage.child;
            && c in st.children && st.children[c].log == []
            && PromptApply(st, t, SendOk).children[c].log == [Prompt(turn.messages, turn.phase.stage.plan.base)]
            && Prompt(turn.messages, turn.phase.stage.plan.base).Full()
  {
    InvHoldsInitially(cfg);
    RunsKeepInv(cfg, Init, steps);
    RunsAfresh(cfg, Init, steps);
    var st := Final(cfg, Init, steps);
    assert TurnAfresh(st, t);
    DivergedNow(cfg, st, t);
    Delivered(st, t);
  }
}
