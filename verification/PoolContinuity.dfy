/** Transcript continuity over whole runs: what the sessions of every incarnation were sent. */
module PoolContinuity {
  import opened Options
  import opened Transcript
  import opened PoolState
  import opened PoolSteps
  import opened PoolInv
  import opened PoolLocal
  import opened PoolHeld
  import opened PoolSafety
  import opened PoolRuns
  import opened PoolCleanup

  // ----- What holds in every run -----

  /** A non-empty marker implies that the slot still has a process, initialized, and that the
      marker describes a conversation this process's session was sent. */
  lemma MarkerHasItsProcess(cfg: Config, steps: seq<Step>, s: SlotId)
    requires Runs(cfg, Init, steps)
    ensures var st := Final(cfg, Init, steps);
            s in st.slots && !Fresh(st.slots[s].history) ==>
              && st.slots[s].proc.Some? && st.slots[s].initialized && st.slots[s].proc.value in st.children
              && Described(st.children[st.slots[s].proc.value].log, st.slots[s].history)
  {
    Reachable(cfg, steps);
    var st := Final(cfg, Init, steps);
    if s in st.slots { assert SlotMarked(st, s) && SlotOk(st.slots[s]); }
  }

  lemma CoherentGrows(log: seq<Prompt>, p: Prompt)
    requires Coherent(log)
    ensures Coherent(log + [p]) <==> p.Full() || Described(log, p.base)
  {
    var l := log + [p];
    assert l[..|log|] == log && l[|log|] == p;
    assert Extends(l, |log|) <==> p.Full() || Described(log, p.base);
    forall i | 0 <= i < |log| ensures Extends(l, i) {
      assert Extends(log, i) && l[..i] == log[..i];
    }
  }

  lemma CoherentIffFirstIsFull(log: seq<Prompt>)
    requires TailCoherent(log)
    ensures Coherent(log) <==> log == [] || log[0].Full()
  {
    if log != [] {
      assert log[..0] == [];
      assert Extends(log, 0) <==> log[0].Full();
    }
  }

  /** In any pool, a turn about to prompt keeps its session continuous if and only if it sends the
      whole conversation or its session was prompted before. */
  lemma PromptContinuesExactly(cfg: Config, steps: seq<Step>, t: TurnId)
    requires Runs(cfg, Init, steps) && PromptEnabled(Final(cfg, Init, steps), t, SendOk)
    ensures var st := Final(cfg, Init, steps);
            var stage := st.turns[t].phase.stage;
            var p := Prompt(st.turns[t].messages, stage.plan.base);
            stage.child in st.children &&
            var log := st.children[stage.child].log;
            Coherent(log) ==> (Coherent(log + [p]) <==> p.Full() || log != [])
  {
    Reachable(cfg, steps);
    var st := Final(cfg, Init, steps);
    var stage := st.turns[t].phase.stage;
    assert TurnStaged(st, t);
    if Coherent(st.children[stage.child].log) {
      CoherentGrows(st.children[stage.child].log, Prompt(st.turns[t].messages, stage.plan.base));
    }
  }

  /** When EnsureProcess looks at the process whose marker the turn read, it hands that process to
      the prompt if and only if its transport has reported no cleanup failure. */
  lemma ReuseIsExact(cfg: Config, steps: seq<Step>, t: TurnId)
    requires Runs(cfg, Init, steps)
    requires var st := Final(cfg, Init, steps);
             t in st.turns && st.turns[t].phase.Held? && st.turns[t].phase.stage.Planned? &&
             Continues(st.turns[t].messages, st.turns[t].phase.stage.plan.base)
    ensures var st := Final(cfg, Init, steps);
            var turn := st.turns[t];
            turn.phase.slot in st.slots &&
            var sl := st.slots[turn.phase.slot];
            var plan := turn.phase.stage.plan;
            sl.proc == plan.source ==>
              && (PlanEnabled(st, t, CheckReady) <==> !sl.transportFailed)
              && (!sl.transportFailed ==>
                    plan.source.Some? &&
                    PlanApply(st, t, CheckReady).turns[t].phase.stage == Ready(plan, plan.source.value))
  {
    Reachable(cfg, steps);
    var st := Final(cfg, Init, steps);
    var s := st.turns[t].phase.slot;
    assert TurnStaged(st, t) && TurnLinked(cfg, st, t) && SlotOk(st.slots[s]) && SlotLinked(st, s);
  }

  // ----- No plan that continues a marker reaches a new process -----

  /** A retirement of this slot cannot end well: the transport it closes failed, or it ended badly. */
  predicate Stuck(sl: Slot) {
    (sl.retiring.Some? && sl.retiringFailed) || sl.cleanupErr
  }

  /** The marker's process is live, and its transport failed. */
  predicate Doomed(turn: Turn, sl: Slot, plan: Plan) {
    Continues(turn.messages, plan.base) ==> sl.proc == plan.source && sl.transportFailed
  }

  /** A plan that continues a marker still has the marker's process, or fails to replace it. */
  predicate QuietStage(turn: Turn, sl: Slot)
    requires turn.phase.Held?
  {
    match turn.phase.stage
    case Planned(plan) => Continues(turn.messages, plan.base) ==> sl.proc == plan.source
    case Following(plan) => Continues(turn.messages, plan.base) ==> sl.proc == plan.source
    case Ready(plan, c) => Continues(turn.messages, plan.base) ==> plan.source == Some(c)
    case Leading(plan) => Doomed(turn, sl, plan)
    case KillDue(after) => after.ThenBuild? ==> Doomed(turn, sl, after.plan)
    case Killing(_, after) => after.ThenBuild? ==> Doomed(turn, sl, after.plan)
    case AwaitingKill(_, after) => after.ThenBuild? && Continues(turn.messages, after.plan.base) ==> Stuck(sl)
    case Killed(after, ok) => after.ThenBuild? && Continues(turn.messages, after.plan.base) ==> !ok
    case Cleared(plan) => !Continues(turn.messages, plan.base)
    case Reserving(plan) => !Continues(turn.messages, plan.base)
    case Counting(plan, _, _) => !Continues(turn.messages, plan.base)
    case Permitted(plan) => !Continues(turn.messages, plan.base)
    case Spawned(plan, _) => !Continues(turn.messages, plan.base)
    case Registered(plan) => !Continues(turn.messages, plan.base)
    case Handshaking(plan) => !Continues(turn.messages, plan.base)
    case Built(plan) => !Continues(turn.messages, plan.base)
    case _ => true
  }

  predicate QuietTurn(st: State, t: TurnId)
    requires t in st.turns
  {
    st.turns[t].phase.Held? ==>
      st.turns[t].phase.slot in st.slots && QuietStage(st.turns[t], st.slots[st.turns[t].phase.slot])
  }

  predicate Quiet(st: State) {
    && (forall t :: t in st.turns ==> QuietTurn(st, t))
    && (forall c :: c in st.children ==> Coherent(st.children[c].log))
  }

  /** The same, of the slot and turn a step touches. */
  predicate QuietAt(st: State, t: TurnId, s: SlotId) {
    && s in st.slots
    && t in st.turns
    && (st.turns[t].phase.Held? ==> st.turns[t].phase.slot == s && QuietStage(st.turns[t], st.slots[s]))
  }

  lemma QuietLocal(cfg: Config, st: State, st': State, t: TurnId, s: SlotId, c: Option<Child>)
    requires Links(cfg, st) && Quiet(st) && Local(st, st', t, s, c) && QuietAt(st', t, s)
    requires c.Some? ==> Coherent(st'.children[c.value].log)
    ensures Quiet(st')
  {
    forall x | x in st'.turns ensures QuietTurn(st', x) {
      if x != t { assert QuietTurn(st, x) && TurnLinked(cfg, st, x); }
    }
  }

  lemma KillLockQuiet(cfg: Config, st: State, t: TurnId, s: SlotId)
    requires Here(cfg, st, t, s) && QuietAt(st, t, s) && KillEnabled(st, t, KillLock)
    ensures QuietAt(KillApply(st, t, KillLock), t, s)
  {
  }

  lemma KillReturnQuiet(cfg: Config, st: State, t: TurnId, s: SlotId)
    requires Here(cfg, st, t, s) && QuietAt(st, t, s) && KillEnabled(st, t, KillReturn)
    ensures QuietAt(KillApply(st, t, KillReturn), t, s)
  {
  }

  lemma KillQuiet(cfg: Config, st: State, t: TurnId, s: SlotId, step: KillStep)
    requires Here(cfg, st, t, s) && QuietAt(st, t, s) && KillEnabled(st, t, step)
    ensures QuietAt(KillApply(st, t, step), t, s)
  {
    match step
    case KillLock => KillLockQuiet(cfg, st, t, s);
    case KillReturn => KillReturnQuiet(cfg, st, t, s);
    case _ =>
  }

  lemma FlightQuiet(cfg: Config, st: State, t: TurnId, s: SlotId, step: FlightStep)
    requires Here(cfg, st, t, s) && QuietAt(st, t, s) && FlightEnabled(st, t, step)
    ensures QuietAt(FlightApply(st, t, step), t, s)
  {
    match step
    case BeginFlight =>
    case Resume =>
    case LeaderReady =>
    case LeaderKill =>
    case FinishFlight =>
    case UnwindFlight =>
  }

  lemma GateQuiet(cfg: Config, st: State, t: TurnId, s: SlotId, step: GateStep)
    requires QuietAt(st, t, s) && GateEnabled(cfg, st, t, step)
    ensures QuietAt(GateApply(cfg, st, t, step), t, s)
  {
  }

  lemma RegisterQuiet(cfg: Config, st: State, t: TurnId, s: SlotId)
    requires Here(cfg, st, t, s) && QuietAt(st, t, s) && SpawnEnabled(st, t, Register)
    ensures QuietAt(SpawnApply(st, t, Register), t, s)
  {
  }

  lemma HandshakeQuiet(cfg: Config, st: State, t: TurnId, s: SlotId)
    requires Here(cfg, st, t, s) && QuietAt(st, t, s) && SpawnEnabled(st, t, HandshakeOk)
    ensures QuietAt(SpawnApply(st, t, HandshakeOk), t, s)
  {
  }

  lemma SpawnQuiet(cfg: Config, st: State, t: TurnId, s: SlotId, step: SpawnStep)
    requires Here(cfg, st, t, s) && QuietAt(st, t, s) && SpawnEnabled(st, t, step)
    ensures QuietAt(SpawnApply(st, t, step), t, s)
  {
    match step
    case Register => RegisterQuiet(cfg, st, t, s);
    case HandshakeOk => HandshakeQuiet(cfg, st, t, s);
    case _ =>
  }

  lemma PlanQuiet(cfg: Config, st: State, t: TurnId, s: SlotId, step: PlanStep)
    requires Here(cfg, st, t, s) && QuietAt(st, t, s) && PlanEnabled(st, t, step)
    ensures QuietAt(PlanApply(st, t, step), t, s)
  {
  }

  lemma PromptQuiet(cfg: Config, st: State, t: TurnId, s: SlotId, step: PromptStep)
    requires Here(cfg, st, t, s) && QuietAt(st, t, s) && PromptEnabled(st, t, step)
    ensures QuietAt(PromptApply(st, t, step), t, s)
  {
  }

  lemma CloseQuiet(cfg: Config, st: State, t: TurnId, s: SlotId, step: CloseStep)
    requires Here(cfg, st, t, s) && QuietAt(st, t, s) && CloseEnabled(st, t, step)
    ensures QuietAt(CloseApply(cfg, st, t, step), t, s)
  {
  }

  lemma ClaimQuiet(cfg: Config, st: State, t: TurnId, s: SlotId, step: ClaimStep)
    requires Here(cfg, st, t, s) && QuietAt(st, t, s) && ClaimEnabled(st, t, step)
    ensures QuietAt(ClaimApply(st, t, step), t, s)
  {
  }

  lemma HolderStepQuiet(cfg: Config, st: State, step: Step, s: SlotId)
    requires Enabled(cfg, st, step) && HolderStep(st, step) && Here(cfg, st, step.t, s) && QuietAt(st, step.t, s)
    ensures QuietAt(Apply(cfg, st, step), step.t, s)
  {
    match step
    case ByClaim(t, x) => ClaimQuiet(cfg, st, t, s, x);
    case ByKill(t, x) => KillQuiet(cfg, st, t, s, x);
    case ByFlight(t, x) => FlightQuiet(cfg, st, t, s, x);
    case ByGate(t, x) => GateQuiet(cfg, st, t, s, x);
    case BySpawn(t, x) => SpawnQuiet(cfg, st, t, s, x);
    case ByPlan(t, x) => PlanQuiet(cfg, st, t, s, x);
    case ByPrompt(t, x) => PromptQuiet(cfg, st, t, s, x);
    case ByClose(t, x) => CloseQuiet(cfg, st, t, s, x);
  }

  // ----- What the steps do to the logs -----

  predicate LogKept(st: State, st': State, c: Child) {
    c in st'.children ==> st'.children[c].log == [] || (c in st.children && st'.children[c].log == st.children[c].log)
  }

  lemma SlotLogs(cfg: Config, st: State, step: SlotStep, c: Child)
    requires SlotEnabled(cfg, st, step)
    ensures LogKept(st, SlotApply(cfg, st, step), c)
  {
  }

  lemma TimerLogs(st: State, step: TimerStep, c: Child)
    requires TimerEnabled(st, step)
    ensures LogKept(st, TimerApply(st, step), c)
  {
  }

  lemma ClaimLogs(st: State, t: TurnId, step: ClaimStep, c: Child)
    requires ClaimEnabled(st, t, step)
    ensures LogKept(st, ClaimApply(st, t, step), c)
  {
  }

  lemma SpawnLogs(st: State, t: TurnId, step: SpawnStep, c: Child)
    requires SpawnEnabled(st, t, step)
    ensures LogKept(st, SpawnApply(st, t, step), c)
  {
  }

  lemma KillLogs(st: State, t: TurnId, step: KillStep, c: Child)
    requires KillEnabled(st, t, step)
    ensures LogKept(st, KillApply(st, t, step), c)
  {
  }

  lemma CloseLogs(cfg: Config, st: State, t: TurnId, step: CloseStep, c: Child)
    requires CloseEnabled(st, t, step)
    ensures LogKept(st, CloseApply(cfg, st, t, step), c)
  {
  }

  /** A delivered prompt keeps its session continuous. */
  lemma PromptLogs(cfg: Config, st: State, t: TurnId, s: SlotId, step: PromptStep, c: Child)
    requires Here(cfg, st, t, s) && QuietAt(st, t, s) && PromptEnabled(st, t, step)
    requires c in st.children ==> Coherent(st.children[c].log)
    ensures c in PromptApply(st, t, step).children ==> Coherent(PromptApply(st, t, step).children[c].log)
  {
    var stage := st.turns[t].phase.stage;
    if c == stage.child && stage.Ready? {
      CoherentGrows(st.children[c].log, Prompt(st.turns[t].messages, stage.plan.base));
    }
  }

  lemma FlightLogs(st: State, t: TurnId, step: FlightStep)
    requires FlightEnabled(st, t, step)
    ensures FlightApply(st, t, step).children == st.children
  {
  }

  lemma GateLogs(cfg: Config, st: State, t: TurnId, step: GateStep)
    requires GateEnabled(cfg, st, t, step)
    ensures GateApply(cfg, st, t, step).children == st.children
  {
  }

  lemma PlanLogs(st: State, t: TurnId, step: PlanStep)
    requires PlanEnabled(st, t, step)
    ensures PlanApply(st, t, step).children == st.children
  {
  }

  lemma StepLogKept(cfg: Config, st: State, step: Step, c: Child)
    requires Enabled(cfg, st, step) && !step.ByPrompt?
    ensures LogKept(st, Apply(cfg, st, step), c)
  {
    match step
    case BySlot(x) => SlotLogs(cfg, st, x, c);
    case ByTimer(x) => TimerLogs(st, x, c);
    case ByClaim(t, x) => ClaimLogs(st, t, x, c);
    case ByKill(t, x) => KillLogs(st, t, x, c);
    case BySpawn(t, x) => SpawnLogs(st, t, x, c);
    case ByClose(t, x) => CloseLogs(cfg, st, t, x, c);
    case ByFlight(t, x) => FlightLogs(st, t, x);
    case ByGate(t, x) => GateLogs(cfg, st, t, x);
    case ByPlan(t, x) => PlanLogs(st, t, x);
  }

  /** Every step keeps every session continuous. */
  lemma StepLogs(cfg: Config, st: State, step: Step, c: Child)
    requires Safe(cfg, st) && Quiet(st) && Enabled(cfg, st, step)
    ensures c in Apply(cfg, st, step).children ==> Coherent(Apply(cfg, st, step).children[c].log)
  {
    if step.ByPrompt? {
      HereHolds(cfg, st, step.t);
      assert QuietTurn(st, step.t);
      PromptLogs(cfg, st, step.t, st.turns[step.t].phase.slot, step.promptStep, c);
    } else {
      StepLogKept(cfg, st, step, c);
    }
  }

  // ----- Steps outside a claim -----

  /** What a turn's plan relies on is still there. */
  predicate Holds(sl: Slot, sl': Slot) {
    sl'.proc == sl.proc && (sl.transportFailed ==> sl'.transportFailed) && (Stuck(sl) ==> Stuck(sl'))
  }

  lemma TurnQuiet(st: State, st': State, t: TurnId)
    requires t in st.turns && QuietTurn(st, t) && t in st'.turns && st'.turns[t] == st.turns[t]
    requires st.turns[t].phase.Held? ==>
               var s := st.turns[t].phase.slot; s in st'.slots && Holds(st.slots[s], st'.slots[s])
    ensures QuietTurn(st', t)
  {
  }

  /** A retirement whose transport failed ends confirmed: its PID was recycled, and the process
      offers no WaitCleanup to join. */
  predicate Recycled(st: State, step: SlotStep) {
    step.FinishRetirement? && step.confirmed && step.s in st.slots && st.slots[step.s].retiringFailed
  }

  lemma RetiredHolds(st: State, s: SlotId, confirmed: bool)
    requires s in st.slots && st.slots[s].retiring.Some? && !(confirmed && st.slots[s].retiringFailed)
    ensures s in Retired(st, s, confirmed).slots && Holds(st.slots[s], Retired(st, s, confirmed).slots[s])
  {
  }

  lemma TargetHolds(cfg: Config, st: State, step: SlotStep)
    requires SlotEnabled(cfg, st, step) && !step.StartTurn? && step.s in st.slots && st.slots[step.s].inUse
    requires !Recycled(st, step)
    ensures step.s in SlotApply(cfg, st, step).slots
    ensures Holds(st.slots[step.s], SlotApply(cfg, st, step).slots[step.s])
  {
    match step
    case CancelAfterReap(_) =>
    case FinishRetirement(s, confirmed) => RetiredHolds(st, s, confirmed);
    case Unlink(_) =>
    case DropRetirement(_) =>
    case TransportFails(_) =>
    case _ =>
  }

  lemma SlotStepTurns(cfg: Config, st: State, step: SlotStep, t: TurnId)
    requires SlotEnabled(cfg, st, step) && !Recycled(st, step) && t in st.turns && QuietTurn(st, t)
    requires st.turns[t].phase.Held? ==> st.slots[st.turns[t].phase.slot].inUse
    ensures QuietTurn(SlotApply(cfg, st, step), t)
  {
    if st.turns[t].phase.Held? {
      var s := st.turns[t].phase.slot;
      if step.StartTurn? || step.s != s { SlotStepFrame(cfg, st, step, s); } else { TargetHolds(cfg, st, step); }
    }
    SlotStepTurnFrame(cfg, st, step, t);
    TurnQuiet(st, SlotApply(cfg, st, step), t);
  }

  lemma HeldIsInUse(cfg: Config, st: State, t: TurnId)
    requires Links(cfg, st) && t in st.turns && st.turns[t].phase.Held?
    ensures st.turns[t].phase.slot in st.slots && st.slots[st.turns[t].phase.slot].inUse
  {
    assert TurnLinked(cfg, st, t) && SlotOk(st.slots[st.turns[t].phase.slot]);
  }

  lemma SlotStepQuiet(cfg: Config, st: State, step: SlotStep)
    requires Safe(cfg, st) && Quiet(st) && SlotEnabled(cfg, st, step) && !Recycled(st, step)
    ensures Quiet(SlotApply(cfg, st, step))
  {
    var st' := SlotApply(cfg, st, step);
    forall t | t in st'.turns ensures QuietTurn(st', t) {
      if t in st.turns {
        assert QuietTurn(st, t);
        if st.turns[t].phase.Held? { HeldIsInUse(cfg, st, t); }
        SlotStepTurns(cfg, st, step, t);
      }
    }
    forall c | c in st'.children ensures Coherent(st'.children[c].log) { SlotLogs(cfg, st, step, c); }
  }

  lemma ReserveHolds(st: State, cb: Callback, s: SlotId)
    requires TimerEnabled(st, Reserve(cb)) && s in st.slots && st.slots[s].inUse
    ensures s in TimerApply(st, Reserve(cb)).slots && TimerApply(st, Reserve(cb)).slots[s] == st.slots[s]
  {
    if Reservable(st.slots[cb.slot], cb.epoch) { assert Detach(st, cb.slot).slots[s] == st.slots[s]; }
  }

  lemma TimerStepHolds(st: State, step: TimerStep, s: SlotId)
    requires TimerEnabled(st, step) && s in st.slots && st.slots[s].inUse
    ensures s in TimerApply(st, step).slots && Holds(st.slots[s], TimerApply(st, step).slots[s])
  {
    match step
    case Reserve(cb) => ReserveHolds(st, cb, s);
    case RunSchedule(_) =>
    case Fire(_) =>
    case Match(_) =>
    case Disarm(_) =>
  }

  lemma TimerStepTurnFrame(st: State, step: TimerStep)
    requires TimerEnabled(st, step)
    ensures TimerApply(st, step).turns == st.turns
  {
  }

  lemma TimerStepTurns(st: State, step: TimerStep, t: TurnId)
    requires TimerEnabled(st, step) && t in st.turns && QuietTurn(st, t)
    requires st.turns[t].phase.Held? ==> st.slots[st.turns[t].phase.slot].inUse
    ensures t in TimerApply(st, step).turns && QuietTurn(TimerApply(st, step), t)
  {
    TimerStepTurnFrame(st, step);
    if st.turns[t].phase.Held? { TimerStepHolds(st, step, st.turns[t].phase.slot); }
    TurnQuiet(st, TimerApply(st, step), t);
  }

  lemma TimerStepQuiet(cfg: Config, st: State, step: TimerStep)
    requires Safe(cfg, st) && Quiet(st) && TimerEnabled(st, step)
    ensures Quiet(TimerApply(st, step))
  {
    var st' := TimerApply(st, step);
    TimerStepTurnFrame(st, step);
    forall t | t in st'.turns ensures QuietTurn(st', t) {
      assert QuietTurn(st, t);
      if st.turns[t].phase.Held? { HeldIsInUse(cfg, st, t); }
      TimerStepTurns(st, step, t);
    }
    forall c | c in st'.children ensures Coherent(st'.children[c].log) { TimerLogs(st, step, c); }
  }

  /** One turn moves, outside or at the edge of a claim, and every slot keeps what plans rely on. */
  lemma EdgeQuiet(st: State, st': State, t: TurnId)
    requires Quiet(st)
    requires forall x :: x in st'.turns && x != t ==> x in st.turns && st'.turns[x] == st.turns[x]
    requires forall s :: s in st.slots ==> s in st'.slots && Holds(st.slots[s], st'.slots[s])
    requires t in st'.turns ==> QuietTurn(st', t)
    requires forall c :: c in st'.children ==> Coherent(st'.children[c].log)
    ensures Quiet(st')
  {
    forall x | x in st'.turns ensures QuietTurn(st', x) {
      if x != t { TurnQuiet(st, st', x); }
    }
  }

  lemma PhaseQuiet(st: State, t: TurnId, phase: Phase)
    requires Quiet(st) && t in st.turns && !phase.Held?
    ensures Quiet(SetPhase(st, t, phase))
  {
    EdgeQuiet(st, SetPhase(st, t, phase), t);
  }

  lemma TakeClaimQuiet(st: State, t: TurnId, s: SlotId)
    requires Quiet(st) && t in st.turns && s in st.slots
    ensures Quiet(TakeClaim(st, t, s))
  {
    EdgeQuiet(st, TakeClaim(st, t, s), t);
  }

  lemma UnheldQuiet(cfg: Config, st: State, t: TurnId, step: ClaimStep)
    requires Quiet(st) && ClaimEnabled(st, t, step) && !st.turns[t].phase.Held?
    ensures Quiet(ClaimApply(st, t, step))
  {
    PhaseQuiet(st, t, Opening);
    PhaseQuiet(st, t, Done);
    match step
    case ResolveSlot => PhaseQuiet(st, t, Resolved(st.pools[st.turns[t].key]));
    case TryClaim => TakeClaimQuiet(st, t, st.turns[t].phase.slot);
    case GiveUp =>
  }

  lemma RefuseQuiet(st: State, t: TurnId, owner: SlotId)
    requires Quiet(st) && SpawnEnabled(st, t, Refuse(owner))
    ensures Quiet(SpawnApply(st, t, Refuse(owner)))
  {
    var st' := SpawnApply(st, t, Refuse(owner));
    forall c | c in st'.children ensures Coherent(st'.children[c].log) { SpawnLogs(st, t, Refuse(owner), c); }
    assert QuietTurn(st, t) && QuietTurn(st', t);
    EdgeQuiet(st, st', t);
  }

  lemma ReleaseSlotQuiet(cfg: Config, st: State, key: RuntimeKey, s: SlotId, t: TurnId)
    requires Quiet(st) && s in st.slots && t in st.turns
    ensures Quiet(ReleaseSlot(cfg, st, key, s))
  {
    var st' := ReleaseSlot(cfg, st, key, s);
    TurnQuiet(st, st', t);
    EdgeQuiet(st, st', t);
  }

  lemma ReleaseQuiet(cfg: Config, st: State, t: TurnId)
    requires Quiet(st) && CloseEnabled(st, t, Release)
    ensures Quiet(CloseApply(cfg, st, t, Release))
  {
    var key := st.turns[t].key;
    PhaseQuiet(st, t, Done);
    if key in st.pools { ReleaseSlotQuiet(cfg, SetPhase(st, t, Done), key, st.pools[key], t); }
  }

  // ----- Continuity -----

  lemma HolderQuiet(cfg: Config, st: State, step: Step)
    requires Inv(cfg, st) && Quiet(st) && Enabled(cfg, st, step) && HolderStep(st, step)
    ensures Quiet(Apply(cfg, st, step))
  {
    var st' := Apply(cfg, st, step);
    var s := st.turns[step.t].phase.slot;
    HereHolds(cfg, st, step.t);
    assert QuietTurn(st, step.t);
    HolderStepQuiet(cfg, st, step, s);
    var c := HolderStepIsLocal(cfg, st, step);
    if c.Some? { StepLogs(cfg, st, step, c.value); }
    QuietLocal(cfg, st, st', step.t, s, c);
  }

  lemma StepQuiet(cfg: Config, st: State, step: Step)
    requires Inv(cfg, st) && Quiet(st) && Enabled(cfg, st, step) && !(step.BySlot? && Recycled(st, step.slotStep))
    ensures Quiet(Apply(cfg, st, step))
  {
    if HolderStep(st, step) {
      HolderQuiet(cfg, st, step);
    } else {
      match step
      case BySlot(x) => SlotStepQuiet(cfg, st, x);
      case ByTimer(x) => TimerStepQuiet(cfg, st, x);
      case ByClaim(t, x) => UnheldQuiet(cfg, st, t, x);
      case BySpawn(t, x) => RefuseQuiet(st, t, x.owner);
      case ByClose(t, x) => ReleaseQuiet(cfg, st, t);
    }
  }

  /** Where no retirement overlooks an incomplete cleanup, none that failed ends confirmed. */
  lemma NoneRecycled(cfg: Config, st: State, step: SlotStep)
    requires SlotEnabled(cfg, st, step) && cfg.LearnsCleanup()
    requires !cfg.reportsCleanup ==> forall s :: Clean(st, s)
    ensures !Recycled(st, step)
  {
    if step.FinishRetirement? { assert !cfg.reportsCleanup ==> Clean(st, step.s); }
  }

  lemma {:induction false} RunsStayQuiet(cfg: Config, st: State, steps: seq<Step>)
    requires Inv(cfg, st) && Quiet(st) && Runs(cfg, st, steps) && cfg.LearnsCleanup()
    requires !cfg.reportsCleanup ==> forall s :: Clean(st, s)
    ensures Quiet(Final(cfg, st, steps))
    decreases |steps|
  {
    if steps != [] {
      var st' := Apply(cfg, st, steps[0]);
      StepKeepsInv(cfg, st, steps[0]);
      if steps[0].BySlot? { NoneRecycled(cfg, st, steps[0].slotStep); }
      StepQuiet(cfg, st, steps[0]);
      if !cfg.reportsCleanup {
        forall s ensures Clean(st', s) { StepClean(cfg, st, steps[0], s); }
      }
      RunsStayQuiet(cfg, st', steps[1..]);
    }
  }

  /** Transcript continuity, for every run of a pool whose processes never report an incomplete
      cleanup, as plain child processes, or offer WaitCleanup: the first prompt of every session of
      every child is the whole conversation, and each later one is whole or continues a conversation
      that session already received. */
  lemma SessionsAreContinuous(cfg: Config, steps: seq<Step>, c: Child)
    requires Runs(cfg, Init, steps) && cfg.LearnsCleanup()
    ensures var st := Final(cfg, Init, steps);
            c in st.children ==> Coherent(st.children[c].log)
  {
    InvHoldsInitially(cfg);
    RunsStayQuiet(cfg, Init, steps);
  }

  /** In every run of any pool, everything after a session's first prompt is continuous, so the
      session is continuous exactly if that first prompt is whole. */
  lemma LaterPromptsAreContinuous(cfg: Config, steps: seq<Step>, c: Child)
    requires Runs(cfg, Init, steps)
    ensures var st := Final(cfg, Init, steps);
            c in st.children ==>
              && TailCoherent(st.children[c].log)
              && (Coherent(st.children[c].log) <==> st.children[c].log == [] || st.children[c].log[0].Full())
              && (cfg.LearnsCleanup() ==> Coherent(st.children[c].log))
  {
    Reachable(cfg, steps);
    var st := Final(cfg, Init, steps);
    if c in st.children {
      CoherentIffFirstIsFull(st.children[c].log);
      if cfg.LearnsCleanup() { SessionsAreContinuous(cfg, steps, c); }
    }
  }
}
