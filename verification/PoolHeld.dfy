/** Every step of a turn that holds its claim is local. */
module PoolHeld {
  import opened Options
  import opened Transcript
  import opened PoolState
  import opened PoolSteps
  import opened PoolInv
  import opened PoolLocal

  /** The invariant, restricted to one held slot. */
  predicate Here(cfg: Config, st: State, t: TurnId, s: SlotId) {
    && HeldBy(st, t, s) && s in st.slots
    && SlotOk(st.slots[s]) && SlotLinked(st, s) && TurnLinked(cfg, st, t) && TurnStaged(st, t)
    && SlotOwns(st, s)
  }

  predicate Logged(st: State, s: SlotId) {
    && s in st.slots && SlotOwns(st, s) && SlotMarked(st, s)
    && (st.slots[s].proc.Some? ==>
          ChildPlaced(st, st.slots[s].proc.value) && TailCoherent(st.children[st.slots[s].proc.value].log))
  }

  lemma HereHolds(cfg: Config, st: State, t: TurnId)
    requires Safe(cfg, st) && t in st.turns && st.turns[t].phase.Held?
    ensures Here(cfg, st, t, st.turns[t].phase.slot) && Logged(st, st.turns[t].phase.slot)
  {
  }

  predicate SameHandles(sl: Slot, sl': Slot) {
    && SameOwner(sl, sl') && sl'.epoch == sl.epoch && sl'.claims == sl.claims
    && sl'.proc == sl.proc && sl'.retiring == sl.retiring && sl'.failed == sl.failed && sl'.withdrawn == sl.withdrawn
    && sl'.quarantined == sl.quarantined
  }

  predicate NextStage(st: State, st': State, t: TurnId, s: SlotId) {
    HeldBy(st, t, s) && HeldBy(st', t, s) && st'.turns == st.turns[t := st'.turns[t]] &&
    st'.turns[t].key == st.turns[t].key
  }

  /** The turn moves on; its slot keeps its handles and no child changes. */
  predicate Tweak(cfg: Config, st: State, st': State, t: TurnId, s: SlotId) {
    && NextStage(st, st', t, s) && !st.turns[t].phase.stage.Spawned?
    && st'.pools == st.pools && st'.retirements == st.retirements && st'.children == st.children
    && st'.callbacks == st.callbacks && st'.schedules == st.schedules
    && (st'.timers == st.timers || st'.timers == st.timers - {st.turns[t].key})
    && s in st.slots && s in st'.slots && st'.slots == st.slots[s := st'.slots[s]]
    && SameHandles(st.slots[s], st'.slots[s]) && SlotOk(st'.slots[s])
    && (st'.slots[s].history == st.slots[s].history || SlotMarked(st', s))
    && FlightsMove(st, st', t) && GateMove(st, st', t)
    && TurnLinked(cfg, st', t) && TurnStaged(st', t)
  }

  lemma TweakIsLocal(cfg: Config, st: State, st': State, t: TurnId, s: SlotId)
    requires Here(cfg, st, t, s) && Logged(st, s) && Tweak(cfg, st, st', t, s)
    ensures LocalOk(cfg, st, st', t, s, None)
  {
  }

  // ----- Steps that only move the turn on -----

  lemma MovesOn(cfg: Config, st: State, t: TurnId, s: SlotId, stage: Stage)
    requires Here(cfg, st, t, s) && !st.turns[t].phase.stage.Spawned?
    requires TurnLinked(cfg, SetStage(st, t, stage), t) && TurnStaged(SetStage(st, t, stage), t)
    ensures Tweak(cfg, st, SetStage(st, t, stage), t, s)
  {
  }

  lemma KillBegins(cfg: Config, st: State, t: TurnId, s: SlotId)
    requires Here(cfg, st, t, s) && KillEnabled(st, t, BeginKill)
    ensures Tweak(cfg, st, KillApply(st, t, BeginKill), t, s)
  {
  }

  lemma KillWaits(cfg: Config, st: State, t: TurnId, s: SlotId, step: KillStep)
    requires Here(cfg, st, t, s) && KillEnabled(st, t, step) && (step.AwaitKill?)
    ensures Tweak(cfg, st, KillApply(st, t, step), t, s)
  {
  }

  lemma KillReturnsPlain(cfg: Config, st: State, t: TurnId, s: SlotId)
    requires Here(cfg, st, t, s) && KillEnabled(st, t, KillReturn)
    requires var after := st.turns[t].phase.stage.after; after.ThenEnsure? || after.ThenBuild? || after.ThenUnwind?
    ensures Tweak(cfg, st, KillApply(st, t, KillReturn), t, s)
  {
  }

  lemma KillReturnsReset(cfg: Config, st: State, t: TurnId, s: SlotId)
    requires Here(cfg, st, t, s) && KillEnabled(st, t, KillReturn)
    requires var after := st.turns[t].phase.stage.after; after.ThenPlan? || after.ThenRelease?
    ensures Tweak(cfg, st, KillApply(st, t, KillReturn), t, s)
  {
  }

  lemma FlightJoins(cfg: Config, st: State, t: TurnId, s: SlotId)
    requires Here(cfg, st, t, s) && FlightEnabled(st, t, BeginFlight) && FlightKey(st.turns[t].key) in st.flights
    ensures Tweak(cfg, st, FlightApply(st, t, BeginFlight), t, s)
  {
  }

  lemma FlightLeads(cfg: Config, st: State, t: TurnId, s: SlotId)
    requires Here(cfg, st, t, s) && FlightEnabled(st, t, BeginFlight) && FlightKey(st.turns[t].key) !in st.flights
    ensures Tweak(cfg, st, FlightApply(st, t, BeginFlight), t, s)
  {
  }

  lemma FlightBegins(cfg: Config, st: State, t: TurnId, s: SlotId)
    requires Here(cfg, st, t, s) && FlightEnabled(st, t, BeginFlight)
    ensures Tweak(cfg, st, FlightApply(st, t, BeginFlight), t, s)
  {
    if FlightKey(st.turns[t].key) in st.flights { FlightJoins(cfg, st, t, s); } else { FlightLeads(cfg, st, t, s); }
  }

  lemma FlightMoves(cfg: Config, st: State, t: TurnId, s: SlotId, step: FlightStep)
    requires Here(cfg, st, t, s) && FlightEnabled(st, t, step) && (step.Resume? || step.LeaderKill?)
    ensures Tweak(cfg, st, FlightApply(st, t, step), t, s)
  {
  }

  lemma FlightEnds(cfg: Config, st: State, t: TurnId, s: SlotId, step: FlightStep)
    requires Here(cfg, st, t, s) && FlightEnabled(st, t, step) && (step.LeaderReady? || step.FinishFlight?)
    ensures Tweak(cfg, st, FlightApply(st, t, step), t, s)
  {
  }

  lemma FlightUnwinds(cfg: Config, st: State, t: TurnId, s: SlotId)
    requires Here(cfg, st, t, s) && FlightEnabled(st, t, UnwindFlight)
    ensures Tweak(cfg, st, FlightApply(st, t, UnwindFlight), t, s)
  {
  }

  lemma GateOpens(cfg: Config, st: State, t: TurnId, s: SlotId, step: GateStep)
    requires Here(cfg, st, t, s) && GateEnabled(cfg, st, t, step) && (step.AcquireGate? || step.SkipGate?)
    ensures Tweak(cfg, st, GateApply(cfg, st, t, step), t, s)
  {
  }

  lemma GateReleases(cfg: Config, st: State, t: TurnId, s: SlotId)
    requires Here(cfg, st, t, s) && GateEnabled(cfg, st, t, ReleaseGate) && (cfg.maxRuntimes == 0 ==> st.gate.None?)
    ensures Tweak(cfg, st, GateApply(cfg, st, t, ReleaseGate), t, s)
  {
  }

  lemma GateUnwinds(cfg: Config, st: State, t: TurnId, s: SlotId)
    requires Here(cfg, st, t, s) && GateEnabled(cfg, st, t, UnwindGate)
    ensures Tweak(cfg, st, GateApply(cfg, st, t, UnwindGate), t, s)
  {
  }

  lemma Counts(cfg: Config, st: State, t: TurnId, s: SlotId, step: GateStep)
    requires Here(cfg, st, t, s) && GateEnabled(cfg, st, t, step) && (step.BeginCount? || step.CountSlot?)
    ensures Tweak(cfg, st, GateApply(cfg, st, t, step), t, s)
  {
  }

  lemma CountEnds(cfg: Config, st: State, t: TurnId, s: SlotId, step: GateStep)
    requires Here(cfg, st, t, s) && GateEnabled(cfg, st, t, step) && (step.EndCount? || step.BuildAbort?)
    ensures Tweak(cfg, st, GateApply(cfg, st, t, step), t, s)
  {
  }

  lemma HandshakeEnds(cfg: Config, st: State, t: TurnId, s: SlotId)
    requires Here(cfg, st, t, s) && SpawnEnabled(st, t, HandshakeOk)
    ensures Tweak(cfg, st, SpawnApply(st, t, HandshakeOk), t, s)
  {
  }

  lemma HandshakeBreaks(cfg: Config, st: State, t: TurnId, s: SlotId)
    requires Here(cfg, st, t, s) && SpawnEnabled(st, t, HandshakeFails)
    ensures Tweak(cfg, st, SpawnApply(st, t, HandshakeFails), t, s)
  {
  }

  lemma Validates(cfg: Config, st: State, t: TurnId, s: SlotId, step: PlanStep)
    requires Here(cfg, st, t, s) && PlanEnabled(st, t, step) && (step.ValidateReuse?)
    ensures Tweak(cfg, st, PlanApply(st, t, step), t, s)
  {
  }

  lemma EnsureEnds(cfg: Config, st: State, t: TurnId, s: SlotId, step: PlanStep)
    requires Here(cfg, st, t, s) && PlanEnabled(st, t, step) && (step.CheckReady? || step.EnsureFails?)
    ensures Tweak(cfg, st, PlanApply(st, t, step), t, s)
  {
  }

  lemma Reads(cfg: Config, st: State, t: TurnId, s: SlotId)
    requires Here(cfg, st, t, s) && Logged(st, s) && PlanEnabled(st, t, ReadHistory)
    ensures Tweak(cfg, st, PlanApply(st, t, ReadHistory), t, s)
  {
  }

  lemma Fingerprints(cfg: Config, st: State, t: TurnId, s: SlotId, step: PlanStep)
    requires Here(cfg, st, t, s) && PlanEnabled(st, t, step) && (step.Fingerprint?)
    ensures Tweak(cfg, st, PlanApply(st, t, step), t, s)
  {
  }

  lemma PromptFails(cfg: Config, st: State, t: TurnId, s: SlotId, step: PromptStep)
    requires Here(cfg, st, t, s) && PromptEnabled(st, t, step) && (step.SendFails? && !step.delivered)
    ensures Tweak(cfg, st, PromptApply(st, t, step), t, s)
  {
  }

  lemma CommitsMarker(cfg: Config, st: State, t: TurnId, s: SlotId, next: HistoryState)
    requires Here(cfg, st, t, s) && st.turns[t].phase.stage.Sent?
    requires var c := st.turns[t].phase.stage.child; c in st.children && Described(st.children[c].log, next)
    ensures Tweak(cfg, st, SetStage(SetSlot(st, s, st.slots[s].(history := next)), t, Streaming), t, s)
  {
    var st' := SetStage(SetSlot(st, s, st.slots[s].(history := next)), t, Streaming);
    assert st'.slots[s].proc == Some(st.turns[t].phase.stage.child) && st'.slots[s].initialized;
    assert SlotMarked(st', s);
    assert SlotOk(st'.slots[s]) && SameHandles(st.slots[s], st'.slots[s]);
    assert TurnLinked(cfg, st', t) && TurnStaged(st', t);
  }

  lemma Commits(cfg: Config, st: State, t: TurnId, s: SlotId)
    requires Here(cfg, st, t, s) && PromptEnabled(st, t, Commit)
    ensures Tweak(cfg, st, PromptApply(st, t, Commit), t, s)
  {
    var stage := st.turns[t].phase.stage;
    CommitsMarker(cfg, st, t, s, NextHistory(st.turns[t].messages, stage.plan.base));
  }

  lemma Closes(cfg: Config, st: State, t: TurnId, s: SlotId)
    requires Here(cfg, st, t, s) && CloseEnabled(st, t, CloseClean)
    ensures Tweak(cfg, st, CloseApply(cfg, st, t, CloseClean), t, s)
  {
  }

  lemma Rechecks(cfg: Config, st: State, t: TurnId, s: SlotId)
    requires Here(cfg, st, t, s) && ClaimEnabled(st, t, Recheck)
    ensures Tweak(cfg, st, ClaimApply(st, t, Recheck), t, s)
  {
  }

  lemma Cancels(cfg: Config, st: State, t: TurnId, s: SlotId)
    requires Here(cfg, st, t, s) && ClaimEnabled(st, t, CancelClaim)
    ensures Tweak(cfg, st, ClaimApply(st, t, CancelClaim), t, s)
  {
  }

  // ----- Steps that detach the live child -----

  lemma DetachIsLocal(cfg: Config, st: State, t: TurnId, s: SlotId, stage: Stage)
    requires Here(cfg, st, t, s) && Logged(st, s) && st.slots[s].proc.Some? && !st.turns[t].phase.stage.Spawned?
    requires var st' := SetStage(Detach(st, s), t, stage); TurnLinked(cfg, st', t) && TurnStaged(st', t)
    ensures LocalOk(cfg, st, SetStage(Detach(st, s), t, stage), t, s, st.slots[s].proc)
  {
  }

  predicate KillDetaches(sl: Slot) {
    sl.retiring.None? && !sl.cleanupErr && sl.proc.Some?
  }

  /** Nothing to kill, or a retirement to wait for. */
  lemma KillStays(cfg: Config, st: State, t: TurnId, s: SlotId)
    requires Here(cfg, st, t, s) && KillEnabled(st, t, KillLock) && !KillDetaches(st.slots[s])
    ensures Tweak(cfg, st, KillApply(st, t, KillLock), t, s)
  {
    var st' := KillApply(st, t, KillLock);
    var stage := st.turns[t].phase.stage;
    var sl := st.slots[s];
    var next := if sl.retiring.Some? then AwaitingKill(s, stage.after) else Killed(stage.after, !sl.cleanupErr);
    assert st' == SetStage(st, t, next);
    assert TurnLinked(cfg, st', t) && TurnStaged(st', t);
    MovesOn(cfg, st, t, s, next);
  }

  lemma KillTakes(cfg: Config, st: State, t: TurnId, s: SlotId)
    requires Here(cfg, st, t, s) && Logged(st, s) && KillEnabled(st, t, KillLock) && KillDetaches(st.slots[s])
    ensures LocalOk(cfg, st, KillApply(st, t, KillLock), t, s, st.slots[s].proc)
  {
    var stage := st.turns[t].phase.stage;
    DetachIsLocal(cfg, st, t, s, AwaitingKill(stage.rt, stage.after));
  }

  lemma KillLocks(cfg: Config, st: State, t: TurnId, s: SlotId)
    requires Here(cfg, st, t, s) && Logged(st, s) && KillEnabled(st, t, KillLock)
    ensures var st' := KillApply(st, t, KillLock);
            Tweak(cfg, st, st', t, s) || LocalOk(cfg, st, st', t, s, st.slots[s].proc)
  {
    if KillDetaches(st.slots[s]) { KillTakes(cfg, st, t, s); } else { KillStays(cfg, st, t, s); }
  }

  lemma ClaimDetaches(cfg: Config, st: State, t: TurnId, s: SlotId)
    requires Here(cfg, st, t, s) && Logged(st, s) && ClaimEnabled(st, t, DetachForClaim)
    ensures var st' := ClaimApply(st, t, DetachForClaim);
            Tweak(cfg, st, st', t, s) || LocalOk(cfg, st, st', t, s, st.slots[s].proc)
  {
    if st.slots[s].proc.Some? { DetachIsLocal(cfg, st, t, s, Rechecking); }
  }

  lemma TurnDetaches(cfg: Config, st: State, t: TurnId, s: SlotId)
    requires Here(cfg, st, t, s) && Logged(st, s) && CloseEnabled(st, t, DetachTurn)
    ensures LocalOk(cfg, st, CloseApply(cfg, st, t, DetachTurn), t, s, st.slots[s].proc)
  {
    DetachIsLocal(cfg, st, t, s, Releasing);
  }

  // ----- Steps that change a child -----

  lemma Spawns(cfg: Config, st: State, t: TurnId, s: SlotId, step: SpawnStep)
    requires Here(cfg, st, t, s) && Logged(st, s) && SpawnEnabled(st, t, step) && (step.Spawn?)
    ensures LocalOk(cfg, st, SpawnApply(st, t, step), t, s, Some(step.c))
  {
  }

  lemma Registers(cfg: Config, st: State, t: TurnId, s: SlotId)
    requires Here(cfg, st, t, s) && Logged(st, s) && SpawnEnabled(st, t, Register)
    ensures LocalOk(cfg, st, SpawnApply(st, t, Register), t, s, Some(st.turns[t].phase.stage.child))
  {
  }

  /** A session starts over: the log of the live child and the marker of its slot become empty. */
  lemma FreshSessionIsLocal(cfg: Config, st: State, t: TurnId, s: SlotId, c: Child, stage: Stage)
    requires Here(cfg, st, t, s) && Logged(st, s) && st.slots[s].proc == Some(c) && !st.turns[t].phase.stage.Spawned?
    requires SlotOk(st.slots[s].(history := Zero))
    requires var st' := SetStage(NewSession(SetSlot(st, s, st.slots[s].(history := Zero)), c), t, stage);
             TurnLinked(cfg, st', t) && TurnStaged(st', t)
    ensures var st' := SetStage(NewSession(SetSlot(st, s, st.slots[s].(history := Zero)), c), t, stage);
            LocalOk(cfg, st, st', t, s, Some(c))
  {
  }

  lemma Rotates(cfg: Config, st: State, t: TurnId, s: SlotId)
    requires Here(cfg, st, t, s) && Logged(st, s) && PromptEnabled(st, t, Rotate)
    ensures LocalOk(cfg, st, PromptApply(st, t, Rotate), t, s, Some(st.turns[t].phase.stage.child))
  {
    var stage := st.turns[t].phase.stage;
    FreshSessionIsLocal(cfg, st, t, s, stage.child, Ready(Plan(Zero, stage.plan.source), stage.child));
  }

  lemma DescribedGrows(log: seq<Prompt>, p: Prompt, h: HistoryState)
    requires Described(log, h)
    ensures Described(log + [p], h)
  {
    var j :| 0 <= j < |log| && Marks(log[j].messages, h);
    assert (log + [p])[j] == log[j];
  }

  lemma TailCoherentGrows(log: seq<Prompt>, p: Prompt)
    requires TailCoherent(log) && (log == [] || p.Full() || Described(log, p.base))
    ensures TailCoherent(log + [p])
  {
    forall i | 1 <= i < |log + [p]| ensures Extends(log + [p], i) {
      if i < |log| {
        assert Extends(log, i) && (log + [p])[..i] == log[..i];
      } else {
        assert (log + [p])[..i] == log;
      }
    }
  }

  /** The prompt a turn delivers leaves its session's log continuous after the first prompt, and
      the marker it will commit describes that log. */
  lemma DeliveredOk(st: State, turn: Turn, plan: Plan, c: Child)
    requires PromptOk(st.children, turn, plan, c) && TailCoherent(st.children[c].log)
    ensures var log := st.children[c].log + [Prompt(turn.messages, plan.base)];
            TailCoherent(log) && Described(log, NextHistory(turn.messages, plan.base))
  {
    var p := Prompt(turn.messages, plan.base);
    TailCoherentGrows(st.children[c].log, p);
    CommittedMarkerDescribesCall(turn.messages, plan.base);
    assert (st.children[c].log + [p])[|st.children[c].log|] == p;
  }

  lemma MarkSurvives(st: State, s: SlotId, p: Prompt)
    requires s in st.slots && st.slots[s].proc.Some? && SlotMarked(st, s)
    ensures SlotMarked(Deliver(st, st.slots[s].proc.value, p), s)
  {
    if !Fresh(st.slots[s].history) {
      DescribedGrows(st.children[st.slots[s].proc.value].log, p, st.slots[s].history);
    }
  }

  lemma DeliverIsLocal(cfg: Config, st: State, t: TurnId, s: SlotId, c: Child, p: Prompt, stage: Stage)
    requires Here(cfg, st, t, s) && Logged(st, s) && st.slots[s].proc == Some(c) && !st.turns[t].phase.stage.Spawned?
    requires TailCoherent(st.children[c].log + [p])
    requires var st' := SetStage(Deliver(st, c, p), t, stage); TurnLinked(cfg, st', t) && TurnStaged(st', t)
    ensures LocalOk(cfg, st, SetStage(Deliver(st, c, p), t, stage), t, s, Some(c))
  {
    MarkSurvives(st, s, p);
  }

  lemma Sends(cfg: Config, st: State, t: TurnId, s: SlotId)
    requires Here(cfg, st, t, s) && Logged(st, s) && PromptEnabled(st, t, SendOk)
    ensures LocalOk(cfg, st, PromptApply(st, t, SendOk), t, s, Some(st.turns[t].phase.stage.child))
  {
    var turn := st.turns[t];
    var stage := turn.phase.stage;
    DeliveredOk(st, turn, stage.plan, stage.child);
    DeliverIsLocal(cfg, st, t, s, stage.child, Prompt(turn.messages, stage.plan.base), Sent(stage.plan, stage.child));
  }

  lemma SendsThenFails(cfg: Config, st: State, t: TurnId, s: SlotId, step: PromptStep)
    requires Here(cfg, st, t, s) && Logged(st, s) && PromptEnabled(st, t, step) && step.SendFails? && step.delivered
    ensures LocalOk(cfg, st, PromptApply(st, t, step), t, s, Some(st.turns[t].phase.stage.child))
  {
    var turn := st.turns[t];
    var stage := turn.phase.stage;
    DeliveredOk(st, turn, stage.plan, stage.child);
    DeliverIsLocal(cfg, st, t, s, stage.child, Prompt(turn.messages, stage.plan.base),
                   if step.kill then KillDue(ThenRelease) else Releasing);
  }

  lemma Withdraws(cfg: Config, st: State, t: TurnId, s: SlotId)
    requires Here(cfg, st, t, s) && Logged(st, s) && CloseEnabled(st, t, CloseWithdrawn)
    ensures LocalOk(cfg, st, CloseApply(cfg, st, t, CloseWithdrawn), t, s, st.slots[s].proc)
  {
    var st' := CloseApply(cfg, st, t, CloseWithdrawn);
    assert SlotOk(st'.slots[s]) && TurnLinked(cfg, st', t) && TurnStaged(st', t);
  }
}
