/** Every step keeps the invariant, except for the capacity bound. */
module PoolSafety {
  import opened Options
  import opened PoolState
  import opened PoolSteps
  import opened PoolInv
  import opened PoolLocal
  import opened PoolHeld
  import opened PoolEnv
  import opened PoolTimers
  import opened PoolClaims

  /** The child a step of a claim holder changes, if any; nothing else but its slot and turn moves. */
  lemma ClaimIsLocal(cfg: Config, st: State, t: TurnId, step: ClaimStep) returns (c: Option<Child>)
    requires Safe(cfg, st) && ClaimEnabled(st, t, step) && st.turns[t].phase.Held?
    ensures LocalOk(cfg, st, ClaimApply(st, t, step), t, st.turns[t].phase.slot, c)
  {
    var s := st.turns[t].phase.slot;
    var st' := ClaimApply(st, t, step);
    HereHolds(cfg, st, t);
    c := None;
    if step.DetachForClaim? {
      ClaimDetaches(cfg, st, t, s);
      if !Tweak(cfg, st, st', t, s) { return st.slots[s].proc; }
    } else if step.Recheck? {
      Rechecks(cfg, st, t, s);
    } else {
      Cancels(cfg, st, t, s);
    }
    TweakIsLocal(cfg, st, st', t, s);
  }

  lemma ClaimStepSafe(cfg: Config, st: State, t: TurnId, step: ClaimStep)
    requires Safe(cfg, st) && ClaimEnabled(st, t, step) && !st.turns[t].phase.Held?
    ensures Safe(cfg, ClaimApply(st, t, step))
  {
    match step
    case ResolveSlot =>
      assert KeyLinked(st, st.turns[t].key);
      UnheldSafe(cfg, st, t, Resolved(st.pools[st.turns[t].key]));
    case TryClaim => TryClaimSafe(cfg, st, t);
    case GiveUp => UnheldSafe(cfg, st, t, Done);
  }

  lemma TryClaimSafe(cfg: Config, st: State, t: TurnId)
    requires Safe(cfg, st) && ClaimEnabled(st, t, TryClaim)
    ensures Safe(cfg, ClaimApply(st, t, TryClaim))
  {
    if Claimable(st.slots[st.turns[t].phase.slot]) {
      ClaimSafe(cfg, st, t, st.turns[t].phase.slot);
    } else {
      UnheldSafe(cfg, st, t, Opening);
      UnheldSafe(cfg, st, t, Done);
    }
  }

  lemma KillIsLocal(cfg: Config, st: State, t: TurnId, step: KillStep) returns (c: Option<Child>)
    requires Safe(cfg, st) && KillEnabled(st, t, step)
    ensures LocalOk(cfg, st, KillApply(st, t, step), t, st.turns[t].phase.slot, c)
  {
    var s := st.turns[t].phase.slot;
    var st' := KillApply(st, t, step);
    HereHolds(cfg, st, t);
    c := None;
    match step {
      case BeginKill => KillBegins(cfg, st, t, s);
      case KillLock =>
        KillLocks(cfg, st, t, s);
        if !Tweak(cfg, st, st', t, s) { return st.slots[s].proc; }
      case AwaitKill(_) => KillWaits(cfg, st, t, s, step);
      case KillReturn =>
        var after := st.turns[t].phase.stage.after;
        if after.ThenPlan? || after.ThenRelease? { KillReturnsReset(cfg, st, t, s); }
        else { KillReturnsPlain(cfg, st, t, s); }
    }
    TweakIsLocal(cfg, st, st', t, s);
  }

  lemma FlightIsLocal(cfg: Config, st: State, t: TurnId, step: FlightStep)
    requires Safe(cfg, st) && FlightEnabled(st, t, step)
    ensures LocalOk(cfg, st, FlightApply(st, t, step), t, st.turns[t].phase.slot, None)
  {
    var s := st.turns[t].phase.slot;
    HereHolds(cfg, st, t);
    match step {
      case BeginFlight => FlightBegins(cfg, st, t, s);
      case Resume => FlightMoves(cfg, st, t, s, step);
      case LeaderReady => FlightEnds(cfg, st, t, s, step);
      case LeaderKill => FlightMoves(cfg, st, t, s, step);
      case FinishFlight => FlightEnds(cfg, st, t, s, step);
      case UnwindFlight => FlightUnwinds(cfg, st, t, s);
    }
    TweakIsLocal(cfg, st, FlightApply(st, t, step), t, s);
  }

  lemma GateIsLocal(cfg: Config, st: State, t: TurnId, step: GateStep)
    requires Safe(cfg, st) && GateOk(cfg, st) && GateEnabled(cfg, st, t, step)
    ensures LocalOk(cfg, st, GateApply(cfg, st, t, step), t, st.turns[t].phase.slot, None)
  {
    var s := st.turns[t].phase.slot;
    HereHolds(cfg, st, t);
    match step {
      case AcquireGate => GateOpens(cfg, st, t, s, step);
      case SkipGate => GateOpens(cfg, st, t, s, step);
      case BeginCount => Counts(cfg, st, t, s, step);
      case CountSlot(_) => Counts(cfg, st, t, s, step);
      case EndCount => CountEnds(cfg, st, t, s, step);
      case BuildAbort => CountEnds(cfg, st, t, s, step);
      case ReleaseGate => GateReleases(cfg, st, t, s);
      case UnwindGate => GateUnwinds(cfg, st, t, s);
    }
    TweakIsLocal(cfg, st, GateApply(cfg, st, t, step), t, s);
  }

  lemma SpawnIsLocal(cfg: Config, st: State, t: TurnId, step: SpawnStep) returns (c: Option<Child>)
    requires Safe(cfg, st) && SpawnEnabled(st, t, step) && !step.Refuse?
    ensures LocalOk(cfg, st, SpawnApply(st, t, step), t, st.turns[t].phase.slot, c)
  {
    var s := st.turns[t].phase.slot;
    HereHolds(cfg, st, t);
    match step {
      case Spawn(x) => Spawns(cfg, st, t, s, step); return Some(x);
      case Register => Registers(cfg, st, t, s); return Some(st.turns[t].phase.stage.child);
      case HandshakeOk => HandshakeEnds(cfg, st, t, s);
      case HandshakeFails => HandshakeBreaks(cfg, st, t, s);
    }
    TweakIsLocal(cfg, st, SpawnApply(st, t, step), t, s);
    c := None;
  }

  lemma PlanIsLocal(cfg: Config, st: State, t: TurnId, step: PlanStep)
    requires Safe(cfg, st) && PlanEnabled(st, t, step)
    ensures LocalOk(cfg, st, PlanApply(st, t, step), t, st.turns[t].phase.slot, None)
  {
    var s := st.turns[t].phase.slot;
    HereHolds(cfg, st, t);
    match step {
      case ValidateReuse(_, _) => Validates(cfg, st, t, s, step);
      case ReadHistory => Reads(cfg, st, t, s);
      case CheckReady => EnsureEnds(cfg, st, t, s, step);
      case EnsureFails => EnsureEnds(cfg, st, t, s, step);
      case Fingerprint(_) => Fingerprints(cfg, st, t, s, step);
    }
    TweakIsLocal(cfg, st, PlanApply(st, t, step), t, s);
  }

  lemma PromptIsLocal(cfg: Config, st: State, t: TurnId, step: PromptStep) returns (c: Option<Child>)
    requires Safe(cfg, st) && PromptEnabled(st, t, step)
    ensures LocalOk(cfg, st, PromptApply(st, t, step), t, st.turns[t].phase.slot, c)
  {
    var s := st.turns[t].phase.slot;
    HereHolds(cfg, st, t);
    c := Some(st.turns[t].phase.stage.child);
    match step {
      case Rotate => Rotates(cfg, st, t, s); return;
      case SendOk => Sends(cfg, st, t, s); return;
      case SendFails(delivered, _) =>
        if delivered { SendsThenFails(cfg, st, t, s, step); return; }
        PromptFails(cfg, st, t, s, step);
      case Commit => Commits(cfg, st, t, s);
    }
    TweakIsLocal(cfg, st, PromptApply(st, t, step), t, s);
    c := None;
  }

  lemma CloseIsLocal(cfg: Config, st: State, t: TurnId, step: CloseStep) returns (c: Option<Child>)
    requires Safe(cfg, st) && CloseEnabled(st, t, step) && !step.Release?
    ensures LocalOk(cfg, st, CloseApply(cfg, st, t, step), t, st.turns[t].phase.slot, c)
  {
    var s := st.turns[t].phase.slot;
    HereHolds(cfg, st, t);
    match step
    case CloseClean =>
      Closes(cfg, st, t, s);
      TweakIsLocal(cfg, st, CloseApply(cfg, st, t, step), t, s);
      c := None;
    case CloseWithdrawn => Withdraws(cfg, st, t, s); c := st.slots[s].proc;
    case DetachTurn => TurnDetaches(cfg, st, t, s); c := st.slots[s].proc;
  }

  /** A step of a turn that holds its claim before and after. */
  predicate HolderStep(st: State, step: Step) {
    match step
    case BySlot(_) => false
    case ByTimer(_) => false
    case ByClaim(t, _) => t in st.turns && st.turns[t].phase.Held?
    case BySpawn(t, x) => !x.Refuse?
    case ByClose(t, x) => !x.Release?
    case _ => true
  }

  lemma HolderStepIsLocal(cfg: Config, st: State, step: Step) returns (c: Option<Child>)
    requires Safe(cfg, st) && GateOk(cfg, st) && Enabled(cfg, st, step) && HolderStep(st, step)
    ensures LocalOk(cfg, st, Apply(cfg, st, step), step.t, st.turns[step.t].phase.slot, c)
  {
    c := None;
    match step
    case ByClaim(t, x) => c := ClaimIsLocal(cfg, st, t, x);
    case ByKill(t, x) => c := KillIsLocal(cfg, st, t, x);
    case ByFlight(t, x) => FlightIsLocal(cfg, st, t, x);
    case ByGate(t, x) => GateIsLocal(cfg, st, t, x);
    case BySpawn(t, x) => c := SpawnIsLocal(cfg, st, t, x);
    case ByPlan(t, x) => PlanIsLocal(cfg, st, t, x);
    case ByPrompt(t, x) => c := PromptIsLocal(cfg, st, t, x);
    case ByClose(t, x) => c := CloseIsLocal(cfg, st, t, x);
  }

  lemma StepSafe(cfg: Config, st: State, step: Step)
    requires Safe(cfg, st) && GateOk(cfg, st) && Enabled(cfg, st, step)
    ensures Safe(cfg, Apply(cfg, st, step))
  {
    if HolderStep(st, step) {
      var c := HolderStepIsLocal(cfg, st, step);
      LocalSafe(cfg, st, Apply(cfg, st, step), step.t, st.turns[step.t].phase.slot, c);
    } else {
      match step
      case BySlot(x) => SlotStepSafe(cfg, st, x);
      case ByTimer(x) => TimerStepSafe(cfg, st, x);
      case ByClaim(t, x) => ClaimStepSafe(cfg, st, t, x);
      case BySpawn(t, x) => RefuseSafe(cfg, st, t, x.owner);
      case ByClose(t, x) => FreeSafe(cfg, st, t);
    }
  }
}
