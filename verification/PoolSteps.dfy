/** The steps of the pool, one per critical section. `Enabled` is the guard a thread has passed
    when it takes the step; time, context cancellation and the outcome of OS calls are free
    choices of the step. A thread that resolved a slot earlier may act on it at any later step. */
module PoolSteps {
  import opened Options
  import opened Transcript
  import opened PoolState

  // ----- Slots, reaper, evictor, retirements -----

  datatype SlotStep =
    | CreateSlot(s: SlotId, key: RuntimeKey)
    | StartTurn(t: TurnId, turn: Turn)
    | Reap(s: SlotId)
    | CancelAfterReap(s: SlotId)
    | Evict(s: SlotId)
    | FinishRetirement(s: SlotId, confirmed: bool)
    | MarkDeleted(s: SlotId)
    | Unlink(s: SlotId)
    | DropRetirement(s: SlotId)
    | TransportFails(s: SlotId)

  /** A cleanup error, of a live transport or of a retirement, comes from a process whose Wait reports
      one. A transport that reported a cleanup error returns it again when the retirement closes it, and
      an owner with WaitCleanup returns it from there; only the recycled PID of a process without
      WaitCleanup lets such a retirement end confirmed. */
  predicate SlotEnabled(cfg: Config, st: State, step: SlotStep) {
    match step
    case CreateSlot(s, key) => s !in st.slots && key !in st.pools
    case StartTurn(t, turn) => t !in st.turns && turn.phase.Opening?
    case Reap(s) =>
      s in st.slots && st.slots[s].published && Reapable(st.slots[s])
    case CancelAfterReap(s) => s in st.slots && st.slots[s].cancelDue
    case Evict(s) =>
      cfg.maxRuntimes > 0 && s in st.slots && st.slots[s].published && Evictable(st.slots[s])
    case FinishRetirement(s, confirmed) =>
      s in st.slots && st.slots[s].retiring.Some? && !st.slots[s].cancelDue &&
      (if confirmed then st.slots[s].retiringFailed ==> !cfg.joinsCleanup else cfg.reportsCleanup)
    case MarkDeleted(s) =>
      cfg.maxRuntimes > 0 && s in st.slots && Removable(st.slots[s])
    case Unlink(s) => Canonical(st, s) && st.slots[s].deleted
    case DropRetirement(s) =>
      s in st.retirements && s in st.slots && st.slots[s].retiring.None? && !st.slots[s].quarantined
    case TransportFails(s) => cfg.reportsCleanup && s in st.slots && st.slots[s].proc.Some?
  }

  function SlotApply(cfg: Config, st: State, step: SlotStep): State
    requires SlotEnabled(cfg, st, step)
  {
    match step
    case CreateSlot(s, key) => SetSlot(st, s, NewSlot(key)).(pools := st.pools[key := s])
    case StartTurn(t, turn) => st.(turns := st.turns[t := turn])
    case Reap(s) =>
      var st1 := Detach(st, s);
      SetSlot(st1, s, st1.slots[s].(cancelDue := true))
    case CancelAfterReap(s) =>
      SetSlot(st, s, st.slots[s].(cancelDue := false)).(timers := st.timers - {st.slots[s].key})
    case Evict(s) => Detach(st, s)
    case FinishRetirement(s, confirmed) => Retired(st, s, confirmed)
    case MarkDeleted(s) => SetSlot(st, s, st.slots[s].(deleted := true))
    case Unlink(s) => st.(pools := st.pools - {st.slots[s].key})
    case DropRetirement(s) => st.(retirements := st.retirements - {s})
    case TransportFails(s) => SetSlot(st, s, st.slots[s].(transportFailed := true))
  }

  /** The retirement goroutine re-locks the slot. */
  function Retired(st: State, s: SlotId, confirmed: bool): State
    requires s in st.slots && st.slots[s].retiring.Some?
  {
    var sl := st.slots[s];
    var c := sl.retiring.value;
    Move(SetSlot(st, s, RetiredSlot(sl, c, confirmed)), c, if confirmed then Gone else Failed(s))
  }

  // ----- Stale-kill timers -----

  datatype TimerStep =
    | RunSchedule(p: Schedule)
    | Fire(key: RuntimeKey)
    | Match(cb: Callback)
    | Reserve(cb: Callback)
    | Disarm(cb: Callback)

  predicate TimerEnabled(st: State, step: TimerStep) {
    match step
    case RunSchedule(p) => p in st.schedules && p.slot in st.slots
    case Fire(key) => key in st.timers && !st.timers[key].fired
    case Match(cb) => cb in st.callbacks && cb.at.Fired?
    case Reserve(cb) => cb in st.callbacks && cb.at.Matched? && cb.slot in st.slots
    case Disarm(cb) => cb in st.callbacks && cb.at.Disarming?
  }

  predicate Schedulable(st: State, p: Schedule)
    requires p.slot in st.slots
  {
    p.key in st.pools && st.pools[p.key] == p.slot && Armable(st.slots[p.slot], p.token)
  }

  function TimerApply(st: State, step: TimerStep): State
    requires TimerEnabled(st, step)
  {
    match step
    case RunSchedule(p) =>
      var st1 := st.(schedules := st.schedules - {p});
      if Schedulable(st, p) then
        var sl := st.slots[p.slot];
        SetSlot(st1, p.slot, sl.(epoch := sl.epoch + 1))
        .(timers := st.timers[p.key := Timer(sl.epoch + 1, p.slot, sl.claims, sl.proc.value, false)])
      else st1
    case Fire(key) =>
      var tm := st.timers[key];
      st.(timers := st.timers[key := tm.(fired := true)],
          callbacks := st.callbacks + {Callback(key, tm.slot, tm.epoch, tm.claims, tm.child, Fired)})
    case Match(cb) =>
      var same := cb.key in st.pools && st.pools[cb.key] == cb.slot;
      Advance(st, cb, if same then Matched else Disarming)
    case Reserve(cb) =>
      var st1 := if Reservable(st.slots[cb.slot], cb.epoch) then Detach(st, cb.slot) else st;
      Advance(st1, cb, Disarming)
    case Disarm(cb) =>
      var own := cb.key in st.timers && st.timers[cb.key].epoch == cb.epoch && st.timers[cb.key].slot == cb.slot;
      st.(timers := if own then st.timers - {cb.key} else st.timers, callbacks := st.callbacks - {cb})
  }

  function Advance(st: State, cb: Callback, at: CallbackAt): State {
    st.(callbacks := st.callbacks - {cb} + {cb.(at := at)})
  }

  // ----- Claims -----

  datatype ClaimStep =
    | ResolveSlot
    | TryClaim
    | GiveUp
    | DetachForClaim
    | Recheck
    | CancelClaim

  predicate ClaimEnabled(st: State, t: TurnId, step: ClaimStep) {
    t in st.turns && var turn := st.turns[t];
    match step
    case ResolveSlot => turn.phase.Opening? && turn.key in st.pools
    case TryClaim => turn.phase.Resolved? && turn.phase.slot in st.slots
    case GiveUp => turn.phase.Opening? || turn.phase.Resolved?
    case DetachForClaim => turn.phase.Held? && turn.phase.stage.Withdrawing? && turn.phase.slot in st.slots
    case Recheck => turn.phase.Held? && turn.phase.stage.Rechecking?
    case CancelClaim => turn.phase.Held? && turn.phase.stage.Claimed?
  }

  /** The claim is taken; the caller must retire a live child that cannot serve it. */
  function TakeClaim(st: State, t: TurnId, s: SlotId): State
    requires t in st.turns && s in st.slots
  {
    var turn := st.turns[t];
    var sl := st.slots[s];
    var reset := sl.withdrawn || (sl.proc.Some? && sl.initialized && sl.config != turn.want);
    var st1 := SetSlot(st, s, ClaimedSlot(sl, t));
    SetPhase(st1, t, Held(s, if reset then Withdrawing else Claimed)).(timers := st.timers - {turn.key})
  }

  function ClaimApply(st: State, t: TurnId, step: ClaimStep): State
    requires ClaimEnabled(st, t, step)
  {
    var turn := st.turns[t];
    match step
    case ResolveSlot => SetPhase(st, t, Resolved(st.pools[turn.key]))
    case TryClaim =>
      var sl := st.slots[turn.phase.slot];
      if Claimable(sl) then TakeClaim(st, t, turn.phase.slot)
      else if sl.deleted || sl.inUse || sl.spawning || sl.retiring.Some? then SetPhase(st, t, Opening)
      else SetPhase(st, t, Done)
    case GiveUp => SetPhase(st, t, Done)
    case DetachForClaim =>
      var s := turn.phase.slot;
      var st1 := if st.slots[s].retiring.None? && st.slots[s].proc.Some? then Detach(st, s) else st;
      SetStage(st1, t, Rechecking)
    case Recheck =>
      var unusable := turn.key in st.pools && st.pools[turn.key] in st.slots &&
                      var sl := st.slots[st.pools[turn.key]]; sl.quarantined || CleanupFailed(sl);
      SetStage(st, t, if unusable then Releasing else Claimed)
    case CancelClaim => SetStage(st, t, Releasing)
  }

  // ----- KillRuntimeContext -----

  datatype KillStep =
    | BeginKill
    | KillLock
    | AwaitKill(cancelled: bool)
    | KillReturn

  predicate KillEnabled(st: State, t: TurnId, step: KillStep) {
    t in st.turns && st.turns[t].phase.Held? && var stage := st.turns[t].phase.stage;
    match step
    case BeginKill => stage.KillDue?
    case KillLock => stage.Killing? && stage.rt in st.slots
    case AwaitKill(cancelled) =>
      stage.AwaitingKill? && stage.rt in st.slots && (cancelled || st.slots[stage.rt].retiring.None?)
    case KillReturn => stage.Killed? && st.turns[t].phase.slot in st.slots
  }

  function AfterKill(after: After, ok: bool): Stage {
    match after
    case ThenPlan(abort) => if abort then Releasing else Validated
    case ThenEnsure(plan) => Planned(plan)
    case ThenBuild(plan) => if ok then Cleared(plan) else Unwinding
    case ThenUnwind => Unwinding
    case ThenRelease => Releasing
  }

  function KillApply(st: State, t: TurnId, step: KillStep): State
    requires KillEnabled(st, t, step)
  {
    var key := st.turns[t].key;
    var stage := st.turns[t].phase.stage;
    match step
    case BeginKill =>
      if key in st.pools then
        SetStage(st, t, Killing(st.pools[key], stage.after)).(timers := st.timers - {key})
      else SetStage(st, t, Killed(stage.after, true))
    case KillLock =>
      var sl := st.slots[stage.rt];
      if sl.retiring.Some? then SetStage(st, t, AwaitingKill(stage.rt, stage.after))
      else if sl.cleanupErr then SetStage(st, t, Killed(stage.after, false))
      else if sl.proc.Some? then SetStage(Detach(st, stage.rt), t, AwaitingKill(stage.rt, stage.after))
      else SetStage(st, t, Killed(stage.after, true))
    case AwaitKill(cancelled) =>
      SetStage(st, t, Killed(stage.after, !cancelled && !st.slots[stage.rt].cleanupErr))
    case KillReturn =>
      var s := st.turns[t].phase.slot;
      var resets := stage.after.ThenPlan? || stage.after.ThenRelease?;
      var st1 := if resets then SetSlot(st, s, st.slots[s].(history := Zero)) else st;
      SetStage(st1, t, AfterKill(stage.after, stage.ok))
  }

  // ----- EnsureProcess: construction flights -----

  datatype FlightStep =
    | BeginFlight
    | Resume
    | LeaderReady
    | LeaderKill
    | FinishFlight
    | UnwindFlight

  predicate FlightEnabled(st: State, t: TurnId, step: FlightStep) {
    t in st.turns && st.turns[t].phase.Held? &&
    var turn := st.turns[t]; var stage := turn.phase.stage;
    match step
    case BeginFlight => stage.Planned? && !ReadyFor(st, turn.key, turn.want)
    case Resume => stage.Following?
    case LeaderReady => stage.Leading? && ReadyFor(st, turn.key, turn.want)
    case LeaderKill => stage.Leading? && !ReadyFor(st, turn.key, turn.want)
    case FinishFlight => stage.Built?
    case UnwindFlight => stage.Unwinding? && st.gate != Some(t)
  }

  function EndFlight(st: State, key: RuntimeKey): State {
    st.(flights := st.flights - {FlightKey(key)})
  }

  function FlightApply(st: State, t: TurnId, step: FlightStep): State
    requires FlightEnabled(st, t, step)
  {
    var turn := st.turns[t];
    var stage := turn.phase.stage;
    match step
    case BeginFlight =>
      if FlightKey(turn.key) in st.flights then SetStage(st, t, Following(stage.plan))
      else SetStage(st, t, Leading(stage.plan)).(flights := st.flights[FlightKey(turn.key) := t])
    case Resume => SetStage(st, t, Planned(stage.plan))
    case LeaderReady => EndFlight(SetStage(st, t, Planned(stage.plan)), turn.key)
    case LeaderKill => SetStage(st, t, KillDue(ThenBuild(stage.plan)))
    case FinishFlight => EndFlight(SetStage(st, t, Planned(stage.plan)), turn.key)
    case UnwindFlight => EndFlight(SetStage(st, t, Releasing), turn.key)
  }

  // ----- EnsureProcess: spawn gate and capacity -----

  datatype GateStep =
    | AcquireGate
    | SkipGate
    | BeginCount
    | CountSlot(x: SlotId)
    | EndCount
    | BuildAbort
    | ReleaseGate
    | UnwindGate

  predicate GateEnabled(cfg: Config, st: State, t: TurnId, step: GateStep) {
    t in st.turns && st.turns[t].phase.Held? && var stage := st.turns[t].phase.stage;
    match step
    case AcquireGate => stage.Cleared? && cfg.maxRuntimes > 0 && st.gate.None?
    case SkipGate => stage.Cleared? && cfg.maxRuntimes == 0
    case BeginCount => stage.Reserving?
    case CountSlot(x) => stage.Counting? && x in stage.todo && x in st.slots
    case EndCount => stage.Counting? && stage.todo == {}
    case BuildAbort => stage.Cleared? || stage.Reserving? || stage.Counting? || stage.Permitted?
    case ReleaseGate => stage.Registered?
    case UnwindGate => stage.Unwinding? && st.gate == Some(t)
  }

  /** The slots liveProcessCount will read, one at a time. */
  function Snapshot(st: State): set<SlotId> {
    (set k | k in st.pools :: st.pools[k]) + st.retirements
  }

  function GateApply(cfg: Config, st: State, t: TurnId, step: GateStep): State
    requires GateEnabled(cfg, st, t, step)
  {
    var stage := st.turns[t].phase.stage;
    match step
    case AcquireGate => SetStage(st, t, Reserving(stage.plan)).(gate := Some(t))
    case SkipGate => SetStage(st, t, Permitted(stage.plan))
    case BeginCount => SetStage(st, t, Counting(stage.plan, Snapshot(st), {}))
    case CountSlot(x) =>
      var hits := if MayBeLive(st.slots[x]) then stage.hits + {x} else stage.hits;
      SetStage(st, t, Counting(stage.plan, stage.todo - {x}, hits))
    case EndCount =>
      SetStage(st, t, if |stage.hits| + 1 <= cfg.maxRuntimes then Permitted(stage.plan) else Reserving(stage.plan))
    case BuildAbort => SetStage(st, t, Unwinding)
    case ReleaseGate =>
      SetStage(st, t, Handshaking(stage.plan)).(gate := if cfg.maxRuntimes > 0 then None else st.gate)
    case UnwindGate => st.(gate := None)
  }

  // ----- EnsureProcess: spawn, registration, handshake -----

  datatype SpawnStep =
    | Spawn(c: Child)
    | Register
    | Refuse(owner: SlotId)
    | HandshakeOk
    | HandshakeFails

  predicate SpawnEnabled(st: State, t: TurnId, step: SpawnStep) {
    t in st.turns && st.turns[t].phase.Held? &&
    var turn := st.turns[t]; var stage := turn.phase.stage;
    match step
    case Spawn(c) => stage.Permitted? && c !in st.children
    case Register =>
      stage.Spawned? && turn.key in st.pools && st.pools[turn.key] in st.slots &&
      Publishable(st.slots[st.pools[turn.key]])
    case Refuse(owner) => stage.Spawned? && owner !in st.slots
    case HandshakeOk => stage.Handshaking? && turn.key in st.pools && st.pools[turn.key] in st.slots
    case HandshakeFails => stage.Handshaking?
  }

  function SpawnApply(st: State, t: TurnId, step: SpawnStep): State
    requires SpawnEnabled(st, t, step)
  {
    var turn := st.turns[t];
    var stage := turn.phase.stage;
    match step
    case Spawn(c) =>
      SetStage(st, t, Spawned(stage.plan, c))
      .(children := st.children[c := ChildInfo(WithLeader(t), [], false)])
    case Register =>
      var s := st.pools[turn.key];
      Move(SetStage(SetSlot(st, s, Publish(st.slots[s], stage.child, turn.want)), t, Registered(stage.plan)),
           stage.child, Live(s))
    case Refuse(owner) =>
      Move(SetStage(SetSlot(st, owner, UnpublishedSlot(turn.key, stage.child)), t, Unwinding),
           stage.child, Retiring(owner)).(retirements := st.retirements + {owner})
    case HandshakeOk =>
      var s := st.pools[turn.key];
      var sl := st.slots[s];
      if sl.retiring.Some? || sl.proc.None? || sl.quarantined then SetStage(st, t, Unwinding)
      else SetStage(SetSlot(st, s, sl.(spawning := false, initialized := true)), t, Built(stage.plan))
    case HandshakeFails => SetStage(st, t, KillDue(ThenUnwind))
  }

  // ----- runTurn up to the live process -----

  datatype PlanStep =
    | ValidateReuse(kill: bool, abort: bool)
    | ReadHistory
    | CheckReady
    | EnsureFails
    | Fingerprint(config: string)

  predicate PlanEnabled(st: State, t: TurnId, step: PlanStep) {
    t in st.turns && st.turns[t].phase.Held? && st.turns[t].phase.slot in st.slots &&
    var turn := st.turns[t]; var stage := turn.phase.stage;
    match step
    case ValidateReuse(kill, abort) => stage.Claimed? && (abort ==> kill)
    case ReadHistory => stage.Validated?
    case CheckReady => stage.Planned? && ReadyFor(st, turn.key, turn.want)
    case EnsureFails => stage.Planned? || stage.Following?
    case Fingerprint(_) => stage.Ready? && turn.key in st.pools && st.pools[turn.key] in st.slots
  }

  function PlanApply(st: State, t: TurnId, step: PlanStep): State
    requires PlanEnabled(st, t, step)
  {
    var turn := st.turns[t];
    var stage := turn.phase.stage;
    match step
    case ValidateReuse(kill, abort) => SetStage(st, t, if kill then KillDue(ThenPlan(abort)) else Validated)
    case ReadHistory =>
      var sl := st.slots[turn.phase.slot];
      var plan := Plan(sl.history, sl.proc);
      SetStage(st, t, if ResetNeeded(turn.messages, sl.history) then KillDue(ThenEnsure(plan)) else Planned(plan))
    case CheckReady => SetStage(st, t, Ready(stage.plan, st.slots[st.pools[turn.key]].proc.value))
    case EnsureFails => SetStage(st, t, Releasing)
    case Fingerprint(config) =>
      SetSlot(st, st.pools[turn.key], st.slots[st.pools[turn.key]].(config := config))
  }

  // ----- runTurn: session, prompt, commit -----

  datatype PromptStep =
    | Rotate
    | SendOk
    | SendFails(delivered: bool, kill: bool)
    | Commit

  predicate PromptEnabled(st: State, t: TurnId, step: PromptStep) {
    t in st.turns && st.turns[t].phase.Held? &&
    var turn := st.turns[t]; var stage := turn.phase.stage;
    match step
    case Rotate => stage.Ready? && turn.key in st.pools && st.pools[turn.key] in st.slots
    case SendOk => stage.Ready?
    case SendFails(_, _) => stage.Ready?
    case Commit => stage.Sent? && turn.key in st.pools && st.pools[turn.key] in st.slots
  }

  function Deliver(st: State, c: Child, p: Prompt): State {
    if c in st.children then st.(children := st.children[c := st.children[c].(log := st.children[c].log + [p])]) else st
  }

  function NewSession(st: State, c: Child): State {
    if c in st.children then st.(children := st.children[c := st.children[c].(log := [])]) else st
  }

  function PromptApply(st: State, t: TurnId, step: PromptStep): State
    requires PromptEnabled(st, t, step)
  {
    var turn := st.turns[t];
    var stage := turn.phase.stage;
    match step
    case Rotate =>
      var s := st.pools[turn.key];
      var st1 := NewSession(SetSlot(st, s, st.slots[s].(history := Zero)), stage.child);
      SetStage(st1, t, Ready(Plan(Zero, stage.plan.source), stage.child))
    case SendOk =>
      SetStage(Deliver(st, stage.child, Prompt(turn.messages, stage.plan.base)), t, Sent(stage.plan, stage.child))
    case SendFails(delivered, kill) =>
      var st1 := if delivered then Deliver(st, stage.child, Prompt(turn.messages, stage.plan.base)) else st;
      SetStage(st1, t, if kill then KillDue(ThenRelease) else Releasing)
    case Commit =>
      var s := st.pools[turn.key];
      SetStage(SetSlot(st, s, st.slots[s].(history := NextHistory(turn.messages, stage.plan.base))), t, Streaming)
  }

  // ----- poolManagedStream.Close and Release -----

  datatype CloseStep =
    | CloseClean
    | CloseWithdrawn
    | DetachTurn
    | Release

  predicate CloseEnabled(st: State, t: TurnId, step: CloseStep) {
    t in st.turns && st.turns[t].phase.Held? &&
    var turn := st.turns[t]; var stage := turn.phase.stage;
    match step
    case CloseClean => stage.Streaming?
    case CloseWithdrawn => stage.Streaming? && turn.key in st.pools && st.pools[turn.key] in st.slots
    case DetachTurn => stage.Detaching? && turn.key in st.pools && st.pools[turn.key] in st.slots
    case Release => stage.Releasing? && (turn.key in st.pools ==> st.pools[turn.key] in st.slots)
  }

  /** MarkWithdrawn. */
  function Withdraw(st: State, s: SlotId): State
    requires s in st.slots
  {
    var sl := st.slots[s];
    var st1 := SetSlot(st, s, sl.(withdrawn := true, history := Zero));
    if sl.proc.Some? && sl.proc.value in st.children then
      st1.(children := st.children[sl.proc.value := st.children[sl.proc.value].(withdrawn := true)])
    else st1
  }

  function ReleaseSlot(cfg: Config, st: State, key: RuntimeKey, s: SlotId): State
    requires s in st.slots
  {
    var sl := st.slots[s];
    SetSlot(st, s, ReleasedSlot(sl))
    .(schedules := if cfg.staleKill then st.schedules + {Schedule(key, s, sl.epoch)} else st.schedules)
  }

  function CloseApply(cfg: Config, st: State, t: TurnId, step: CloseStep): State
    requires CloseEnabled(st, t, step)
  {
    var turn := st.turns[t];
    match step
    case CloseClean => SetStage(st, t, Releasing)
    case CloseWithdrawn => SetStage(Withdraw(st, st.pools[turn.key]), t, Detaching)
    case DetachTurn =>
      var s := st.pools[turn.key];
      var st1 := if st.slots[s].retiring.None? && st.slots[s].proc.Some? then Detach(st, s) else st;
      SetStage(st1, t, Releasing)
    case Release =>
      var st1 := SetPhase(st, t, Done);
      if turn.key in st.pools then ReleaseSlot(cfg, st1, turn.key, st.pools[turn.key]) else st1
  }

  // ----- All steps -----

  datatype Step =
    | BySlot(slotStep: SlotStep)
    | ByTimer(timerStep: TimerStep)
    | ByClaim(t: TurnId, claimStep: ClaimStep)
    | ByKill(t: TurnId, killStep: KillStep)
    | ByFlight(t: TurnId, flightStep: FlightStep)
    | ByGate(t: TurnId, gateStep: GateStep)
    | BySpawn(t: TurnId, spawnStep: SpawnStep)
    | ByPlan(t: TurnId, planStep: PlanStep)
    | ByPrompt(t: TurnId, promptStep: PromptStep)
    | ByClose(t: TurnId, closeStep: CloseStep)

  predicate Enabled(cfg: Config, st: State, step: Step) {
    match step
    case BySlot(x) => SlotEnabled(cfg, st, x)
    case ByTimer(x) => TimerEnabled(st, x)
    case ByClaim(t, x) => ClaimEnabled(st, t, x)
    case ByKill(t, x) => KillEnabled(st, t, x)
    case ByFlight(t, x) => FlightEnabled(st, t, x)
    case ByGate(t, x) => GateEnabled(cfg, st, t, x)
    case BySpawn(t, x) => SpawnEnabled(st, t, x)
    case ByPlan(t, x) => PlanEnabled(st, t, x)
    case ByPrompt(t, x) => PromptEnabled(st, t, x)
    case ByClose(t, x) => CloseEnabled(st, t, x)
  }

  function Apply(cfg: Config, st: State, step: Step): State
    requires Enabled(cfg, st, step)
  {
    match step
    case BySlot(x) => SlotApply(cfg, st, x)
    case ByTimer(x) => TimerApply(st, x)
    case ByClaim(t, x) => ClaimApply(st, t, x)
    case ByKill(t, x) => KillApply(st, t, x)
    case ByFlight(t, x) => FlightApply(st, t, x)
    case ByGate(t, x) => GateApply(cfg, st, t, x)
    case BySpawn(t, x) => SpawnApply(st, t, x)
    case ByPlan(t, x) => PlanApply(st, t, x)
    case ByPrompt(t, x) => PromptApply(st, t, x)
    case ByClose(t, x) => CloseApply(cfg, st, t, x)
  }
}
