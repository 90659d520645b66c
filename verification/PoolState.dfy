/** State of the ACP subprocess pool and of the turns that use it
    (connector-support/acp/runtime_pool.go, runtime_pool_ensure.go, subprocess_spec.go).

    A `Slot` is one SubprocessRuntime object, named by its identity; a child is one spawned
    process together with its transport. Fields marked "history" record the past for the
    properties; no step reads them.
 */
module PoolState {
  import opened Options
  import opened Transcript

  type SlotId = nat
  type TurnId = nat
  type Child = nat

  datatype RuntimeKey = RuntimeKey(workspace: string, model: string, clientSession: string)

  /** The serialized key of a construction flight. */
  function FlightKey(k: RuntimeKey): string {
    k.workspace + "\0" + k.model + "\0" + k.clientSession
  }

  /** `maxRuntimes` is MaxRuntimes (0: unbounded); `staleKill` is StaleKillDelay > 0.
      `reportsCleanup` tells that the Wait of the spawned processes may report an incomplete cleanup
      (ErrCleanupIncomplete), which a plain child process's never does; `joinsCleanup` that they
      offer WaitCleanup, so that a retirement which finds their PID recycled still learns of it. */
  datatype Config = Config(maxRuntimes: nat, staleKill: bool, reportsCleanup: bool, joinsCleanup: bool) {
    /** No retirement overlooks an incomplete cleanup. */
    predicate LearnsCleanup() { joinsCleanup || !reportsCleanup }
  }

  datatype Slot = Slot(
    key: RuntimeKey,
    published: bool,              // created in the pools map; false for retireUnpublished owners
    proc: Option<Child>,
    transportFailed: bool,        // the live transport reports a cleanup error
    retiring: Option<Child>,      // the child of the retirement in flight
    retiringFailed: bool,         // its transport had reported a cleanup error
    cancelDue: bool,              // the idle reaper still has to cancel the stale timer
    cleanupErr: bool,
    quarantined: bool,
    failed: Option<Child>,        // failedRetirement
    inUse: bool,
    holder: Option<TurnId>,       // history: the turn of the active claim
    initialized: bool,
    spawning: bool,
    config: string,
    history: HistoryState,
    epoch: nat,                   // staleEpoch
    claims: nat,                  // history: claims begun on this slot
    withdrawn: bool,
    deleted: bool)

  function NewSlot(key: RuntimeKey): Slot {
    Slot(key, true, None, false, None, false, false, false, false, None, false, None, false, false, "", Zero, 0, 0,
         false, false)
  }

  /** The slot that owns a refused child. */
  function UnpublishedSlot(key: RuntimeKey, c: Child): Slot {
    NewSlot(key).(published := false, retiring := Some(c))
  }

  predicate CleanupFailed(sl: Slot) {
    sl.cleanupErr || sl.transportFailed
  }

  predicate MayBeLive(sl: Slot) {
    sl.proc.Some? || sl.retiring.Some? || sl.quarantined
  }

  /** One prompt a session received: the conversation, and the marker it was computed from. */
  datatype Prompt = Prompt(messages: seq<Message>, base: HistoryState) {
    predicate Full() { !Continues(messages, base) }
  }

  datatype Place = WithLeader(turn: TurnId) | Live(slot: SlotId) | Retiring(slot: SlotId) | Failed(slot: SlotId) | Gone

  /** `log` is history: the prompts its current session received. `withdrawn` is history: a turn
      withdrew it. */
  datatype ChildInfo = ChildInfo(where: Place, log: seq<Prompt>, withdrawn: bool)

  /** `source` is history: the child that was live when the marker was read. */
  datatype Plan = Plan(base: HistoryState, source: Option<Child>)

  /** What a turn does when KillRuntimeContext returns. */
  datatype After =
    | ThenPlan(abort: bool)   // ValidateReuse refused the process
    | ThenEnsure(plan: Plan)  // the transcript diverged
    | ThenBuild(plan: Plan)   // the flight leader clears the slot
    | ThenUnwind              // the handshake failed
    | ThenRelease             // the prompt was refused

  /** Program point of a turn that holds the claim. */
  datatype Stage =
    | Withdrawing
    | Rechecking
    | Claimed
    | Validated
    | KillDue(after: After)
    | Killing(rt: SlotId, after: After)
    | AwaitingKill(rt: SlotId, after: After)
    | Killed(after: After, ok: bool)
    | Planned(plan: Plan)
    | Following(plan: Plan)
    | Leading(plan: Plan)
    | Cleared(plan: Plan)
    | Reserving(plan: Plan)
    | Counting(plan: Plan, todo: set<SlotId>, hits: set<SlotId>)
    | Permitted(plan: Plan)
    | Spawned(plan: Plan, child: Child)
    | Registered(plan: Plan)
    | Handshaking(plan: Plan)
    | Built(plan: Plan)
    | Unwinding
    | Ready(plan: Plan, child: Child)
    | Sent(plan: Plan, child: Child)
    | Streaming
    | Detaching
    | Releasing

  datatype Phase = Opening | Resolved(slot: SlotId) | Held(slot: SlotId, stage: Stage) | Done

  /** One Open call: its runtime key, process configuration and conversation. */
  datatype Turn = Turn(key: RuntimeKey, want: string, messages: seq<Message>, phase: Phase)

  /** `claims` and `child` are history: the slot's values when the timer was armed. */
  datatype Timer = Timer(epoch: nat, slot: SlotId, claims: nat, child: Child, fired: bool)

  datatype CallbackAt = Fired | Matched | Disarming

  /** A timer callback in flight. */
  datatype Callback = Callback(key: RuntimeKey, slot: SlotId, epoch: nat, claims: nat, child: Child, at: CallbackAt)

  /** A release that has not yet run scheduleStaleKill. */
  datatype Schedule = Schedule(key: RuntimeKey, slot: SlotId, token: nat)

  datatype State = State(
    pools: map<RuntimeKey, SlotId>,
    slots: map<SlotId, Slot>,
    retirements: set<SlotId>,
    turns: map<TurnId, Turn>,
    children: map<Child, ChildInfo>,
    gate: Option<TurnId>,
    flights: map<string, TurnId>,
    timers: map<RuntimeKey, Timer>,
    callbacks: set<Callback>,
    schedules: set<Schedule>)

  const Init := State(map[], map[], {}, map[], map[], None, map[], map[], {}, {})

  function LiveSlots(st: State): set<SlotId> {
    set s | s in st.slots && MayBeLive(st.slots[s])
  }

  predicate Canonical(st: State, s: SlotId) {
    s in st.slots && st.slots[s].key in st.pools && st.pools[st.slots[s].key] == s
  }

  predicate HeldBy(st: State, t: TurnId, s: SlotId) {
    t in st.turns && st.turns[t].phase.Held? && st.turns[t].phase.slot == s
  }

  /** ensureResultIfReady. */
  predicate ReadyFor(st: State, key: RuntimeKey, want: string) {
    key in st.pools && st.pools[key] in st.slots &&
    var sl := st.slots[st.pools[key]];
    sl.proc.Some? && sl.initialized && sl.config == want && !CleanupFailed(sl)
  }

  // ----- State updates shared by the steps -----

  function SetStage(st: State, t: TurnId, stage: Stage): State
    requires t in st.turns && st.turns[t].phase.Held?
  {
    st.(turns := st.turns[t := st.turns[t].(phase := st.turns[t].phase.(stage := stage))])
  }

  function SetPhase(st: State, t: TurnId, phase: Phase): State
    requires t in st.turns
  {
    st.(turns := st.turns[t := st.turns[t].(phase := phase)])
  }

  function SetSlot(st: State, s: SlotId, sl: Slot): State {
    st.(slots := st.slots[s := sl])
  }

  function Move(st: State, c: Child, where: Place): State {
    if c in st.children then st.(children := st.children[c := st.children[c].(where := where)]) else st
  }

  /** A claim may take the slot. */
  predicate Claimable(sl: Slot) {
    !(sl.deleted || sl.inUse || sl.spawning || sl.retiring.Some? || sl.quarantined || CleanupFailed(sl))
  }

  function ClaimedSlot(sl: Slot, t: TurnId): Slot {
    sl.(inUse := true, holder := Some(t), epoch := sl.epoch + 1, claims := sl.claims + 1)
  }

  /** The claim of the slot ended. */
  function ReleasedSlot(sl: Slot): Slot {
    sl.(inUse := false, holder := None)
  }

  /** The idle reaper may take the process. */
  predicate Reapable(sl: Slot) {
    sl.retiring.None? && sl.proc.Some? &&
    !(sl.inUse || sl.spawning || sl.quarantined || sl.deleted || CleanupFailed(sl))
  }

  /** Capacity eviction may take the process. */
  predicate Evictable(sl: Slot) {
    !(sl.inUse || sl.spawning || sl.proc.None? || sl.retiring.Some? || sl.withdrawn || sl.quarantined || sl.deleted)
  }

  /** A stale-kill callback of this epoch may take the process. */
  predicate Reservable(sl: Slot, epoch: nat) {
    sl.epoch == epoch && sl.retiring.None? && !sl.inUse && !sl.quarantined && !sl.cleanupErr && sl.proc.Some?
  }

  /** A release of this generation may arm a stale-kill timer. */
  predicate Armable(sl: Slot, token: nat) {
    sl.epoch == token && sl.retiring.None? && !sl.quarantined && sl.proc.Some?
  }

  /** The empty slot may leave the pool. */
  predicate Removable(sl: Slot) {
    !(sl.inUse || sl.spawning || sl.quarantined || sl.proc.Some? || sl.retiring.Some? || CleanupFailed(sl))
  }

  /** A started child may be registered. */
  predicate Publishable(sl: Slot) {
    sl.retiring.None? && !(sl.deleted || sl.quarantined || CleanupFailed(sl))
  }

  /** registerProcess publishes the started child. */
  function Publish(sl: Slot, c: Child, config: string): Slot {
    sl.(proc := Some(c), transportFailed := false, initialized := false, spawning := true, config := config)
  }

  /** The retirement of child `c` ended. */
  function RetiredSlot(sl: Slot, c: Child, confirmed: bool): Slot {
    if confirmed then sl.(retiring := None, retiringFailed := false)
    else sl.(retiring := None, retiringFailed := false, cleanupErr := true, quarantined := true, failed := Some(c))
  }

  /** detachRuntimeLocked followed by the retiring mark. */
  function Detached(sl: Slot): Slot {
    sl.(proc := None, transportFailed := false, retiring := sl.proc, retiringFailed := sl.transportFailed,
        initialized := false, spawning := false, config := "", withdrawn := false, history := Zero)
  }

  function Detach(st: State, s: SlotId): State
    requires s in st.slots && st.slots[s].proc.Some?
  {
    Move(SetSlot(st, s, Detached(st.slots[s])), st.slots[s].proc.value, Retiring(s))
  }
}
