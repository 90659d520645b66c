/** The inductive invariant of the pool, stated per slot, turn, child, key and timer. */
module PoolInv {
  import opened Options
  import opened Transcript
  import opened PoolState

  // ----- What a session was sent -----

  /** The marker describes exactly this conversation. */
  predicate Marks(ms: seq<Message>, h: HistoryState) {
    h == HistoryState(|ms|, Some(DigestInput(ms)))
  }

  /** The marker describes a conversation this session already received. */
  predicate Described(log: seq<Prompt>, h: HistoryState) {
    exists j :: 0 <= j < |log| && Marks(log[j].messages, h)
  }

  /** Prompt `i` is the whole conversation, or continues one the session was sent before. */
  predicate Extends(log: seq<Prompt>, i: nat)
    requires i < |log|
  {
    log[i].Full() || Described(log[..i], log[i].base)
  }

  /** Continuity of a session: in particular its first prompt is the whole conversation. */
  predicate Coherent(log: seq<Prompt>) {
    forall i :: 0 <= i < |log| ==> Extends(log, i)
  }

  /** Continuity of everything after the first prompt. */
  predicate TailCoherent(log: seq<Prompt>) {
    forall i :: 1 <= i < |log| ==> Extends(log, i)
  }

  // ----- Slots -----

  predicate SlotOk(sl: Slot) {
    && (sl.retiring.Some? || sl.quarantined ==> sl.proc.None?)
    && (sl.quarantined <==> sl.failed.Some?)
    && (sl.quarantined <==> sl.cleanupErr)
    && (sl.quarantined ==> sl.retiring.None?)
    && (sl.deleted ==> !sl.inUse && !MayBeLive(sl))
    && (!sl.published ==> sl.proc.None? && !sl.inUse)
    && (sl.inUse <==> sl.holder.Some?)
    && (sl.proc.None? ==> !sl.initialized && !sl.spawning && !sl.transportFailed && !sl.withdrawn && Fresh(sl.history))
    && (sl.proc.Some? ==> (sl.initialized <==> !sl.spawning))
    && (sl.spawning ==> sl.inUse && Fresh(sl.history))
    && (sl.withdrawn ==> sl.inUse)
    && (sl.cancelDue ==> sl.retiring.Some? && sl.published)
  }

  predicate SlotLinked(st: State, s: SlotId)
    requires s in st.slots
  {
    var sl := st.slots[s];
    && (sl.published && !sl.deleted ==> Canonical(st, s))
    && (!sl.published && MayBeLive(sl) ==> s in st.retirements)
    && (sl.holder.Some? ==> HeldBy(st, sl.holder.value, s))
  }

  predicate At(st: State, c: Child, where: Place) {
    c in st.children && st.children[c].where == where
  }

  predicate SlotOwns(st: State, s: SlotId)
    requires s in st.slots
  {
    var sl := st.slots[s];
    && (sl.proc.Some? ==> At(st, sl.proc.value, Live(s)))
    && (sl.retiring.Some? ==> At(st, sl.retiring.value, Retiring(s)))
    && (sl.failed.Some? ==> At(st, sl.failed.value, Failed(s)))
  }

  predicate SlotMarked(st: State, s: SlotId)
    requires s in st.slots
  {
    var sl := st.slots[s];
    !Fresh(sl.history) ==>
      sl.proc.Some? && sl.proc.value in st.children && Described(st.children[sl.proc.value].log, sl.history)
  }

  /** A stale timer will look at this idle runtime: its release is about to arm one, one is armed,
      or its callback is in flight. */
  predicate Covered(st: State, s: SlotId)
    requires s in st.slots && st.slots[s].proc.Some?
  {
    var sl := st.slots[s];
    || Schedule(sl.key, s, sl.epoch) in st.schedules
    || (sl.key in st.timers && st.timers[sl.key] == Timer(sl.epoch, s, sl.claims, sl.proc.value, false))
    || Callback(sl.key, s, sl.epoch, sl.claims, sl.proc.value, Fired) in st.callbacks
    || Callback(sl.key, s, sl.epoch, sl.claims, sl.proc.value, Matched) in st.callbacks
  }

  predicate SlotCovered(cfg: Config, st: State, s: SlotId)
    requires s in st.slots
  {
    cfg.staleKill && st.slots[s].proc.Some? && !st.slots[s].inUse ==> Covered(st, s)
  }

  // ----- Turns -----

  type Children = map<Child, ChildInfo>

  predicate NotSpawning(sl: Slot) {
    sl.proc.Some? ==> sl.initialized
  }

  predicate Usable(sl: Slot, want: string) {
    sl.proc.Some? ==> sl.initialized && sl.config == want
  }

  /** What a plan computed from a marker still means. */
  predicate PlanOk(cs: Children, turn: Turn, sl: Slot, plan: Plan) {
    Continues(turn.messages, plan.base) ==>
      && plan.source.Some? && plan.source.value in cs
      && (sl.proc == plan.source ==>
            sl.initialized && sl.config == turn.want && Described(cs[plan.source.value].log, plan.base))
      && (sl.proc.Some? && sl.proc != plan.source ==>
            sl.proc.value in cs && cs[sl.proc.value].log == [])
  }

  /** A turn about to prompt `c`. */
  predicate PromptOk(cs: Children, turn: Turn, plan: Plan, c: Child) {
    c in cs &&
    (Continues(turn.messages, plan.base) ==>
       if plan.source == Some(c) then Described(cs[c].log, plan.base) else cs[c].log == [])
  }

  predicate BeforeKill(cs: Children, turn: Turn, sl: Slot, after: After) {
    match after
    case ThenPlan(_) => Usable(sl, turn.want)
    case ThenEnsure(plan) => NotSpawning(sl) && !Continues(turn.messages, plan.base)
    case ThenBuild(plan) => NotSpawning(sl) && PlanOk(cs, turn, sl, plan)
    case ThenUnwind => true
    case ThenRelease => NotSpawning(sl)
  }

  /** What holds of the claimed slot at each program point of its turn. */
  predicate StageOk(cs: Children, t: TurnId, turn: Turn, sl: Slot)
    requires turn.phase.Held?
  {
    var s := turn.phase.slot;
    match turn.phase.stage
    case Withdrawing => NotSpawning(sl)
    case Rechecking => sl.proc.None?
    case Claimed => Usable(sl, turn.want)
    case Validated => Usable(sl, turn.want)
    case KillDue(after) => BeforeKill(cs, turn, sl, after)
    case Killing(rt, after) => rt == s && BeforeKill(cs, turn, sl, after)
    case AwaitingKill(rt, after) => rt == s && sl.proc.None? && BeforeKill(cs, turn, sl, after)
    case Killed(after, _) => sl.proc.None? && BeforeKill(cs, turn, sl, after)
    case Planned(plan) => NotSpawning(sl) && PlanOk(cs, turn, sl, plan)
    case Following(plan) => NotSpawning(sl) && PlanOk(cs, turn, sl, plan)
    case Leading(plan) => NotSpawning(sl) && PlanOk(cs, turn, sl, plan)
    case Cleared(plan) => sl.proc.None? && PlanOk(cs, turn, sl, plan)
    case Reserving(plan) => sl.proc.None? && PlanOk(cs, turn, sl, plan)
    case Counting(plan, _, _) => sl.proc.None? && PlanOk(cs, turn, sl, plan)
    case Permitted(plan) => sl.proc.None? && PlanOk(cs, turn, sl, plan)
    case Spawned(plan, c) =>
      sl.proc.None? && PlanOk(cs, turn, sl, plan) && (Continues(turn.messages, plan.base) ==> plan.source != Some(c)) &&
      c in cs && cs[c].where == WithLeader(t) && cs[c].log == [] && !cs[c].withdrawn
    case Registered(plan) => sl.proc.Some? && PlanOk(cs, turn, sl, plan)
    case Handshaking(plan) => sl.proc.Some? && PlanOk(cs, turn, sl, plan)
    case Built(plan) => sl.proc.Some? && sl.initialized && PlanOk(cs, turn, sl, plan)
    case Unwinding => sl.proc.None?
    case Ready(plan, c) => sl.proc == Some(c) && sl.initialized && PromptOk(cs, turn, plan, c)
    case Sent(plan, c) =>
      sl.proc == Some(c) && sl.initialized && c in cs &&
      Described(cs[c].log, NextHistory(turn.messages, plan.base))
    case Streaming => sl.proc.Some? && sl.initialized
    case Detaching => sl.proc.Some? && sl.initialized
    case Releasing => NotSpawning(sl)
  }

  predicate InFlight(stage: Stage) {
    match stage
    case KillDue(after) => after.ThenBuild? || after.ThenUnwind?
    case Killing(_, after) => after.ThenBuild? || after.ThenUnwind?
    case AwaitingKill(_, after) => after.ThenBuild? || after.ThenUnwind?
    case Killed(after, _) => after.ThenBuild? || after.ThenUnwind?
    case _ =>
      stage.Leading? || stage.Cleared? || stage.Reserving? || stage.Counting? || stage.Permitted? || stage.Spawned? ||
      stage.Registered? || stage.Handshaking? || stage.Built? || stage.Unwinding?
  }

  /** Stages in which a bounded pool's builder holds the spawn gate. */
  predicate AtGate(stage: Stage) {
    stage.Reserving? || stage.Counting? || stage.Permitted? || stage.Spawned? || stage.Registered?
  }

  predicate TurnLinked(cfg: Config, st: State, t: TurnId)
    requires t in st.turns
  {
    var turn := st.turns[t];
    && (turn.phase.Resolved? ==>
          turn.phase.slot in st.slots && st.slots[turn.phase.slot].published &&
          st.slots[turn.phase.slot].key == turn.key)
    && (turn.phase.Held? ==>
          turn.phase.slot in st.slots &&
          var sl := st.slots[turn.phase.slot];
          && sl.published && !sl.deleted && sl.key == turn.key && sl.holder == Some(t)
          && (sl.withdrawn ==> turn.phase.stage.Detaching?)
          && (InFlight(turn.phase.stage) ==>
                FlightKey(turn.key) in st.flights && st.flights[FlightKey(turn.key)] == t)
          && (AtGate(turn.phase.stage) && cfg.maxRuntimes > 0 ==> st.gate == Some(t)))
  }

  predicate TurnStaged(st: State, t: TurnId)
    requires t in st.turns
  {
    st.turns[t].phase.Held? ==>
      st.turns[t].phase.slot in st.slots &&
      StageOk(st.children, t, st.turns[t], st.slots[st.turns[t].phase.slot])
  }

  // ----- Children -----

  predicate ChildPlaced(st: State, c: Child)
    requires c in st.children
  {
    match st.children[c].where
    case WithLeader(t) =>
      t in st.turns && st.turns[t].phase.Held? && st.turns[t].phase.stage.Spawned? && st.turns[t].phase.stage.child == c
    case Live(s) =>
      s in st.slots && st.slots[s].proc == Some(c) && (st.children[c].withdrawn ==> st.slots[s].withdrawn)
    case Retiring(s) => s in st.slots && st.slots[s].retiring == Some(c)
    case Failed(s) => s in st.slots && st.slots[s].failed == Some(c)
    case Gone => true
  }

  // ----- Keys, retirements, gate -----

  predicate KeyLinked(st: State, k: RuntimeKey)
    requires k in st.pools
  {
    st.pools[k] in st.slots && st.slots[st.pools[k]].key == k && st.slots[st.pools[k]].published
  }

  predicate RetirementLinked(st: State, s: SlotId) {
    s in st.slots && !st.slots[s].published
  }

  predicate GateOk(cfg: Config, st: State) {
    st.gate.Some? ==>
      cfg.maxRuntimes > 0 && st.gate.value in st.turns && st.turns[st.gate.value].phase.Held? &&
      (AtGate(st.turns[st.gate.value].phase.stage) || st.turns[st.gate.value].phase.stage.Unwinding?)
  }

  /** The permit counts as one more live process from the capacity decision to registration. */
  predicate Reserved(st: State) {
    st.gate.Some? && st.gate.value in st.turns && st.turns[st.gate.value].phase.Held? &&
    (st.turns[st.gate.value].phase.stage.Permitted? || st.turns[st.gate.value].phase.stage.Spawned?)
  }

  predicate CountOk(st: State) {
    st.gate.Some? && st.gate.value in st.turns && st.turns[st.gate.value].phase.Held? &&
    st.turns[st.gate.value].phase.stage.Counting? ==>
      var stage := st.turns[st.gate.value].phase.stage;
      LiveSlots(st) <= stage.todo + stage.hits
  }

  predicate Bounded(cfg: Config, st: State) {
    cfg.maxRuntimes > 0 ==> |LiveSlots(st)| + (if Reserved(st) then 1 else 0) <= cfg.maxRuntimes
  }

  // ----- Stale-kill timers -----

  /** Nothing claimed the runtime since the epoch was issued, and its child is still the same. */
  predicate Current(sl: Slot, epoch: nat, claims: nat, child: Child) {
    epoch <= sl.epoch &&
    (epoch == sl.epoch ==> !sl.inUse && sl.claims == claims && (sl.proc.Some? ==> sl.proc.value == child))
  }

  predicate TimerOk(st: State, k: RuntimeKey)
    requires k in st.timers
  {
    var tm := st.timers[k];
    tm.slot in st.slots && st.slots[tm.slot].key == k && Current(st.slots[tm.slot], tm.epoch, tm.claims, tm.child)
  }

  predicate CallbackOk(st: State, cb: Callback) {
    && cb.slot in st.slots && st.slots[cb.slot].key == cb.key
    && Current(st.slots[cb.slot], cb.epoch, cb.claims, cb.child)
    && (cb.key in st.timers && st.timers[cb.key].slot == cb.slot && st.timers[cb.key].epoch == cb.epoch ==>
          st.timers[cb.key].fired)
  }

  predicate ScheduleOk(st: State, p: Schedule) {
    p.slot in st.slots && st.slots[p.slot].key == p.key &&
    p.token <= st.slots[p.slot].epoch && (p.token == st.slots[p.slot].epoch ==> !st.slots[p.slot].inUse)
  }

  // ----- The invariant -----

  predicate Links(cfg: Config, st: State) {
    && (forall s :: s in st.slots ==> SlotOk(st.slots[s]))
    && (forall s :: s in st.slots ==> SlotLinked(st, s))
    && (forall t :: t in st.turns ==> TurnLinked(cfg, st, t))
    && (forall k :: k in st.pools ==> KeyLinked(st, k))
    && (forall s :: s in st.retirements ==> RetirementLinked(st, s))
  }

  predicate Owners(st: State) {
    && (forall s :: s in st.slots ==> SlotOwns(st, s))
    && (forall c :: c in st.children ==> ChildPlaced(st, c))
  }

  predicate Logs(st: State) {
    && (forall s :: s in st.slots ==> SlotMarked(st, s))
    && (forall c :: c in st.children ==> TailCoherent(st.children[c].log))
  }

  predicate Stages(st: State) {
    forall t :: t in st.turns ==> TurnStaged(st, t)
  }

  predicate Timers(cfg: Config, st: State) {
    && (forall k :: k in st.timers ==> TimerOk(st, k))
    && (forall cb :: cb in st.callbacks ==> CallbackOk(st, cb))
    && (forall p :: p in st.schedules ==> ScheduleOk(st, p))
    && (forall s :: s in st.slots ==> SlotCovered(cfg, st, s))
  }

  predicate Capacity(cfg: Config, st: State) {
    GateOk(cfg, st) && CountOk(st) && Bounded(cfg, st)
  }

  predicate Inv(cfg: Config, st: State) {
    Links(cfg, st) && Owners(st) && Logs(st) && Stages(st) && Timers(cfg, st) && Capacity(cfg, st)
  }
}
