/** Steps of the environment: slots, reaper, evictor, retirements and timers; and the steps that
    take and release a claim. */
module PoolEnv {
  import opened Options
  import opened PoolState
  import opened PoolSteps
  import opened PoolInv
  import opened PoolLocal
  import opened PoolHeld

  // ----- Local steps -----

  /** The invariant, restricted to one slot that may or may not be held. */
  predicate There(cfg: Config, st: State, t: TurnId, s: SlotId) {
    && s in st.slots && SlotOk(st.slots[s]) && SlotLinked(st, s) && Logged(st, s)
    && (HeldBy(st, t, s) ==> st.slots[s].holder == Some(t))
    && (st.slots[s].holder.Some? ==> st.slots[s].holder == Some(t) && Here(cfg, st, t, s))
    && (st.slots[s].retiring.Some? ==> TailCoherent(st.children[st.slots[s].retiring.value].log))
  }

  function HolderOf(st: State, s: SlotId): TurnId
    requires s in st.slots
  {
    st.slots[s].holder.GetOr(0)
  }

  lemma ThereHolds(cfg: Config, st: State, s: SlotId)
    requires Safe(cfg, st) && s in st.slots
    ensures There(cfg, st, HolderOf(st, s), s)
  {
    assert HeldBy(st, HolderOf(st, s), s) ==> TurnLinked(cfg, st, HolderOf(st, s));
    if st.slots[s].holder.Some? { HereHolds(cfg, st, st.slots[s].holder.value); }
  }

  lemma IdleDetachIsLocal(cfg: Config, st: State, t: TurnId, s: SlotId, due: bool)
    requires There(cfg, st, t, s) && st.slots[s].proc.Some? && !st.slots[s].inUse
    ensures var st1 := Detach(st, s); var st' := SetSlot(st1, s, st1.slots[s].(cancelDue := due));
            LocalOk(cfg, st, st', t, s, st.slots[s].proc)
  {
  }

  lemma RetirementIsLocal(cfg: Config, st: State, t: TurnId, s: SlotId, confirmed: bool)
    requires There(cfg, st, t, s) && st.slots[s].retiring.Some? && !st.slots[s].cancelDue
    ensures LocalOk(cfg, st, Retired(st, s, confirmed), t, s, st.slots[s].retiring)
  {
  }

  lemma CancelIsLocal(cfg: Config, st: State, t: TurnId, s: SlotId, step: SlotStep)
    requires There(cfg, st, t, s) && SlotEnabled(cfg, st, step) && (step.CancelAfterReap? || step.TransportFails?) &&
             step.s == s
    ensures LocalOk(cfg, st, SlotApply(cfg, st, step), t, s, None)
  {
  }

  // ----- Frames -----

  /** Nothing that owners, logs or stages speak of changes. */
  lemma CoreFrame(st: State, st': State)
    requires Owners(st) && Logs(st) && Stages(st)
    requires st'.slots == st.slots && st'.turns == st.turns && st'.children == st.children
    ensures Owners(st') && Logs(st') && Stages(st')
  {
  }

  lemma ClockFrame(cfg: Config, st: State, st': State)
    requires Timers(cfg, st)
    requires st'.slots == st.slots && st'.timers == st.timers && st'.callbacks == st.callbacks &&
             st'.schedules == st.schedules
    ensures Timers(cfg, st')
  {
  }

  lemma LinkFrame(cfg: Config, st: State, st': State)
    requires Links(cfg, st)
    requires st'.slots == st.slots && st'.turns == st.turns && st'.pools == st.pools &&
             st'.retirements == st.retirements
    requires st'.flights == st.flights && st'.gate == st.gate
    ensures Links(cfg, st')
  {
  }

  /** One slot changes outside its handles and no turn gains or loses a spawned child. */
  lemma OwnerFrame(st: State, st': State, s: SlotId)
    requires Owners(st) && s in st.slots && s in st'.slots && st'.slots == st.slots[s := st'.slots[s]]
    requires var sl := st.slots[s]; var sl' := st'.slots[s];
             sl'.proc == sl.proc && sl'.retiring == sl.retiring && sl'.failed == sl.failed &&
             sl'.withdrawn == sl.withdrawn
    requires st'.children == st.children
    requires forall t, c :: SpawnedChild(st, t, c) ==> SpawnedChild(st', t, c)
    ensures Owners(st')
  {
    forall c | c in st'.children ensures ChildPlaced(st', c) {
      assert ChildPlaced(st, c);
      if st.children[c].where.WithLeader? { assert SpawnedChild(st, st.children[c].where.turn, c); }
    }
  }

  lemma LogFrame(st: State, st': State, s: SlotId)
    requires Logs(st) && s in st.slots && s in st'.slots && st'.slots == st.slots[s := st'.slots[s]]
    requires st'.slots[s].proc == st.slots[s].proc && st'.slots[s].history == st.slots[s].history
    requires st'.children == st.children
    ensures Logs(st')
  {
  }

  lemma StageSame(cs: Children, t: TurnId, turn: Turn, sl: Slot, sl': Slot)
    requires turn.phase.Held? && StageOk(cs, t, turn, sl)
    requires sl'.proc == sl.proc && sl'.initialized == sl.initialized && sl'.spawning == sl.spawning &&
             sl'.config == sl.config
    ensures StageOk(cs, t, turn, sl')
  {
  }

  lemma StageSlotFrame(st: State, st': State, s: SlotId)
    requires Stages(st) && s in st.slots && s in st'.slots && st'.slots == st.slots[s := st'.slots[s]]
    requires var sl := st.slots[s]; var sl' := st'.slots[s];
             sl'.proc == sl.proc && sl'.initialized == sl.initialized && sl'.spawning == sl.spawning &&
             sl'.config == sl.config
    requires st'.children == st.children && st'.turns == st.turns
    ensures Stages(st')
  {
    forall t | t in st'.turns ensures TurnStaged(st', t) {
      assert TurnStaged(st, t);
      if st.turns[t].phase.Held? {
        var x := st.turns[t].phase.slot;
        StageSame(st.children, t, st.turns[t], st.slots[x], st'.slots[x]);
      }
    }
  }

  // ----- Slots and turns appear; slots are marked deleted and leave the map -----

  function Created(st: State, s: SlotId, key: RuntimeKey): State {
    SetSlot(st, s, NewSlot(key)).(pools := st.pools[key := s])
  }

  lemma CreatesTurnLinks(cfg: Config, st: State, s: SlotId, key: RuntimeKey, t: TurnId)
    requires s !in st.slots && t in st.turns && TurnLinked(cfg, st, t)
    ensures TurnLinked(cfg, Created(st, s, key), t)
  {
  }

  lemma CreatesLinks(cfg: Config, st: State, s: SlotId, key: RuntimeKey)
    requires Links(cfg, st) && s !in st.slots && key !in st.pools
    ensures Links(cfg, Created(st, s, key))
  {
    var st' := Created(st, s, key);
    forall t | t in st'.turns ensures TurnLinked(cfg, st', t) { CreatesTurnLinks(cfg, st, s, key, t); }
    forall x | x in st'.slots ensures SlotLinked(st', x) && SlotOk(st'.slots[x]) {
      if x != s { CreatesSlotLinks(st, s, key, x); }
    }
    forall k | k in st'.pools ensures KeyLinked(st', k) { assert k != key ==> KeyLinked(st, k); }
    forall x | x in st'.retirements ensures RetirementLinked(st', x) { assert RetirementLinked(st, x); }
  }

  lemma CreatesSlotLinks(st: State, s: SlotId, key: RuntimeKey, x: SlotId)
    requires s !in st.slots && key !in st.pools && x in st.slots && SlotLinked(st, x)
    ensures SlotLinked(Created(st, s, key), x)
  {
  }

  lemma CreatesCore(st: State, s: SlotId, key: RuntimeKey)
    requires Owners(st) && Logs(st) && s !in st.slots
    ensures var st' := Created(st, s, key); Owners(st') && Logs(st')
  {
  }

  lemma CreatesRest(cfg: Config, st: State, s: SlotId, key: RuntimeKey)
    requires Stages(st) && Timers(cfg, st) && s !in st.slots
    ensures var st' := Created(st, s, key); Stages(st') && Timers(cfg, st')
  {
  }

  lemma Starts(cfg: Config, st: State, t: TurnId, turn: Turn)
    requires Links(cfg, st) && Stages(st) && t !in st.turns && turn.phase.Opening?
    ensures var st' := st.(turns := st.turns[t := turn]); Links(cfg, st') && Stages(st')
  {
    var st' := st.(turns := st.turns[t := turn]);
    forall x | x in st'.turns ensures TurnLinked(cfg, st', x) && TurnStaged(st', x) {
      if x != t { assert TurnLinked(cfg, st, x) && TurnStaged(st, x); }
    }
  }

  lemma StartsCore(st: State, t: TurnId, turn: Turn)
    requires Owners(st) && Logs(st) && t !in st.turns
    ensures var st' := st.(turns := st.turns[t := turn]); Owners(st') && Logs(st')
  {
  }

  lemma DeletesTurnLinks(cfg: Config, st: State, s: SlotId, t: TurnId)
    requires s in st.slots && !st.slots[s].inUse && SlotOk(st.slots[s]) && t in st.turns && TurnLinked(cfg, st, t)
    ensures TurnLinked(cfg, SetSlot(st, s, st.slots[s].(deleted := true)), t)
  {
  }

  lemma DeletesSlotLinks(st: State, s: SlotId, x: SlotId)
    requires s in st.slots && x in st.slots && SlotLinked(st, x)
    ensures SlotLinked(SetSlot(st, s, st.slots[s].(deleted := true)), x)
  {
  }

  lemma DeletesLinks(cfg: Config, st: State, s: SlotId)
    requires Links(cfg, st) && SlotEnabled(cfg, st, MarkDeleted(s))
    ensures Links(cfg, SetSlot(st, s, st.slots[s].(deleted := true)))
  {
    var st' := SetSlot(st, s, st.slots[s].(deleted := true));
    assert SlotOk(st.slots[s]) && SlotOk(st'.slots[s]);
    forall t | t in st'.turns ensures TurnLinked(cfg, st', t) { DeletesTurnLinks(cfg, st, s, t); }
    forall x | x in st'.slots ensures SlotLinked(st', x) { DeletesSlotLinks(st, s, x); }
    forall k | k in st'.pools ensures KeyLinked(st', k) { assert KeyLinked(st, k); }
    forall x | x in st'.retirements ensures RetirementLinked(st', x) { assert RetirementLinked(st, x); }
  }

  lemma DeletesClock(cfg: Config, st: State, s: SlotId)
    requires Timers(cfg, st) && s in st.slots
    ensures Timers(cfg, SetSlot(st, s, st.slots[s].(deleted := true)))
  {
  }

  lemma UnlinksLinks(cfg: Config, st: State, s: SlotId)
    requires Links(cfg, st) && SlotEnabled(cfg, st, Unlink(s))
    ensures Links(cfg, st.(pools := st.pools - {st.slots[s].key}))
  {
  }

  lemma DropsLinks(cfg: Config, st: State, s: SlotId)
    requires Links(cfg, st) && SlotEnabled(cfg, st, DropRetirement(s))
    ensures Links(cfg, st.(retirements := st.retirements - {s}))
  {
  }

  lemma SlotStepSafe(cfg: Config, st: State, step: SlotStep)
    requires Safe(cfg, st) && SlotEnabled(cfg, st, step)
    ensures Safe(cfg, SlotApply(cfg, st, step))
  {
    var st' := SlotApply(cfg, st, step);
    match step
    case CreateSlot(s, key) =>
      CreatesLinks(cfg, st, s, key);
      CreatesCore(st, s, key);
      CreatesRest(cfg, st, s, key);
    case StartTurn(t, turn) => Starts(cfg, st, t, turn); StartsCore(st, t, turn); ClockFrame(cfg, st, st');
    case Reap(s) =>
      ThereHolds(cfg, st, s);
      IdleDetachIsLocal(cfg, st, HolderOf(st, s), s, true);
      LocalSafe(cfg, st, st', HolderOf(st, s), s, st.slots[s].proc);
    case CancelAfterReap(s) =>
      ThereHolds(cfg, st, s);
      CancelIsLocal(cfg, st, HolderOf(st, s), s, step);
      LocalSafe(cfg, st, st', HolderOf(st, s), s, None);
    case Evict(s) => EvictSafe(cfg, st, s);
    case FinishRetirement(s, confirmed) =>
      ThereHolds(cfg, st, s);
      RetirementIsLocal(cfg, st, HolderOf(st, s), s, confirmed);
      LocalSafe(cfg, st, st', HolderOf(st, s), s, st.slots[s].retiring);
    case MarkDeleted(s) =>
      DeletesLinks(cfg, st, s);
      OwnerFrame(st, st', s);
      LogFrame(st, st', s);
      StageSlotFrame(st, st', s);
      DeletesClock(cfg, st, s);
    case Unlink(s) => UnlinksLinks(cfg, st, s); CoreFrame(st, st'); ClockFrame(cfg, st, st');
    case DropRetirement(s) => DropsLinks(cfg, st, s); CoreFrame(st, st'); ClockFrame(cfg, st, st');
    case TransportFails(s) =>
      ThereHolds(cfg, st, s);
      CancelIsLocal(cfg, st, HolderOf(st, s), s, step);
      LocalSafe(cfg, st, st', HolderOf(st, s), s, None);
  }

  lemma EvictSafe(cfg: Config, st: State, s: SlotId)
    requires Safe(cfg, st) && s in st.slots && st.slots[s].proc.Some? && !st.slots[s].inUse
    ensures Safe(cfg, Detach(st, s))
  {
    ThereHolds(cfg, st, s);
    var st1 := Detach(st, s);
    var st' := SetSlot(st1, s, st1.slots[s].(cancelDue := false));
    IdleDetachIsLocal(cfg, st, HolderOf(st, s), s, false);
    assert st1.slots[s].(cancelDue := false) == st1.slots[s] && st' == st1;
    LocalSafe(cfg, st, st', HolderOf(st, s), s, st.slots[s].proc);
  }
}
