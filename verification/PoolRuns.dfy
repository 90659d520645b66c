/** Whole runs of the pool, and what holds in every state they reach. */
module PoolRuns {
  import opened Options
  import opened Transcript
  import opened PoolState
  import opened PoolSteps
  import opened PoolInv
  import opened PoolLocal
  import opened PoolSafety
  import opened PoolCapacity

  /** Every step of the schedule is enabled when its turn comes. */
  predicate Runs(cfg: Config, st: State, steps: seq<Step>)
    decreases |steps|
  {
    steps == [] || (Enabled(cfg, st, steps[0]) && Runs(cfg, Apply(cfg, st, steps[0]), steps[1..]))
  }

  function Final(cfg: Config, st: State, steps: seq<Step>): State
    requires Runs(cfg, st, steps)
    decreases |steps|
  {
    if steps == [] then st else Final(cfg, Apply(cfg, st, steps[0]), steps[1..])
  }

  lemma InvHoldsInitially(cfg: Config)
    ensures Inv(cfg, Init)
  {
    assert LiveSlots(Init) == {};
  }

  lemma StepKeepsInv(cfg: Config, st: State, step: Step)
    requires Inv(cfg, st) && Enabled(cfg, st, step)
    ensures Inv(cfg, Apply(cfg, st, step))
  {
    StepSafe(cfg, st, step);
    StepCapacity(cfg, st, step);
  }

  lemma {:induction false} RunsKeepInv(cfg: Config, st: State, steps: seq<Step>)
    requires Inv(cfg, st) && Runs(cfg, st, steps)
    ensures Inv(cfg, Final(cfg, st, steps))
    decreases |steps|
  {
    if steps != [] {
      StepKeepsInv(cfg, st, steps[0]);
      RunsKeepInv(cfg, Apply(cfg, st, steps[0]), steps[1..]);
    }
  }

  lemma Reachable(cfg: Config, steps: seq<Step>)
    requires Runs(cfg, Init, steps)
    ensures Inv(cfg, Final(cfg, Init, steps))
  {
    InvHoldsInitially(cfg);
    RunsKeepInv(cfg, Init, steps);
  }

  // ----- Process ownership -----

  /** Where a child is, read off the slots and turns. */
  predicate Keeps(st: State, c: Child, where: Place) {
    match where
    case WithLeader(t) => SpawnedChild(st, t, c)
    case Live(s) => s in st.slots && st.slots[s].proc == Some(c)
    case Retiring(s) => s in st.slots && st.slots[s].retiring == Some(c)
    case Failed(s) => s in st.slots && st.slots[s].failed == Some(c)
    case Gone => false
  }

  /** Every child ever spawned is either confirmed gone or kept in exactly one place, and nothing
      else is kept anywhere. */
  lemma OwnershipIsExact(cfg: Config, steps: seq<Step>, c: Child, where: Place)
    requires Runs(cfg, Init, steps) && !where.Gone?
    ensures var st := Final(cfg, Init, steps);
            Keeps(st, c, where) <==> c in st.children && st.children[c].where == where
  {
    Reachable(cfg, steps);
    var st := Final(cfg, Init, steps);
    match where
    case WithLeader(t) => assert t in st.turns ==> TurnStaged(st, t);
    case Live(s) => assert s in st.slots ==> SlotOwns(st, s);
    case Retiring(s) => assert s in st.slots ==> SlotOwns(st, s);
    case Failed(s) => assert s in st.slots ==> SlotOwns(st, s);
  }

  /** registerProcess never overwrites a live process, and publishes into the claimed slot. */
  lemma RegistrationOverwritesNothing(cfg: Config, st: State, t: TurnId)
    requires Inv(cfg, st) && SpawnEnabled(st, t, Register)
    ensures st.pools[st.turns[t].key] == st.turns[t].phase.slot
    ensures st.slots[st.pools[st.turns[t].key]].proc.None?
  {
    assert TurnLinked(cfg, st, t) && TurnStaged(st, t);
    assert SlotLinked(st, st.turns[t].phase.slot);
  }

  // ----- Capacity -----

  function Alive(st: State): set<Child> {
    set c | c in st.children && !st.children[c].where.Gone?
  }

  function Slotted(st: State): set<Child> {
    set c | c in st.children && !st.children[c].where.Gone? && !st.children[c].where.WithLeader?
  }

  function SlotOf(st: State, c: Child): SlotId {
    if c in st.children &&
       (st.children[c].where.Live? || st.children[c].where.Retiring? || st.children[c].where.Failed?)
    then st.children[c].where.slot else 0
  }

  lemma {:induction false} InjectionSize(st: State, cs: set<Child>, ss: set<SlotId>)
    requires forall c :: c in cs ==> SlotOf(st, c) in ss
    requires forall c, d :: c in cs && d in cs && SlotOf(st, c) == SlotOf(st, d) ==> c == d
    ensures |cs| <= |ss|
    decreases |cs|
  {
    if cs != {} {
      var c :| c in cs;
      InjectionSize(st, cs - {c}, ss - {SlotOf(st, c)});
    }
  }

  lemma OneChildPerSlot(cfg: Config, st: State)
    requires Links(cfg, st) && Owners(st)
    ensures |Slotted(st)| <= |LiveSlots(st)|
  {
    forall c | c in Slotted(st) ensures SlotOf(st, c) in LiveSlots(st) {
      assert ChildPlaced(st, c);
      assert SlotOk(st.slots[SlotOf(st, c)]);
    }
    forall c, d | c in Slotted(st) && d in Slotted(st) && SlotOf(st, c) == SlotOf(st, d) ensures c == d {
      assert ChildPlaced(st, c) && ChildPlaced(st, d);
      assert SlotOk(st.slots[SlotOf(st, c)]);
    }
    InjectionSize(st, Slotted(st), LiveSlots(st));
  }

  lemma LeadersAreReserved(cfg: Config, st: State, c: Child)
    requires Inv(cfg, st) && cfg.maxRuntimes > 0 && c in Alive(st) - Slotted(st)
    ensures Reserved(st) && st.turns[st.gate.value].phase.stage.Spawned? &&
            st.turns[st.gate.value].phase.stage.child == c
  {
    assert ChildPlaced(st, c);
    assert TurnLinked(cfg, st, st.children[c].where.turn);
  }

  lemma OneLeads(cfg: Config, st: State)
    requires Inv(cfg, st) && cfg.maxRuntimes > 0 && Alive(st) - Slotted(st) != {}
    ensures Reserved(st) && |Alive(st) - Slotted(st)| == 1
  {
    var led := Alive(st) - Slotted(st);
    var c :| c in led;
    LeadersAreReserved(cfg, st, c);
    forall d | d in led ensures d == c { LeadersAreReserved(cfg, st, d); }
    assert led == {c};
  }

  /** At no point of any run may more than MaxRuntimes children be alive: started and not yet
      registered, live, retiring, or never confirmed extinct. */
  lemma CapacityBound(cfg: Config, steps: seq<Step>)
    requires cfg.maxRuntimes > 0 && Runs(cfg, Init, steps)
    ensures |Alive(Final(cfg, Init, steps))| <= cfg.maxRuntimes
  {
    Reachable(cfg, steps);
    var st := Final(cfg, Init, steps);
    OneChildPerSlot(cfg, st);
    var led := Alive(st) - Slotted(st);
    assert Alive(st) == Slotted(st) + led;
    if led != {} { OneLeads(cfg, st); }
  }

  // ----- Turn exclusivity -----

  /** In every reachable state a slot serves at most one turn, which holds the canonical slot of
      its key; a slot is marked in use exactly while a turn holds it. */
  lemma TurnsAreExclusive(cfg: Config, steps: seq<Step>, t: TurnId, u: TurnId, s: SlotId)
    requires Runs(cfg, Init, steps)
    ensures var st := Final(cfg, Init, steps);
            && (HeldBy(st, t, s) && HeldBy(st, u, s) ==> t == u)
            && (HeldBy(st, t, s) ==> Canonical(st, s) && st.slots[s].key == st.turns[t].key && st.slots[s].inUse)
            && (s in st.slots && st.slots[s].inUse ==> exists x :: HeldBy(st, x, s))
  {
    Reachable(cfg, steps);
    var st := Final(cfg, Init, steps);
    if HeldBy(st, t, s) { assert TurnLinked(cfg, st, t) && SlotLinked(st, s) && SlotOk(st.slots[s]); }
    if HeldBy(st, u, s) { assert TurnLinked(cfg, st, u); }
    if s in st.slots && st.slots[s].inUse {
      assert SlotOk(st.slots[s]) && SlotLinked(st, s) && HeldBy(st, st.slots[s].holder.value, s);
    }
  }

  /** Reaper, evictor, retirements and timers never take the process of a held slot. */
  lemma HeldProcessIsSafe(cfg: Config, st: State, step: Step, t: TurnId, s: SlotId)
    requires Inv(cfg, st) && Enabled(cfg, st, step) && (step.BySlot? || step.ByTimer?) && HeldBy(st, t, s)
    ensures s in Apply(cfg, st, step).slots && Apply(cfg, st, step).slots[s].proc == st.slots[s].proc
    ensures HeldBy(Apply(cfg, st, step), t, s)
  {
    assert TurnLinked(cfg, st, t) && SlotOk(st.slots[s]);
    if step.BySlot? { SlotStepKeepsHeld(cfg, st, step.slotStep, t, s); }
    else { TimerStepKeepsHeld(st, step.timerStep, s); }
  }

  lemma SlotStepFrame(cfg: Config, st: State, step: SlotStep, x: SlotId)
    requires SlotEnabled(cfg, st, step) && x in st.slots && (step.StartTurn? || step.s != x)
    ensures x in SlotApply(cfg, st, step).slots && SlotApply(cfg, st, step).slots[x] == st.slots[x]
  {
  }

  lemma SlotStepTurnFrame(cfg: Config, st: State, step: SlotStep, t: TurnId)
    requires SlotEnabled(cfg, st, step) && t in st.turns
    ensures t in SlotApply(cfg, st, step).turns && SlotApply(cfg, st, step).turns[t] == st.turns[t]
  {
  }

  lemma SlotStepKeepsHeld(cfg: Config, st: State, step: SlotStep, t: TurnId, s: SlotId)
    requires SlotEnabled(cfg, st, step) && s in st.slots && st.slots[s].inUse && HeldBy(st, t, s)
    ensures var st' := SlotApply(cfg, st, step);
            s in st'.slots && st'.slots[s].proc == st.slots[s].proc && t in st'.turns && st'.turns[t] == st.turns[t]
  {
    SlotStepTurnFrame(cfg, st, step, t);
    if step.StartTurn? || step.s != s { SlotStepFrame(cfg, st, step, s); }
    else { TargetKeepsProcess(cfg, st, step); }
  }

  lemma RetiredKeepsProcess(st: State, s: SlotId, confirmed: bool)
    requires s in st.slots && st.slots[s].retiring.Some?
    ensures s in Retired(st, s, confirmed).slots && Retired(st, s, confirmed).slots[s].proc == st.slots[s].proc
  {
  }

  lemma TargetKeepsProcess(cfg: Config, st: State, step: SlotStep)
    requires SlotEnabled(cfg, st, step) && !step.StartTurn? && step.s in st.slots && st.slots[step.s].inUse
    ensures step.s in SlotApply(cfg, st, step).slots
    ensures SlotApply(cfg, st, step).slots[step.s].proc == st.slots[step.s].proc
  {
    match step
    case CancelAfterReap(_) =>
    case FinishRetirement(s, confirmed) => RetiredKeepsProcess(st, s, confirmed);
    case Unlink(_) =>
    case DropRetirement(_) =>
    case TransportFails(_) =>
    case _ =>
  }

  lemma TimerStepKeepsHeld(st: State, step: TimerStep, s: SlotId)
    requires TimerEnabled(st, step) && s in st.slots && st.slots[s].inUse
    ensures var st' := TimerApply(st, step);
            s in st'.slots && st'.slots[s].proc == st.slots[s].proc && st'.turns == st.turns
  {
    if step.Reserve? && Reservable(st.slots[step.cb.slot], step.cb.epoch) {
      assert Detach(st, step.cb.slot).slots[s] == st.slots[s];
    }
  }

  lemma WithdrawnIsDetaching(cfg: Config, st: State, c: Child, s: SlotId)
    requires Links(cfg, st) && Owners(st) && c in st.children && st.children[c].withdrawn
    requires s in st.slots && st.slots[s].proc == Some(c)
    ensures st.slots[s].inUse && st.slots[s].holder.Some? && st.slots[s].holder.value in st.turns
    ensures st.turns[st.slots[s].holder.value].phase == Held(s, Detaching)
  {
    assert SlotOwns(st, s) && ChildPlaced(st, c) && SlotOk(st.slots[s]) && SlotLinked(st, s);
    assert TurnLinked(cfg, st, st.slots[s].holder.value);
  }

  lemma PromptedIsLive(cfg: Config, st: State, t: TurnId)
    requires Links(cfg, st) && Stages(st) && PromptEnabled(st, t, SendOk)
    ensures var s := st.turns[t].phase.slot;
            s in st.slots && st.slots[s].proc == Some(st.turns[t].phase.stage.child) && st.slots[s].holder == Some(t)
  {
    assert TurnStaged(st, t) && TurnLinked(cfg, st, t);
  }

  /** A withdrawn child is never prompted, is never live in an idle slot, and is live at all only
      while the turn that withdrew it is about to detach it. */
  lemma WithdrawnNeverServes(cfg: Config, steps: seq<Step>, c: Child)
    requires Runs(cfg, Init, steps)
    ensures var st := Final(cfg, Init, steps);
            c in st.children && st.children[c].withdrawn ==>
              && (forall t :: PromptEnabled(st, t, SendOk) ==> st.turns[t].phase.stage.child != c)
              && (forall s :: s in st.slots && st.slots[s].proc == Some(c) ==>
                    st.slots[s].inUse && st.slots[s].holder.Some? && st.slots[s].holder.value in st.turns &&
                    st.turns[st.slots[s].holder.value].phase == Held(s, Detaching))
  {
    Reachable(cfg, steps);
    var st := Final(cfg, Init, steps);
    if c in st.children && st.children[c].withdrawn {
      forall s | s in st.slots && st.slots[s].proc == Some(c)
        ensures st.slots[s].inUse && st.slots[s].holder.Some? && st.slots[s].holder.value in st.turns &&
                st.turns[st.slots[s].holder.value].phase == Held(s, Detaching)
      {
        WithdrawnIsDetaching(cfg, st, c, s);
      }
      forall t | PromptEnabled(st, t, SendOk) ensures st.turns[t].phase.stage.child != c {
        PromptedIsLive(cfg, st, t);
      }
    }
  }

  // ----- Stale-kill timers -----

  /** A fired callback detaches only the runtime it was armed for, only if no claim began on it
      after arming, and only the very child that was live when it was armed. */
  lemma StaleTimerIsSafe(cfg: Config, steps: seq<Step>, cb: Callback)
    requires Runs(cfg, Init, steps) && TimerEnabled(Final(cfg, Init, steps), Reserve(cb))
    ensures var st := Final(cfg, Init, steps);
            var st' := TimerApply(st, Reserve(cb));
            && (forall s :: s in st.slots && s != cb.slot ==> st'.slots[s] == st.slots[s])
            && (st'.slots[cb.slot].proc != st.slots[cb.slot].proc ==>
                  st.slots[cb.slot].proc == Some(cb.child) && st.slots[cb.slot].claims == cb.claims &&
                  !st.slots[cb.slot].inUse && st.slots[cb.slot].key == cb.key)
  {
    Reachable(cfg, steps);
    assert CallbackOk(Final(cfg, Init, steps), cb);
  }

  /** With stale kills enabled, every idle runtime that still has a live process is covered: its
      release is about to arm a timer, the timer is armed, or its callback is in flight, in each
      case for the current claim and child. */
  lemma NoTimerIsLost(cfg: Config, steps: seq<Step>, s: SlotId)
    requires Runs(cfg, Init, steps) && cfg.staleKill
    ensures var st := Final(cfg, Init, steps);
            s in st.slots && st.slots[s].proc.Some? && !st.slots[s].inUse ==> Canonical(st, s) && Covered(st, s)
  {
    Reachable(cfg, steps);
    var st := Final(cfg, Init, steps);
    if s in st.slots && st.slots[s].proc.Some? && !st.slots[s].inUse {
      assert SlotCovered(cfg, st, s) && SlotOk(st.slots[s]) && SlotLinked(st, s);
    }
  }
}
