/** What continuity depends on. In a pool whose processes report incomplete cleanups but offer no
    WaitCleanup, a transport may report one after a turn read its history marker, the process's PID
    may be recycled before its retirement looks, and the retirement is then confirmed without closing
    the transport. The turn builds a new process and sends it the incremental prompt it had planned
    for the old one. */
module PoolTransportFailure {
  import opened Options
  import opened Transcript
  import opened PoolState
  import opened PoolSteps
  import opened PoolInv
  import opened PoolRuns
  import opened PoolContinuity

  const Key := RuntimeKey("w", "m", "s")

  lemma {:induction false} RunsSnoc(cfg: Config, st: State, steps: seq<Step>, x: Step)
    requires Runs(cfg, st, steps) && Enabled(cfg, Final(cfg, st, steps), x)
    ensures Runs(cfg, st, steps + [x]) && Final(cfg, st, steps + [x]) == Apply(cfg, Final(cfg, st, steps), x)
    decreases |steps|
  {
    if steps == [] {
      assert (steps + [x])[1..] == [];
    } else {
      assert (steps + [x])[1..] == steps[1..] + [x];
      RunsSnoc(cfg, Apply(cfg, st, steps[0]), steps[1..], x);
    }
  }

  function Conversation(): (ms: seq<Message>)
    ensures |ms| == 1
  {
    [Message("user", [])]
  }

  function Open(): Turn {
    Turn(Key, "", Conversation(), Opening)
  }

  /** Slot 0 is the only runtime. */
  predicate Alone(st: State) {
    (forall k :: k in st.pools ==> st.pools[k] == 0) && st.retirements == {}
  }

  /** Turn `t` is at `stage` on slot 0, which is `sl`; no gate is taken. */
  predicate At(st: State, t: TurnId, stage: Stage, sl: Slot) {
    && Alone(st)
    && t in st.turns && st.turns[t] == Open().(phase := Held(0, stage))
    && 0 in st.slots && st.slots[0] == sl && sl.key == Key
    && Key in st.pools && st.pools[Key] == 0 && st.gate.None?
  }

  predicate Reached(cfg: Config, steps: seq<Step>, st: State) {
    Runs(cfg, Init, steps) && Final(cfg, Init, steps) == st
  }

  lemma Take(cfg: Config, steps: seq<Step>, st: State, x: Step) returns (steps': seq<Step>, st': State)
    requires Reached(cfg, steps, st) && Enabled(cfg, st, x)
    ensures Reached(cfg, steps', st') && st' == Apply(cfg, st, x)
  {
    RunsSnoc(cfg, Init, steps, x);
    return steps + [x], Apply(cfg, st, x);
  }

  /** A turn opens and claims the idle slot. */
  lemma Opens(cfg: Config, steps: seq<Step>, st: State, t: TurnId, sl: Slot) returns (steps': seq<Step>, st': State)
    requires Reached(cfg, steps, st) && t !in st.turns && 0 in st.slots && st.slots[0] == sl && sl.key == Key
    requires Key in st.pools && st.pools[Key] == 0 && st.gate.None? && Alone(st)
    requires !(sl.deleted || sl.inUse || sl.spawning || sl.retiring.Some? || sl.quarantined || CleanupFailed(sl) ||
               sl.withdrawn)
    requires sl.proc.Some? ==> sl.config == ""
    ensures Reached(cfg, steps', st') && st'.flights == st.flights && st'.children == st.children
    ensures At(st', t, Claimed, ClaimedSlot(sl, t))
    ensures st'.turns.Keys == st.turns.Keys + {t}
  {
    steps', st' := Take(cfg, steps, st, BySlot(StartTurn(t, Open())));
    steps', st' := Take(cfg, steps', st', ByClaim(t, ResolveSlot));
    steps', st' := Take(cfg, steps', st', ByClaim(t, TryClaim));
  }

  /** It reads the marker. */
  lemma Reads(cfg: Config, steps: seq<Step>, st: State, t: TurnId, sl: Slot) returns (steps': seq<Step>, st': State)
    requires Reached(cfg, steps, st) && At(st, t, Claimed, sl) && !ResetNeeded(Conversation(), sl.history)
    ensures Reached(cfg, steps', st') && st'.flights == st.flights && st'.children == st.children
    ensures At(st', t, Planned(Plan(sl.history, sl.proc)), sl)
    ensures st'.turns.Keys == st.turns.Keys
  {
    steps', st' := Take(cfg, steps, st, ByPlan(t, ValidateReuse(false, false)));
    steps', st' := Take(cfg, steps', st', ByPlan(t, ReadHistory));
  }

  /** The turn leads a construction flight and is about to clear the slot. */
  lemma Leads(cfg: Config, steps: seq<Step>, st: State, t: TurnId, sl: Slot, plan: Plan)
    returns (steps': seq<Step>, st': State)
    requires Reached(cfg, steps, st) && At(st, t, Planned(plan), sl) && FlightKey(Key) !in st.flights
    requires sl.proc.None? || CleanupFailed(sl)
    ensures Reached(cfg, steps', st') && st'.children == st.children && At(st', t, Killing(0, ThenBuild(plan)), sl)
    ensures st'.flights == st.flights[FlightKey(Key) := t]
    ensures st'.turns.Keys == st.turns.Keys
  {
    steps', st' := Take(cfg, steps, st, ByFlight(t, BeginFlight));
    steps', st' := Take(cfg, steps', st', ByFlight(t, LeaderKill));
    steps', st' := Take(cfg, steps', st', ByKill(t, BeginKill));
  }

  /** Nothing to kill. */
  lemma FindsNothing(cfg: Config, steps: seq<Step>, st: State, t: TurnId, sl: Slot, plan: Plan)
    returns (steps': seq<Step>, st': State)
    requires Reached(cfg, steps, st) && At(st, t, Killing(0, ThenBuild(plan)), sl)
    requires sl.proc.None? && sl.retiring.None? && !sl.cleanupErr
    ensures Reached(cfg, steps', st') && st'.children == st.children && st'.flights == st.flights &&
            At(st', t, Cleared(plan), sl)
    ensures st'.turns.Keys == st.turns.Keys
  {
    steps', st' := Take(cfg, steps, st, ByKill(t, KillLock));
    steps', st' := Take(cfg, steps', st', ByKill(t, KillReturn));
  }

  /** The failed process is detached and confirmed gone. */
  lemma Clears(cfg: Config, steps: seq<Step>, st: State, t: TurnId, sl: Slot, plan: Plan)
    returns (steps': seq<Step>, st': State)
    requires Reached(cfg, steps, st) && At(st, t, Killing(0, ThenBuild(plan)), sl)
    requires sl.proc.Some? && sl.proc.value in st.children && sl.retiring.None? && !sl.cleanupErr && !sl.cancelDue
    requires !cfg.LearnsCleanup()
    ensures Reached(cfg, steps', st') && st'.children.Keys == st.children.Keys && st'.flights == st.flights
    ensures At(st', t, Cleared(plan), RetiredSlot(Detached(sl), sl.proc.value, true))
    ensures st'.turns.Keys == st.turns.Keys
  {
    steps', st' := Take(cfg, steps, st, ByKill(t, KillLock));
    steps', st' := Take(cfg, steps', st', BySlot(FinishRetirement(0, true)));
    steps', st' := Take(cfg, steps', st', ByKill(t, AwaitKill(false)));
    steps', st' := Take(cfg, steps', st', ByKill(t, KillReturn));
  }

  /** The gate is free and nothing is live, so one more process is permitted. */
  lemma Passes(cfg: Config, steps: seq<Step>, st: State, t: TurnId, sl: Slot, plan: Plan)
    returns (steps': seq<Step>, st': State)
    requires Reached(cfg, steps, st) && At(st, t, Cleared(plan), sl) && !MayBeLive(sl) && cfg.maxRuntimes > 0
    ensures Reached(cfg, steps', st') && st'.children == st.children && st'.flights == st.flights
    ensures st'.turns.Keys == st.turns.Keys && At(st'.(gate := None), t, Permitted(plan), sl) && st'.gate == Some(t)
  {
    steps', st' := Take(cfg, steps, st, ByGate(t, AcquireGate));
    steps', st' := Take(cfg, steps', st', ByGate(t, BeginCount));
    assert Snapshot(st') == {0};
    steps', st' := Take(cfg, steps', st', ByGate(t, CountSlot(0)));
    steps', st' := Take(cfg, steps', st', ByGate(t, EndCount));
  }

  /** A permitted process is spawned and registered. */
  lemma Registers(cfg: Config, steps: seq<Step>, st: State, t: TurnId, sl: Slot, plan: Plan, c: Child)
    returns (steps': seq<Step>, st': State)
    requires Reached(cfg, steps, st) && At(st.(gate := None), t, Permitted(plan), sl) && c !in st.children
    requires cfg.maxRuntimes == 0 ==> st.gate.None?
    requires Publishable(sl)
    ensures Reached(cfg, steps', st') && st'.children.Keys == st.children.Keys + {c} && st'.children[c].log == []
    ensures st'.flights == st.flights && At(st', t, Handshaking(plan), Publish(sl, c, ""))
    ensures st'.turns.Keys == st.turns.Keys
  {
    steps', st' := Take(cfg, steps, st, BySpawn(t, Spawn(c)));
    steps', st' := Take(cfg, steps', st', BySpawn(t, Register));
    steps', st' := Take(cfg, steps', st', ByGate(t, ReleaseGate));
  }

  lemma Spawns(cfg: Config, steps: seq<Step>, st: State, t: TurnId, sl: Slot, plan: Plan, c: Child)
    returns (steps': seq<Step>, st': State)
    requires Reached(cfg, steps, st) && At(st, t, Cleared(plan), sl) && c !in st.children
    requires !MayBeLive(sl) && Publishable(sl)
    ensures Reached(cfg, steps', st') && st'.children.Keys == st.children.Keys + {c} && st'.children[c].log == []
    ensures st'.flights == st.flights && At(st', t, Handshaking(plan), Publish(sl, c, ""))
    ensures st'.turns.Keys == st.turns.Keys
  {
    if cfg.maxRuntimes == 0 {
      steps', st' := Take(cfg, steps, st, ByGate(t, SkipGate));
    } else {
      steps', st' := Passes(cfg, steps, st, t, sl, plan);
    }
    steps', st' := Registers(cfg, steps', st', t, sl, plan, c);
  }

  /** The handshake succeeds and the planned prompt is sent to it. */
  lemma Prompts(cfg: Config, steps: seq<Step>, st: State, t: TurnId, sl: Slot, plan: Plan, c: Child)
    returns (steps': seq<Step>, st': State)
    requires Reached(cfg, steps, st) && At(st, t, Handshaking(plan), sl) && c in st.children && st.children[c].log == []
    requires sl.proc == Some(c) && sl.retiring.None? && !sl.quarantined && !CleanupFailed(sl) && sl.config == ""
    ensures Reached(cfg, steps', st') && st'.flights == st.flights - {FlightKey(Key)} &&
            st'.children.Keys == st.children.Keys
    ensures st'.children[c].log == [Prompt(Conversation(), plan.base)]
    ensures At(st', t, Sent(plan, c), sl.(spawning := false, initialized := true))
    ensures st'.turns.Keys == st.turns.Keys
  {
    steps', st' := Take(cfg, steps, st, BySpawn(t, HandshakeOk));
    steps', st' := Take(cfg, steps', st', ByFlight(t, FinishFlight));
    steps', st' := Take(cfg, steps', st', ByPlan(t, CheckReady));
    steps', st' := Take(cfg, steps', st', ByPrompt(t, SendOk));
  }

  /** The turn commits its marker and releases the slot. */
  lemma Ends(cfg: Config, steps: seq<Step>, st: State, t: TurnId, sl: Slot, plan: Plan, c: Child)
    returns (steps': seq<Step>, st': State)
    requires Reached(cfg, steps, st) && At(st, t, Sent(plan, c), sl)
    ensures Reached(cfg, steps', st') && st'.flights == st.flights && st'.children == st.children
    ensures st'.turns.Keys == st.turns.Keys && st'.pools == st.pools && st'.gate == st.gate && Alone(st')
    ensures 0 in st'.slots
    ensures st'.slots[0] == sl.(history := NextHistory(Conversation(), plan.base), inUse := false, holder := None)
  {
    steps', st' := Take(cfg, steps, st, ByPrompt(t, Commit));
    steps', st' := Take(cfg, steps', st', ByClose(t, CloseClean));
    steps', st' := Take(cfg, steps', st', ByClose(t, Release));
  }

  lemma Marker(base: HistoryState)
    ensures Continues(Conversation(), NextHistory(Conversation(), base))
  {
    CommittedMarkerDescribesCall(Conversation(), base);
    assert Conversation()[..1] == Conversation();
  }

  /** A turn of an empty slot builds a process and is about to finish its handshake. */
  lemma FirstBuild(cfg: Config) returns (steps: seq<Step>, st: State, sl: Slot)
    ensures Reached(cfg, steps, st) && st.turns.Keys == {0} && st.children.Keys == {0} && st.children[0].log == []
    ensures st.flights == map[FlightKey(Key) := 0] && At(st, 0, Handshaking(Plan(Zero, None)), sl)
    ensures sl == Publish(ClaimedSlot(NewSlot(Key), 0), 0, "")
  {
    steps, st := [], Init;
    steps, st := Take(cfg, steps, st, BySlot(CreateSlot(0, Key)));
    steps, st := Opens(cfg, steps, st, 0, NewSlot(Key));
    sl := ClaimedSlot(NewSlot(Key), 0);
    steps, st := Reads(cfg, steps, st, 0, sl);
    steps, st := Leads(cfg, steps, st, 0, sl, Plan(Zero, None));
    steps, st := FindsNothing(cfg, steps, st, 0, sl, Plan(Zero, None));
    steps, st := Spawns(cfg, steps, st, 0, sl, Plan(Zero, None), 0);
    sl := Publish(sl, 0, "");
  }

  /** It ends with a live process that was sent the whole conversation. */
  lemma FirstTurn(cfg: Config) returns (steps: seq<Step>, st: State, sl: Slot)
    ensures Reached(cfg, steps, st) && st.turns.Keys == {0} && st.children.Keys == {0} && FlightKey(Key) !in st.flights
    ensures 0 in st.slots && st.slots[0] == sl && Key in st.pools && st.pools[Key] == 0 && st.gate.None? && Alone(st)
    ensures sl == NewSlot(Key).(proc := Some(0), initialized := true, history := NextHistory(Conversation(), Zero),
                                epoch := 1, claims := 1)
  {
    steps, st, sl := FirstBuild(cfg);
    steps, st := Prompts(cfg, steps, st, 0, sl, Plan(Zero, None), 0);
    sl := sl.(spawning := false, initialized := true);
    steps, st := Ends(cfg, steps, st, 0, sl, Plan(Zero, None), 0);
    sl := st.slots[0];
  }

  /** The second turn reads the marker, and the transport fails. */
  lemma SecondTurn(cfg: Config) returns (steps: seq<Step>, st: State, sl: Slot, plan: Plan)
    requires cfg.reportsCleanup
    ensures Reached(cfg, steps, st) && st.children.Keys == {0} && FlightKey(Key) !in st.flights
    ensures At(st, 1, Planned(plan), sl) && Continues(Conversation(), plan.base)
    ensures sl.proc == Some(0) && sl.transportFailed && sl.retiring.None? && !sl.cleanupErr && !sl.cancelDue
    ensures !sl.quarantined && !sl.deleted
  {
    steps, st, sl := FirstTurn(cfg);
    Marker(Zero);
    plan := Plan(sl.history, Some(0));
    steps, st := Opens(cfg, steps, st, 1, sl);
    steps, st := Reads(cfg, steps, st, 1, ClaimedSlot(sl, 1));
    steps, st := Take(cfg, steps, st, BySlot(TransportFails(0)));
    sl := st.slots[0];
  }

  /** The process it builds instead is sent a prompt that leaves out messages it never received. */
  lemma ContinuityFailsAfterTransportFailure(cfg: Config) returns (steps: seq<Step>, c: Child)
    requires !cfg.LearnsCleanup()
    ensures Runs(cfg, Init, steps)
    ensures var st := Final(cfg, Init, steps);
            c in st.children && |st.children[c].log| == 1 && !st.children[c].log[0].Full() &&
            !Coherent(st.children[c].log)
  {
    var st, sl, plan;
    steps, st, sl, plan := SecondTurn(cfg);
    steps, st := Leads(cfg, steps, st, 1, sl, plan);
    steps, st := Clears(cfg, steps, st, 1, sl, plan);
    sl := RetiredSlot(Detached(sl), 0, true);
    steps, st := Spawns(cfg, steps, st, 1, sl, plan, 1);
    sl := Publish(sl, 1, "");
    steps, st := Prompts(cfg, steps, st, 1, sl, plan, 1);
    c := 1;
    assert !Extends(st.children[c].log, 0);
  }

  /** Transcript continuity holds in every run of a pool if and only if its processes never report an
      incomplete cleanup, or offer WaitCleanup. */
  lemma ContinuityIsExact(cfg: Config)
    ensures cfg.joinsCleanup || !cfg.reportsCleanup <==>
              forall steps, c :: Runs(cfg, Init, steps) ==> SessionOk(Final(cfg, Init, steps), c)
  {
    if cfg.LearnsCleanup() {
      forall steps, c | Runs(cfg, Init, steps) ensures SessionOk(Final(cfg, Init, steps), c) {
        SessionsAreContinuous(cfg, steps, c);
      }
    } else {
      var steps, c := ContinuityFailsAfterTransportFailure(cfg);
      assert !SessionOk(Final(cfg, Init, steps), c);
    }
  }

  predicate SessionOk(st: State, c: Child) {
    c in st.children ==> Coherent(st.children[c].log)
  }
}
