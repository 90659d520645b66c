/** When the steps that take a slot or a process may be taken, said of reachable states alone: who
    holds the slot, whether it has a process, and what its retirements left behind. */
module PoolGuards {
  import opened Options
  import opened Transcript
  import opened PoolState
  import opened PoolSteps
  import opened PoolInv
  import opened PoolLocal
  import opened PoolHeld
  import opened PoolRuns
  import opened TranscriptDigest

  ghost predicate Free(st: State, s: SlotId) {
    forall x :: !HeldBy(st, x, s)
  }

  /** No retirement is in flight, none failed, and no transport reported a failure. */
  predicate Sound(sl: Slot) {
    sl.retiring.None? && sl.failed.None? && !sl.quarantined && !sl.cleanupErr && !sl.transportFailed
  }

  lemma FreeIsUnused(cfg: Config, st: State, s: SlotId)
    requires Inv(cfg, st) && s in st.slots
    ensures Free(st, s) <==> !st.slots[s].inUse
    ensures SlotOk(st.slots[s]) && SlotLinked(st, s)
  {
    assert SlotOk(st.slots[s]) && SlotLinked(st, s);
    if st.slots[s].inUse {
      assert HeldBy(st, st.slots[s].holder.value, s);
    } else {
      forall x ensures !HeldBy(st, x, s) { assert HeldBy(st, x, s) ==> TurnLinked(cfg, st, x); }
    }
  }

  // ----- Claims -----

  lemma SlotStepClaimsNothing(cfg: Config, st: State, step: SlotStep, t: TurnId, s: SlotId)
    requires SlotEnabled(cfg, st, step) && HeldBy(SlotApply(cfg, st, step), t, s)
    ensures HeldBy(st, t, s)
  {
  }

  lemma TimerStepClaimsNothing(st: State, step: TimerStep, t: TurnId, s: SlotId)
    requires TimerEnabled(st, step) && HeldBy(TimerApply(st, step), t, s)
    ensures HeldBy(st, t, s)
  {
  }

  lemma KillLockClaimsNothing(st: State, u: TurnId, t: TurnId, s: SlotId)
    requires KillEnabled(st, u, KillLock) && HeldBy(KillApply(st, u, KillLock), t, s)
    ensures HeldBy(st, t, s)
  {
  }

  lemma KillStepClaimsNothing(st: State, u: TurnId, step: KillStep, t: TurnId, s: SlotId)
    requires KillEnabled(st, u, step) && HeldBy(KillApply(st, u, step), t, s)
    ensures HeldBy(st, t, s)
  {
    match step
    case KillLock => KillLockClaimsNothing(st, u, t, s);
    case _ =>
  }

  lemma FlightStepClaimsNothing(st: State, u: TurnId, step: FlightStep, t: TurnId, s: SlotId)
    requires FlightEnabled(st, u, step) && HeldBy(FlightApply(st, u, step), t, s)
    ensures HeldBy(st, t, s)
  {
  }

  lemma GateStepClaimsNothing(cfg: Config, st: State, u: TurnId, step: GateStep, t: TurnId, s: SlotId)
    requires GateEnabled(cfg, st, u, step) && HeldBy(GateApply(cfg, st, u, step), t, s)
    ensures HeldBy(st, t, s)
  {
  }

  lemma SpawnStepClaimsNothing(st: State, u: TurnId, step: SpawnStep, t: TurnId, s: SlotId)
    requires SpawnEnabled(st, u, step) && HeldBy(SpawnApply(st, u, step), t, s)
    ensures HeldBy(st, t, s)
  {
  }

  lemma PlanStepClaimsNothing(st: State, u: TurnId, step: PlanStep, t: TurnId, s: SlotId)
    requires PlanEnabled(st, u, step) && HeldBy(PlanApply(st, u, step), t, s)
    ensures HeldBy(st, t, s)
  {
  }

  lemma PromptStepClaimsNothing(st: State, u: TurnId, step: PromptStep, t: TurnId, s: SlotId)
    requires PromptEnabled(st, u, step) && HeldBy(PromptApply(st, u, step), t, s)
    ensures HeldBy(st, t, s)
  {
  }

  lemma CloseStepClaimsNothing(cfg: Config, st: State, u: TurnId, step: CloseStep, t: TurnId, s: SlotId)
    requires CloseEnabled(st, u, step) && HeldBy(CloseApply(cfg, st, u, step), t, s)
    ensures HeldBy(st, t, s)
  {
  }

  lemma ClaimStepClaims(st: State, u: TurnId, step: ClaimStep, t: TurnId, s: SlotId)
    requires ClaimEnabled(st, u, step) && HeldBy(ClaimApply(st, u, step), t, s) && !HeldBy(st, t, s)
    ensures u == t && step.TryClaim? && st.turns[t].phase == Resolved(s)
  {
  }

  lemma OnlyClaimsHold(cfg: Config, st: State, step: Step, t: TurnId, s: SlotId)
    requires Enabled(cfg, st, step) && HeldBy(Apply(cfg, st, step), t, s) && !HeldBy(st, t, s)
    ensures step == ByClaim(t, TryClaim) && t in st.turns && st.turns[t].phase == Resolved(s)
  {
    match step
    case BySlot(x) => SlotStepClaimsNothing(cfg, st, x, t, s);
    case ByTimer(x) => TimerStepClaimsNothing(st, x, t, s);
    case ByClaim(u, x) => ClaimStepClaims(st, u, x, t, s);
    case ByKill(u, x) => KillStepClaimsNothing(st, u, x, t, s);
    case ByFlight(u, x) => FlightStepClaimsNothing(st, u, x, t, s);
    case ByGate(u, x) => GateStepClaimsNothing(cfg, st, u, x, t, s);
    case BySpawn(u, x) => SpawnStepClaimsNothing(st, u, x, t, s);
    case ByPlan(u, x) => PlanStepClaimsNothing(st, u, x, t, s);
    case ByPrompt(u, x) => PromptStepClaimsNothing(st, u, x, t, s);
    case ByClose(u, x) => CloseStepClaimsNothing(cfg, st, u, x, t, s);
  }

  /** tryClaimForTurn takes the slot it looked up exactly if no turn holds it, it is not deleted, no
      retirement of its child is in flight and no cleanup failed. A failed cleanup of a slot that is
      otherwise free refuses the turn for good; every other obstacle lets it try again. The turn that
      takes it may use the process as it is unless that was started for another configuration. */
  lemma ClaimIsExact(cfg: Config, steps: seq<Step>, t: TurnId)
    requires Runs(cfg, Init, steps) && ClaimEnabled(Final(cfg, Init, steps), t, TryClaim)
    ensures var st := Final(cfg, Init, steps);
            var st' := ClaimApply(st, t, TryClaim);
            var s := st.turns[t].phase.slot;
            var sl := st.slots[s];
            && (HeldBy(st', t, s) <==> Free(st, s) && !sl.deleted && Sound(sl))
            && (st'.turns[t].phase.Done? <==>
                  Free(st, s) && !sl.deleted && sl.retiring.None? && (sl.failed.Some? || sl.transportFailed))
            && (!HeldBy(st', t, s) && !st'.turns[t].phase.Done? ==>
                  st'.turns[t].phase.Opening? && st'.slots == st.slots && st'.timers == st.timers)
            && (HeldBy(st', t, s) ==>
                  (st'.turns[t].phase.stage.Claimed? <==> sl.proc.None? || sl.config == st.turns[t].want))
  {
    Reachable(cfg, steps);
    var st := Final(cfg, Init, steps);
    FreeIsUnused(cfg, st, st.turns[t].phase.slot);
  }

  /** Whatever the step, a turn that did not hold a slot holds it afterwards only by claiming it, and
      then no turn held it, it is the canonical slot of the turn's key, and nothing of it is being
      retired or failed. The claim opens a new generation and cancels the key's timer. */
  lemma ClaimedSlotIsSound(cfg: Config, steps: seq<Step>, step: Step, t: TurnId, s: SlotId)
    requires Runs(cfg, Init, steps) && Enabled(cfg, Final(cfg, Init, steps), step)
    requires var st := Final(cfg, Init, steps); HeldBy(Apply(cfg, st, step), t, s) && !HeldBy(st, t, s)
    ensures var st := Final(cfg, Init, steps);
            var st' := Apply(cfg, st, step);
            && step == ByClaim(t, TryClaim)
            && Free(st, s) && Canonical(st, s) && !st.slots[s].deleted && Sound(st.slots[s])
            && st.slots[s].key == st.turns[t].key && st.slots[s].key !in st'.timers
            && s in st'.slots && st'.slots[s].epoch == st.slots[s].epoch + 1 && st'.slots[s].proc == st.slots[s].proc
  {
    Reachable(cfg, steps);
    var st := Final(cfg, Init, steps);
    OnlyClaimsHold(cfg, st, step, t, s);
    ClaimIsExact(cfg, steps, t);
    FreeIsUnused(cfg, st, s);
    assert TurnLinked(cfg, st, t);
  }

  // ----- Eviction, reaping and stale kills -----

  /** A slot with a process may be evicted exactly if no turn holds it; nothing else may be. */
  lemma EvictionIsExact(cfg: Config, steps: seq<Step>, s: SlotId)
    requires Runs(cfg, Init, steps) && cfg.maxRuntimes > 0
    ensures var st := Final(cfg, Init, steps);
            SlotEnabled(cfg, st, Evict(s)) <==> s in st.slots && st.slots[s].proc.Some? && Free(st, s)
  {
    Reachable(cfg, steps);
    var st := Final(cfg, Init, steps);
    if s in st.slots { FreeIsUnused(cfg, st, s); }
  }

  /** The idle reaper may take a process exactly if no turn holds its slot and its transport has not
      reported a failed cleanup. */
  lemma ReapIsExact(cfg: Config, steps: seq<Step>, s: SlotId)
    requires Runs(cfg, Init, steps)
    ensures var st := Final(cfg, Init, steps);
            SlotEnabled(cfg, st, Reap(s)) <==>
            s in st.slots && st.slots[s].proc.Some? && !st.slots[s].transportFailed && Free(st, s)
  {
    Reachable(cfg, steps);
    var st := Final(cfg, Init, steps);
    if s in st.slots { FreeIsUnused(cfg, st, s); }
  }

  /** A stale-kill callback takes the process exactly if its epoch is still the slot's; no turn can
      then hold the slot. */
  lemma ReservationIsExact(cfg: Config, steps: seq<Step>, cb: Callback)
    requires Runs(cfg, Init, steps) && TimerEnabled(Final(cfg, Init, steps), Reserve(cb))
    ensures var st := Final(cfg, Init, steps);
            var st' := TimerApply(st, Reserve(cb));
            && cb.slot in st'.slots
            && (st'.slots[cb.slot].proc != st.slots[cb.slot].proc <==>
                  st.slots[cb.slot].proc.Some? && st.slots[cb.slot].epoch == cb.epoch)
            && (st.slots[cb.slot].epoch == cb.epoch ==> Free(st, cb.slot))
            && (st'.slots[cb.slot].proc == st.slots[cb.slot].proc ==> st'.slots[cb.slot] == st.slots[cb.slot])
  {
    Reachable(cfg, steps);
    var st := Final(cfg, Init, steps);
    assert CallbackOk(st, cb);
    FreeIsUnused(cfg, st, cb.slot);
  }

  /** What scheduleStaleKill does for release `p`. */
  ghost predicate ArmsExactly(st: State, p: Schedule)
    requires TimerEnabled(st, RunSchedule(p))
  {
    var st' := TimerApply(st, RunSchedule(p));
    var sl := st.slots[p.slot];
    if sl.proc.Some? && sl.epoch == p.token then
      && Free(st, p.slot) && Canonical(st, p.slot)
      && p.slot in st'.slots && st'.slots[p.slot].epoch == p.token + 1
      && st'.timers == st.timers[sl.key := Timer(p.token + 1, p.slot, sl.claims, sl.proc.value, false)]
    else st'.timers == st.timers && st'.slots == st.slots
  }

  lemma Arms(st: State, p: Schedule)
    requires TimerEnabled(st, RunSchedule(p)) && ScheduleOk(st, p)
    requires SlotOk(st.slots[p.slot]) && SlotLinked(st, p.slot) && (Free(st, p.slot) <==> !st.slots[p.slot].inUse)
    ensures ArmsExactly(st, p)
  {
    assert Schedulable(st, p) <==> st.slots[p.slot].proc.Some? && st.slots[p.slot].epoch == p.token;
  }

  /** A release arms a timer exactly if its slot still has a process and nothing has spent the
      release's generation; the timer gets the next generation of that slot and child. */
  lemma ArmingIsExact(cfg: Config, steps: seq<Step>, p: Schedule)
    requires Runs(cfg, Init, steps) && TimerEnabled(Final(cfg, Init, steps), RunSchedule(p))
    ensures ArmsExactly(Final(cfg, Init, steps), p)
  {
    Reachable(cfg, steps);
    var st := Final(cfg, Init, steps);
    assert ScheduleOk(st, p);
    FreeIsUnused(cfg, st, p.slot);
    Arms(st, p);
  }

  /** In a bounded pool a slot may be marked for removal exactly if no turn holds it and no child is
      live, retiring or unconfirmed in it. */
  lemma RemovalIsExact(cfg: Config, steps: seq<Step>, s: SlotId)
    requires Runs(cfg, Init, steps) && cfg.maxRuntimes > 0
    ensures var st := Final(cfg, Init, steps);
            SlotEnabled(cfg, st, MarkDeleted(s)) <==>
            && s in st.slots && Free(st, s)
            && st.slots[s].proc.None? && st.slots[s].retiring.None? && st.slots[s].failed.None?
  {
    Reachable(cfg, steps);
    var st := Final(cfg, Init, steps);
    if s in st.slots { FreeIsUnused(cfg, st, s); }
  }

  // ----- Kills and withdrawals -----

  /** KillRuntimeContext under the runtime lock: the process of the slot goes into retirement, the turn
      waits for whatever retirement is then in flight, and without one it is done, successfully
      exactly if none failed. */
  predicate KillsExactly(st: State, t: TurnId)
    requires KillEnabled(st, t, KillLock)
  {
    var s := st.turns[t].phase.slot;
    var st' := KillApply(st, t, KillLock);
    && s in st.slots && s in st'.slots && HeldBy(st', t, s) && st'.slots[s].proc.None?
    && (st.slots[s].proc.Some? ==> st'.slots[s].retiring == st.slots[s].proc)
    && st'.turns[t].phase.stage ==
       if st'.slots[s].retiring.Some? then AwaitingKill(s, st.turns[t].phase.stage.after)
       else Killed(st.turns[t].phase.stage.after, st.slots[s].failed.None?)
  }

  lemma Kills(st: State, t: TurnId)
    requires KillEnabled(st, t, KillLock) && st.turns[t].phase.stage.rt == st.turns[t].phase.slot
    requires SlotOk(st.slots[st.turns[t].phase.slot])
    ensures KillsExactly(st, t)
  {
    var s := st.turns[t].phase.slot;
    if st.slots[s].proc.Some? {
      assert Detach(st, s).turns == st.turns;
    }
  }

  lemma KillIsExact(cfg: Config, steps: seq<Step>, t: TurnId)
    requires Runs(cfg, Init, steps) && KillEnabled(Final(cfg, Init, steps), t, KillLock)
    ensures KillsExactly(Final(cfg, Init, steps), t)
  {
    Reachable(cfg, steps);
    var st := Final(cfg, Init, steps);
    assert TurnLinked(cfg, st, t) && TurnStaged(st, t);
    FreeIsUnused(cfg, st, st.turns[t].phase.slot);
    Kills(st, t);
  }

  /** A wait for a retirement succeeds exactly if it was not cancelled and the slot has no failed
      retirement, and a flight leader goes on to build exactly if its kill succeeded. */
  predicate WaitsExactly(st: State, t: TurnId, cancelled: bool)
    requires t in st.turns && st.turns[t].phase.Held? && st.turns[t].phase.slot in st.slots
  {
    var stage := st.turns[t].phase.stage;
    && (KillEnabled(st, t, AwaitKill(cancelled)) ==>
          KillApply(st, t, AwaitKill(cancelled)).turns[t].phase.stage ==
          Killed(stage.after, !cancelled && st.slots[st.turns[t].phase.slot].failed.None?))
    && (stage.Killed? && stage.after.ThenBuild? ==>
          KillEnabled(st, t, KillReturn) &&
          (KillApply(st, t, KillReturn).turns[t].phase.stage.Cleared? <==> stage.ok))
  }

  lemma Waits(cfg: Config, st: State, t: TurnId, cancelled: bool)
    requires t in st.turns && st.turns[t].phase.Held?
    requires TurnLinked(cfg, st, t) && TurnStaged(st, t) && SlotOk(st.slots[st.turns[t].phase.slot])
    ensures WaitsExactly(st, t, cancelled)
  {
  }

  lemma KillWaitIsExact(cfg: Config, steps: seq<Step>, t: TurnId, cancelled: bool)
    requires Runs(cfg, Init, steps)
    requires var st := Final(cfg, Init, steps); t in st.turns && st.turns[t].phase.Held?
    ensures var st := Final(cfg, Init, steps);
            st.turns[t].phase.slot in st.slots && WaitsExactly(st, t, cancelled)
  {
    Reachable(cfg, steps);
    var st := Final(cfg, Init, steps);
    assert TurnLinked(cfg, st, t) && TurnStaged(st, t);
    FreeIsUnused(cfg, st, st.turns[t].phase.slot);
    Waits(cfg, st, t, cancelled);
  }

  /** A withdrawal is recorded on the child that is serving the turn, and drops its marker. */
  predicate WithdrawsExactly(cfg: Config, st: State, t: TurnId)
    requires CloseEnabled(st, t, CloseWithdrawn)
  {
    var s := st.turns[t].phase.slot;
    var st' := CloseApply(cfg, st, t, CloseWithdrawn);
    && s in st.slots && s in st'.slots && st.slots[s].proc.Some? && st.slots[s].proc.value in st'.children
    && st'.children[st.slots[s].proc.value].withdrawn && st'.slots[s].history == Zero
    && st'.turns[t].phase == Held(s, Detaching)
  }

  lemma Withdraws(cfg: Config, st: State, t: TurnId)
    requires CloseEnabled(st, t, CloseWithdrawn)
    requires var s := st.turns[t].phase.slot;
             && s in st.slots && st.slots[s].proc.Some? && st.slots[s].proc.value in st.children
             && st.pools[st.turns[t].key] == s
    ensures WithdrawsExactly(cfg, st, t)
  {
  }

  /** The withdrawn child goes into retirement before its turn releases the slot. */
  predicate DetachesExactly(cfg: Config, st: State, t: TurnId)
    requires CloseEnabled(st, t, DetachTurn)
  {
    var s := st.turns[t].phase.slot;
    var st' := CloseApply(cfg, st, t, DetachTurn);
    && s in st.slots && s in st'.slots && st.slots[s].proc.Some?
    && st'.slots[s].proc.None? && st'.slots[s].retiring == st.slots[s].proc && st'.turns[t].phase == Held(s, Releasing)
  }

  lemma Detaches(cfg: Config, st: State, t: TurnId)
    requires CloseEnabled(st, t, DetachTurn)
    requires var s := st.turns[t].phase.slot;
             s in st.slots && SlotOk(st.slots[s]) && st.slots[s].proc.Some? && st.pools[st.turns[t].key] == s
    ensures DetachesExactly(cfg, st, t)
  {
    assert Detach(st, st.turns[t].phase.slot).turns == st.turns;
  }

  lemma Serves(cfg: Config, st: State, t: TurnId, s: SlotId)
    requires Here(cfg, st, t, s) && st.turns[t].key in st.pools
    requires st.turns[t].phase.stage.Streaming? || st.turns[t].phase.stage.Detaching?
    ensures st.slots[s].proc.Some? && st.slots[s].proc.value in st.children && st.pools[st.turns[t].key] == s
  {
  }

  /** A turn cut short withdraws the child that was serving it, and gives it up before the slot. */
  lemma WithdrawalIsExact(cfg: Config, steps: seq<Step>, t: TurnId)
    requires Runs(cfg, Init, steps)
    ensures var st := Final(cfg, Init, steps);
            && (CloseEnabled(st, t, CloseWithdrawn) ==> WithdrawsExactly(cfg, st, t))
            && (CloseEnabled(st, t, DetachTurn) ==> DetachesExactly(cfg, st, t))
  {
    Reachable(cfg, steps);
    var st := Final(cfg, Init, steps);
    if CloseEnabled(st, t, CloseWithdrawn) {
      HereHolds(cfg, st, t);
      Serves(cfg, st, t, st.turns[t].phase.slot);
      Withdraws(cfg, st, t);
    }
    if CloseEnabled(st, t, DetachTurn) {
      HereHolds(cfg, st, t);
      Serves(cfg, st, t, st.turns[t].phase.slot);
      Detaches(cfg, st, t);
    }
  }

  // ----- Registration, reuse and commit -----

  lemma Registers(cfg: Config, st: State, t: TurnId)
    requires t in st.turns && st.turns[t].phase.Held? && st.turns[t].phase.stage.Spawned?
    requires TurnLinked(cfg, st, t) && TurnStaged(st, t)
    requires SlotOk(st.slots[st.turns[t].phase.slot]) && SlotLinked(st, st.turns[t].phase.slot)
    ensures var sl := st.slots[st.turns[t].phase.slot];
            SpawnEnabled(st, t, Register) <==> sl.retiring.None? && sl.failed.None?
    ensures Canonical(st, st.turns[t].phase.slot) && st.slots[st.turns[t].phase.slot].key == st.turns[t].key
  {
  }

  /** A started child is registered exactly if the slot its turn holds has no retirement in flight
      and no failed one, and then it is that slot's process, not yet initialized, with the wanted
      configuration. */
  lemma RegistrationIsExact(cfg: Config, steps: seq<Step>, t: TurnId)
    requires Runs(cfg, Init, steps)
    requires var st := Final(cfg, Init, steps);
             t in st.turns && st.turns[t].phase.Held? && st.turns[t].phase.stage.Spawned?
    ensures var st := Final(cfg, Init, steps);
            var s := st.turns[t].phase.slot;
            && s in st.slots
            && (SpawnEnabled(st, t, Register) <==> st.slots[s].retiring.None? && st.slots[s].failed.None?)
            && (SpawnEnabled(st, t, Register) ==>
                  var st' := SpawnApply(st, t, Register);
                  && s in st'.slots && st'.slots[s].proc == Some(st.turns[t].phase.stage.child)
                  && st'.slots[s].config == st.turns[t].want && !st'.slots[s].initialized)
  {
    Reachable(cfg, steps);
    var st := Final(cfg, Init, steps);
    assert TurnLinked(cfg, st, t) && TurnStaged(st, t);
    FreeIsUnused(cfg, st, st.turns[t].phase.slot);
    Registers(cfg, st, t);
  }

  /** EnsureProcess hands over a process without building one exactly if the slot the turn holds has
      one, its handshake is complete, it was started for the wanted configuration and its transport
      has reported no failure; it hands over that process. */
  lemma HandoverIsExact(cfg: Config, steps: seq<Step>, t: TurnId)
    requires Runs(cfg, Init, steps)
    requires var st := Final(cfg, Init, steps);
             t in st.turns && st.turns[t].phase.Held? && st.turns[t].phase.stage.Planned?
    ensures var st := Final(cfg, Init, steps);
            var s := st.turns[t].phase.slot;
            && s in st.slots
            && (PlanEnabled(st, t, CheckReady) <==>
                  st.slots[s].proc.Some? && st.slots[s].initialized && st.slots[s].config == st.turns[t].want &&
                  !st.slots[s].transportFailed)
            && (PlanEnabled(st, t, CheckReady) ==>
                  PlanApply(st, t, CheckReady).turns[t].phase.stage ==
                  Ready(st.turns[t].phase.stage.plan, st.slots[s].proc.value))
            && (FlightEnabled(st, t, BeginFlight) <==> !PlanEnabled(st, t, CheckReady))
  {
    Reachable(cfg, steps);
    var st := Final(cfg, Init, steps);
    assert TurnLinked(cfg, st, t);
    FreeIsUnused(cfg, st, st.turns[t].phase.slot);
  }

  /** A commit leaves in the held slot a marker from which this conversation, and every conversation
      that appends to it, continues, and from which no conversation with an edited message of it
      does. */
  lemma CommitMarksTheConversation(cfg: Config, steps: seq<Step>, t: TurnId, more: seq<Message>)
    requires Runs(cfg, Init, steps) && PromptEnabled(Final(cfg, Init, steps), t, Commit)
    requires Final(cfg, Init, steps).turns[t].messages != []
    ensures var st := Final(cfg, Init, steps);
            var st' := PromptApply(st, t, Commit);
            var s := st.turns[t].phase.slot;
            var ms := st.turns[t].messages;
            && s in st'.slots && HeldBy(st', t, s)
            && Continues(ms + more, st'.slots[s].history)
            && (forall i, n :: 0 <= i < |ms| && Edited(ms[i], n) ==>
                  !Continues(ms[i := n] + more, st'.slots[s].history))
  {
    Reachable(cfg, steps);
    var st := Final(cfg, Init, steps);
    assert TurnLinked(cfg, st, t);
    FreeIsUnused(cfg, st, st.turns[t].phase.slot);
    var ms := st.turns[t].messages;
    var base := st.turns[t].phase.stage.plan.base;
    CommittedConversationContinues(ms, more, base);
    forall i, n | 0 <= i < |ms| && Edited(ms[i], n) ensures !Continues(ms[i := n] + more, NextHistory(ms, base)) {
      EditedMessageIsNew(ms, i, n, more, base);
    }
  }

  lemma EditedMessageIsNew(ms: seq<Message>, i: nat, n: Message, more: seq<Message>, base: HistoryState)
    requires i < |ms| && Edited(ms[i], n)
    ensures !Continues(ms[i := n] + more, NextHistory(ms, base))
  {
    CommittedMarkerDescribesCall(ms, base);
    ContinuesExactly(ms[i := n] + more, NextHistory(ms, base));
    assert (ms[i := n] + more)[..|ms|] == ms[i := n];
    EditChangesDigest(ms, i, n);
  }
}
