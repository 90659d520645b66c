/** Releases that are about to arm a stale-kill timer, and the timers already armed. */
module PoolReleases {
  import opened Options
  import opened PoolState
  import opened PoolSteps
  import opened PoolInv
  import opened PoolLocal
  import opened PoolSafety
  import opened PoolRuns

  /** While a release still owns its slot's generation, no timer of that generation is armed. */
  predicate Unspent(st: State, p: Schedule) {
    p.slot in st.slots && p.token == st.slots[p.slot].epoch ==>
      forall k :: k in st.timers && st.timers[k].slot == p.slot ==> st.timers[k].epoch < p.token
  }

  predicate Releases(st: State) {
    forall p :: p in st.schedules ==> Unspent(st, p)
  }

  /** No release and no timer is added, and no epoch goes back. */
  predicate Winds(st: State, st': State) {
    && st'.schedules <= st.schedules
    && (forall k :: k in st'.timers ==>
          k in st.timers && st'.timers[k].slot == st.timers[k].slot && st'.timers[k].epoch == st.timers[k].epoch)
    && (forall s :: s in st.slots ==> s in st'.slots && st.slots[s].epoch <= st'.slots[s].epoch)
  }

  lemma WindsKeeps(cfg: Config, st: State, st': State)
    requires Timers(cfg, st) && Releases(st) && Winds(st, st')
    ensures Releases(st')
  {
    forall p | p in st'.schedules ensures Unspent(st', p) {
      assert ScheduleOk(st, p) && Unspent(st, p);
    }
  }

  lemma SlotStepEpoch(cfg: Config, st: State, step: SlotStep, s: SlotId)
    requires SlotEnabled(cfg, st, step) && s in st.slots
    ensures s in SlotApply(cfg, st, step).slots && SlotApply(cfg, st, step).slots[s].epoch == st.slots[s].epoch
  {
    if step.StartTurn? || step.s != s { SlotStepFrame(cfg, st, step, s); }
    else {
      match step
      case Reap(_) => assert Detach(st, s).slots[s].epoch == st.slots[s].epoch;
      case Evict(_) => assert Detach(st, s).slots[s].epoch == st.slots[s].epoch;
      case FinishRetirement(_, confirmed) => assert Retired(st, s, confirmed).slots[s].epoch == st.slots[s].epoch;
      case _ =>
    }
  }

  lemma SlotStepClock(cfg: Config, st: State, step: SlotStep)
    requires SlotEnabled(cfg, st, step)
    ensures SlotApply(cfg, st, step).schedules == st.schedules
    ensures forall k :: k in SlotApply(cfg, st, step).timers ==>
              k in st.timers && SlotApply(cfg, st, step).timers[k] == st.timers[k]
  {
  }

  lemma SlotStepWinds(cfg: Config, st: State, step: SlotStep)
    requires SlotEnabled(cfg, st, step)
    ensures Winds(st, SlotApply(cfg, st, step))
  {
    SlotStepClock(cfg, st, step);
    forall s | s in st.slots
      ensures s in SlotApply(cfg, st, step).slots && st.slots[s].epoch <= SlotApply(cfg, st, step).slots[s].epoch
    {
      SlotStepEpoch(cfg, st, step, s);
    }
  }

  lemma ReserveWinds(st: State, cb: Callback)
    requires TimerEnabled(st, Reserve(cb))
    ensures Winds(st, TimerApply(st, Reserve(cb)))
  {
    if Reservable(st.slots[cb.slot], cb.epoch) { assert Winds(st, Detach(st, cb.slot)); }
  }

  /** A timer armed by the release that owns the current generation carries the next one. */
  lemma ScheduleKeeps(cfg: Config, st: State, p: Schedule)
    requires Timers(cfg, st) && Releases(st) && TimerEnabled(st, RunSchedule(p))
    ensures Releases(TimerApply(st, RunSchedule(p)))
  {
    var st' := TimerApply(st, RunSchedule(p));
    forall x | x in st'.schedules ensures Unspent(st', x) {
      assert ScheduleOk(st, x) && Unspent(st, x);
    }
  }

  lemma TimerStepKeeps(cfg: Config, st: State, step: TimerStep)
    requires Timers(cfg, st) && Releases(st) && TimerEnabled(st, step)
    ensures Releases(TimerApply(st, step))
  {
    match step
    case RunSchedule(p) => ScheduleKeeps(cfg, st, p);
    case Reserve(cb) => ReserveWinds(st, cb); WindsKeeps(cfg, st, TimerApply(st, step));
    case Fire(_) => WindsKeeps(cfg, st, TimerApply(st, step));
    case Match(_) => WindsKeeps(cfg, st, TimerApply(st, step));
    case Disarm(_) => WindsKeeps(cfg, st, TimerApply(st, step));
  }

  lemma UnheldWinds(st: State, t: TurnId, step: ClaimStep)
    requires ClaimEnabled(st, t, step) && !st.turns[t].phase.Held?
    ensures Winds(st, ClaimApply(st, t, step))
  {
    match step
    case ResolveSlot =>
    case TryClaim => assert Winds(st, TakeClaim(st, t, st.turns[t].phase.slot));
    case GiveUp =>
  }

  lemma RefuseWinds(st: State, t: TurnId, owner: SlotId)
    requires SpawnEnabled(st, t, Refuse(owner))
    ensures Winds(st, SpawnApply(st, t, Refuse(owner)))
  {
  }

  /** A held slot has no timer of its current generation, so its release starts unspent. */
  lemma ReleaseKeeps(cfg: Config, st: State, t: TurnId)
    requires Links(cfg, st) && Timers(cfg, st) && Releases(st) && CloseEnabled(st, t, Release)
    ensures Releases(CloseApply(cfg, st, t, Release))
  {
    var st' := CloseApply(cfg, st, t, Release);
    var s := st.turns[t].phase.slot;
    assert TurnLinked(cfg, st, t) && SlotOk(st.slots[s]) && SlotLinked(st, s);
    forall p | p in st'.schedules ensures Unspent(st', p) {
      if p in st.schedules {
        assert Unspent(st, p);
      } else {
        assert p.slot == s;
        forall k | k in st.timers && st.timers[k].slot == s ensures st.timers[k].epoch < st.slots[s].epoch {
          assert TimerOk(st, k);
        }
      }
    }
  }

  lemma LocalWinds(st: State, st': State, t: TurnId, s: SlotId, c: Option<Child>)
    requires Local(st, st', t, s, c) && ClockMove(st, st', s)
    ensures Winds(st, st')
  {
  }

  lemma HolderWinds(cfg: Config, st: State, step: Step)
    requires Inv(cfg, st) && Enabled(cfg, st, step) && HolderStep(st, step)
    ensures Winds(st, Apply(cfg, st, step))
  {
    var c := HolderStepIsLocal(cfg, st, step);
    LocalWinds(st, Apply(cfg, st, step), step.t, st.turns[step.t].phase.slot, c);
  }

  lemma StepKeepsReleases(cfg: Config, st: State, step: Step)
    requires Inv(cfg, st) && Releases(st) && Enabled(cfg, st, step)
    ensures Releases(Apply(cfg, st, step))
  {
    if HolderStep(st, step) {
      HolderWinds(cfg, st, step);
      WindsKeeps(cfg, st, Apply(cfg, st, step));
    } else {
      match step
      case BySlot(x) => SlotStepWinds(cfg, st, x); WindsKeeps(cfg, st, Apply(cfg, st, step));
      case ByTimer(x) => TimerStepKeeps(cfg, st, x);
      case ByClaim(t, x) => UnheldWinds(st, t, x); WindsKeeps(cfg, st, Apply(cfg, st, step));
      case BySpawn(t, x) => RefuseWinds(st, t, x.owner); WindsKeeps(cfg, st, Apply(cfg, st, step));
      case ByClose(t, x) => ReleaseKeeps(cfg, st, t);
    }
  }

  lemma {:induction false} RunsKeepReleases(cfg: Config, st: State, steps: seq<Step>)
    requires Inv(cfg, st) && Releases(st) && Runs(cfg, st, steps)
    ensures Releases(Final(cfg, st, steps))
    decreases |steps|
  {
    if steps != [] {
      StepKeepsInv(cfg, st, steps[0]);
      StepKeepsReleases(cfg, st, steps[0]);
      RunsKeepReleases(cfg, Apply(cfg, st, steps[0]), steps[1..]);
    }
  }

  lemma CurrentTimerStays(st: State, p: Schedule, k: RuntimeKey)
    requires TimerEnabled(st, RunSchedule(p)) && Unspent(st, p)
    requires k in st.timers && TimerOk(st, k) && Canonical(st, st.timers[k].slot)
    requires st.timers[k].epoch == st.slots[st.timers[k].slot].epoch
    ensures var st' := TimerApply(st, RunSchedule(p));
            k in st'.timers && st'.timers[k] == st.timers[k] &&
            st'.slots[st.timers[k].slot].epoch == st.timers[k].epoch
  {
  }

  /** Whatever release runs its scheduling, at whatever time, the timer of a canonical slot's
      current generation stays in place: no release replaces or cancels a successor's timer. */
  lemma CurrentTimerSurvivesReleases(cfg: Config, steps: seq<Step>, p: Schedule, k: RuntimeKey)
    requires Runs(cfg, Init, steps) && TimerEnabled(Final(cfg, Init, steps), RunSchedule(p))
    requires var st := Final(cfg, Init, steps);
             k in st.timers && Canonical(st, st.timers[k].slot) &&
             st.timers[k].epoch == st.slots[st.timers[k].slot].epoch
    ensures var st := Final(cfg, Init, steps);
            var st' := TimerApply(st, RunSchedule(p));
            k in st'.timers && st'.timers[k] == st.timers[k] &&
            st'.slots[st.timers[k].slot].epoch == st.timers[k].epoch
  {
    Reachable(cfg, steps);
    InvHoldsInitially(cfg);
    RunsKeepReleases(cfg, Init, steps);
    var st := Final(cfg, Init, steps);
    assert Unspent(st, p) && TimerOk(st, k);
    CurrentTimerStays(st, p, k);
  }
}
