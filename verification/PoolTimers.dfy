/** Steps of the stale-kill timers. */
module PoolTimers {
  import opened Options
  import opened PoolState
  import opened PoolSteps
  import opened PoolInv
  import opened PoolLocal
  import opened PoolHeld
  import opened PoolEnv

  // ----- Timers -----

  function Arm(st: State, p: Schedule): State
    requires p.slot in st.slots && st.slots[p.slot].proc.Some?
  {
    var sl := st.slots[p.slot];
    SetSlot(st, p.slot, sl.(epoch := sl.epoch + 1))
    .(timers := st.timers[p.key := Timer(sl.epoch + 1, p.slot, sl.claims, sl.proc.value, false)])
  }

  lemma ArmsCovered(cfg: Config, st: State, p: Schedule, x: SlotId)
    requires p.slot in st.slots && Schedulable(st, p) && ScheduleOk(st, p)
    requires x in st.slots && SlotCovered(cfg, st, x) && SlotOk(st.slots[x]) && SlotLinked(st, x)
    ensures SlotCovered(cfg, Arm(st, p), x)
  {
  }

  lemma ArmsClock(cfg: Config, st: State, p: Schedule)
    requires Links(cfg, st) && Timers(cfg, st) && p.slot in st.slots && Schedulable(st, p) && ScheduleOk(st, p)
    ensures Timers(cfg, Arm(st, p))
  {
    var st' := Arm(st, p);
    forall x | x in st.slots ensures SlotCovered(cfg, st', x) { ArmsCovered(cfg, st, p, x); }
    forall k | k in st'.timers ensures TimerOk(st', k) { assert k != p.key ==> TimerOk(st, k); }
    forall cb | cb in st'.callbacks ensures CallbackOk(st', cb) { assert CallbackOk(st, cb); }
    forall x | x in st'.schedules ensures ScheduleOk(st', x) { assert ScheduleOk(st, x); }
  }

  lemma ArmsLinks(cfg: Config, st: State, p: Schedule)
    requires Links(cfg, st) && p.slot in st.slots && Schedulable(st, p)
    ensures Links(cfg, Arm(st, p))
  {
    var st' := Arm(st, p);
    forall t | t in st'.turns ensures TurnLinked(cfg, st', t) { assert TurnLinked(cfg, st, t); }
    forall x | x in st'.slots ensures SlotLinked(st', x) { assert SlotLinked(st, x); }
  }

  lemma ArmSafe(cfg: Config, st: State, p: Schedule)
    requires Safe(cfg, st) && p.slot in st.slots && Schedulable(st, p) && ScheduleOk(st, p)
    ensures Safe(cfg, Arm(st, p))
  {
    ArmsClock(cfg, st, p);
    ArmsLinks(cfg, st, p);
    OwnerFrame(st, Arm(st, p), p.slot);
    LogFrame(st, Arm(st, p), p.slot);
    StageSlotFrame(st, Arm(st, p), p.slot);
  }

  /** The schedule has run: its runtime is covered by the timer it armed, or needed none. */
  lemma UnscheduleClock(cfg: Config, st: State, p: Schedule)
    requires Links(cfg, st) && Timers(cfg, st) && p in st.schedules && p.slot in st.slots && !Schedulable(st, p)
    ensures Timers(cfg, st.(schedules := st.schedules - {p}))
  {
    var st' := st.(schedules := st.schedules - {p});
    forall x | x in st'.slots ensures SlotCovered(cfg, st', x) {
      assert SlotCovered(cfg, st, x) && SlotOk(st.slots[x]) && SlotLinked(st, x);
    }
  }

  lemma UnscheduleSafe(cfg: Config, st: State, p: Schedule)
    requires Safe(cfg, st) && p in st.schedules && p.slot in st.slots && !Schedulable(st, p)
    ensures Safe(cfg, st.(schedules := st.schedules - {p}))
  {
    var st' := st.(schedules := st.schedules - {p});
    UnscheduleClock(cfg, st, p);
    CoreFrame(st, st');
    LinkFrame(cfg, st, st');
  }

  /** A schedule that armed a timer is no longer current. */
  lemma ArmedIsSpent(st: State, p: Schedule)
    requires p.slot in st.slots && Schedulable(st, p)
    ensures p.slot in Arm(st, p).slots && !Schedulable(Arm(st, p), p)
    ensures Arm(st, p).schedules == st.schedules
    ensures p in st.schedules ==> TimerApply(st, RunSchedule(p)) == Arm(st, p).(schedules := st.schedules - {p})
  {
  }

  lemma ScheduleSafe(cfg: Config, st: State, p: Schedule)
    requires Safe(cfg, st) && p in st.schedules && p.slot in st.slots && ScheduleOk(st, p)
    ensures Safe(cfg, TimerApply(st, RunSchedule(p)))
  {
    if Schedulable(st, p) {
      ArmSafe(cfg, st, p);
      ArmedIsSpent(st, p);
      UnscheduleSafe(cfg, Arm(st, p), p);
    } else {
      UnscheduleSafe(cfg, st, p);
    }
  }

  lemma FiresClock(cfg: Config, st: State, step: TimerStep)
    requires Timers(cfg, st) && TimerEnabled(st, step) && step.Fire?
    ensures Timers(cfg, TimerApply(st, step))
  {
  }

  lemma MatchesClock(cfg: Config, st: State, step: TimerStep)
    requires Links(cfg, st) && Timers(cfg, st) && TimerEnabled(st, step) && step.Match?
    ensures Timers(cfg, TimerApply(st, step))
  {
  }

  /** A callback that detached nothing moves on to disarm. */
  lemma SkipsClock(cfg: Config, st: State, cb: Callback)
    requires Links(cfg, st) && Timers(cfg, st) && cb in st.callbacks && cb.at.Matched?
    requires !Reservable(st.slots[cb.slot], cb.epoch)
    ensures Timers(cfg, Advance(st, cb, Disarming))
  {
  }

  lemma DisarmsClock(cfg: Config, st: State, step: TimerStep)
    requires Timers(cfg, st) && TimerEnabled(st, step) && step.Disarm?
    ensures Timers(cfg, TimerApply(st, step))
  {
  }

  lemma TimerStepSafe(cfg: Config, st: State, step: TimerStep)
    requires Safe(cfg, st) && TimerEnabled(st, step)
    ensures Safe(cfg, TimerApply(st, step))
  {
    var st' := TimerApply(st, step);
    match step
    case RunSchedule(p) => ScheduleSafe(cfg, st, p);
    case Fire(_) => FiresClock(cfg, st, step); CoreFrame(st, st'); LinkFrame(cfg, st, st');
    case Match(_) => MatchesClock(cfg, st, step); CoreFrame(st, st'); LinkFrame(cfg, st, st');
    case Reserve(cb) => ReserveSafe(cfg, st, cb);
    case Disarm(_) => DisarmsClock(cfg, st, step); CoreFrame(st, st'); LinkFrame(cfg, st, st');
  }

  lemma ReserveSafe(cfg: Config, st: State, cb: Callback)
    requires Safe(cfg, st) && TimerEnabled(st, Reserve(cb))
    ensures Safe(cfg, TimerApply(st, Reserve(cb)))
  {
    if Reservable(st.slots[cb.slot], cb.epoch) {
      EvictSafe(cfg, st, cb.slot);
      DetachedIsSpent(st, cb);
      SkipSafe(cfg, Detach(st, cb.slot), cb);
    } else {
      SkipSafe(cfg, st, cb);
    }
  }

  lemma DetachedIsSpent(st: State, cb: Callback)
    requires cb.slot in st.slots && st.slots[cb.slot].proc.Some?
    ensures cb.slot in Detach(st, cb.slot).slots && !Reservable(Detach(st, cb.slot).slots[cb.slot], cb.epoch)
    ensures Detach(st, cb.slot).callbacks == st.callbacks
  {
  }

  lemma SkipSafe(cfg: Config, st: State, cb: Callback)
    requires Safe(cfg, st) && cb in st.callbacks && cb.at.Matched? && cb.slot in st.slots
    requires !Reservable(st.slots[cb.slot], cb.epoch)
    ensures Safe(cfg, Advance(st, cb, Disarming))
  {
    var st' := Advance(st, cb, Disarming);
    SkipsClock(cfg, st, cb);
    CoreFrame(st, st');
    LinkFrame(cfg, st, st');
  }
}
