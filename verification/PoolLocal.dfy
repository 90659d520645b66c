/** Steps that touch one slot, the turn that holds it and one child: the invariant of the whole
    pool follows from facts about those three. */
module PoolLocal {
  import opened Options
  import opened PoolState
  import opened PoolInv

  /** Only slot `s`, its holder `t` (if it has one) and child `c` differ. */
  predicate Local(st: State, st': State, t: TurnId, s: SlotId, c: Option<Child>) {
    && s in st.slots && s in st'.slots
    && (st.slots[s].holder.Some? ==> st.slots[s].holder.value == t && HeldBy(st, t, s))
    && st'.pools == st.pools && st'.retirements == st.retirements
    && st'.slots == st.slots[s := st'.slots[s]]
    && (st'.turns == st.turns ||
        (HeldBy(st, t, s) && HeldBy(st', t, s) && st'.turns == st.turns[t := st'.turns[t]] &&
         st'.turns[t].key == st.turns[t].key))
    && (if c.None? then st'.children == st.children
        else c.value in st'.children && st'.children == st.children[c.value := st'.children[c.value]])
  }

  predicate SameOwner(sl: Slot, sl': Slot) {
    sl'.key == sl.key && sl'.published == sl.published && sl'.deleted == sl.deleted &&
    sl'.holder == sl.holder && sl'.inUse == sl.inUse
  }

  predicate FlightsMove(st: State, st': State, t: TurnId) {
    || st'.flights == st.flights
    || (t in st.turns && var f := FlightKey(st.turns[t].key);
        || (f !in st.flights && st'.flights == st.flights[f := t])
        || (f in st.flights && st.flights[f] == t && st'.flights == st.flights - {f}))
  }

  predicate GateMove(st: State, st': State, t: TurnId) {
    st'.gate == st.gate || (st.gate.None? && st'.gate == Some(t)) || (st.gate == Some(t) && st'.gate.None?)
  }

  // ----- Links -----

  predicate LinkMove(cfg: Config, st: State, st': State, t: TurnId, s: SlotId)
    requires s in st.slots && s in st'.slots
  {
    && SlotOk(st'.slots[s]) && SameOwner(st.slots[s], st'.slots[s])
    && (MayBeLive(st'.slots[s]) ==> MayBeLive(st.slots[s]) || st.slots[s].published)
    && FlightsMove(st, st', t) && GateMove(st, st', t)
    && (!HeldBy(st, t, s) ==> st'.flights == st.flights && st'.gate == st.gate)
    && (HeldBy(st', t, s) ==> TurnLinked(cfg, st', t))
  }

  lemma LocalTurnLinked(cfg: Config, st: State, st': State, t: TurnId, s: SlotId, c: Option<Child>, x: TurnId)
    requires Local(st, st', t, s, c) && LinkMove(cfg, st, st', t, s)
    requires x in st.turns && TurnLinked(cfg, st, x)
    ensures TurnLinked(cfg, st', x)
  {
  }

  lemma LocalSlotLinked(cfg: Config, st: State, st': State, t: TurnId, s: SlotId, c: Option<Child>, x: SlotId)
    requires Local(st, st', t, s, c) && LinkMove(cfg, st, st', t, s)
    requires x in st.slots && SlotLinked(st, x)
    ensures SlotLinked(st', x)
  {
  }

  lemma LocalLinks(cfg: Config, st: State, st': State, t: TurnId, s: SlotId, c: Option<Child>)
    requires Links(cfg, st) && Local(st, st', t, s, c) && LinkMove(cfg, st, st', t, s)
    ensures Links(cfg, st')
  {
    forall x | x in st'.turns ensures TurnLinked(cfg, st', x) { LocalTurnLinked(cfg, st, st', t, s, c, x); }
    forall x | x in st'.slots ensures SlotLinked(st', x) && SlotOk(st'.slots[x]) {
      LocalSlotLinked(cfg, st, st', t, s, c, x);
      assert x != s ==> SlotOk(st.slots[x]);
    }
    forall k | k in st'.pools ensures KeyLinked(st', k) { assert KeyLinked(st, k); }
    forall x | x in st'.retirements ensures RetirementLinked(st', x) { assert RetirementLinked(st, x); }
  }

  // ----- Owners -----

  predicate SpawnedChild(st: State, t: TurnId, c: Child) {
    t in st.turns && st.turns[t].phase.Held? && st.turns[t].phase.stage.Spawned? && st.turns[t].phase.stage.child == c
  }

  /** Child `c` was here, or is new. */
  predicate ChildHere(st: State, t: TurnId, s: SlotId, c: Option<Child>) {
    c.Some? && c.value in st.children ==>
      || At(st, c.value, Live(s)) || At(st, c.value, Retiring(s))
      || (At(st, c.value, WithLeader(t)) && HeldBy(st, t, s))
  }

  ghost predicate OwnerMove(st: State, st': State, t: TurnId, s: SlotId, c: Option<Child>)
    requires s in st.slots && s in st'.slots
  {
    var sl := st.slots[s];
    var sl' := st'.slots[s];
    && SlotOwns(st', s) && ChildHere(st, t, s, c)
    && (sl.proc.Some? && sl.proc != c ==> sl'.proc == sl.proc && (sl.withdrawn ==> sl'.withdrawn))
    && (sl.retiring.Some? && sl.retiring != c ==> sl'.retiring == sl.retiring)
    && (sl.failed.Some? && sl.failed != c ==> sl'.failed == sl.failed)
    && (forall x: Child :: c != Some(x) && SpawnedChild(st, t, x) ==> SpawnedChild(st', t, x))
    && (c.Some? ==> c.value in st'.children && ChildPlaced(st', c.value))
  }

  lemma LocalPlaced(st: State, st': State, t: TurnId, s: SlotId, c: Option<Child>, x: Child)
    requires Local(st, st', t, s, c) && OwnerMove(st, st', t, s, c)
    requires x in st.children && Some(x) != c && ChildPlaced(st, x)
    ensures x in st'.children && ChildPlaced(st', x)
  {
    if st.children[x].where.WithLeader? {
      assert SpawnedChild(st, st.children[x].where.turn, x);
    }
  }

  lemma LocalOwns(st: State, st': State, t: TurnId, s: SlotId, c: Option<Child>, x: SlotId)
    requires Local(st, st', t, s, c) && OwnerMove(st, st', t, s, c)
    requires x in st.slots && SlotOwns(st, x)
    ensures SlotOwns(st', x)
  {
  }

  lemma LocalOwners(st: State, st': State, t: TurnId, s: SlotId, c: Option<Child>)
    requires Owners(st) && Local(st, st', t, s, c) && OwnerMove(st, st', t, s, c)
    ensures Owners(st')
  {
    forall x | x in st'.slots ensures SlotOwns(st', x) { LocalOwns(st, st', t, s, c, x); }
    forall x | x in st'.children ensures ChildPlaced(st', x) {
      if Some(x) != c { LocalPlaced(st, st', t, s, c, x); }
    }
  }

  // ----- Logs -----

  predicate LogMove(st: State, st': State, t: TurnId, s: SlotId, c: Option<Child>)
    requires s in st'.slots
  {
    && SlotMarked(st', s)
    && (c.Some? ==> c.value in st'.children && TailCoherent(st'.children[c.value].log))
    && ChildHere(st, t, s, c)
  }

  lemma LocalLogs(st: State, st': State, t: TurnId, s: SlotId, c: Option<Child>)
    requires Owners(st) && Logs(st) && Local(st, st', t, s, c) && LogMove(st, st', t, s, c)
    ensures Logs(st')
  {
    forall x | x in st'.slots ensures SlotMarked(st', x) {
      assert SlotOwns(st, x);
    }
  }

  // ----- Stages -----

  /** A stage only speaks of the child in its slot, the child it spawned, and its plan's source. */
  lemma StageFrame(cs: Children, cs': Children, t: TurnId, turn: Turn, sl: Slot, y: SlotId)
    requires turn.phase.Held? && StageOk(cs, t, turn, sl)
    requires forall d :: d in cs ==> d in cs'
    requires forall d :: d in cs && (cs[d].where == Live(y) || cs[d].where == WithLeader(t)) ==> cs'[d] == cs[d]
    requires sl.proc.Some? ==> sl.proc.value in cs && cs[sl.proc.value].where == Live(y)
    ensures StageOk(cs', t, turn, sl)
  {
  }

  lemma LocalStaged(cfg: Config, st: State, st': State, t: TurnId, s: SlotId, c: Option<Child>, x: TurnId)
    requires Local(st, st', t, s, c) && ChildHere(st, t, s, c)
    requires x in st.turns && !HeldBy(st, x, s) && TurnLinked(cfg, st, x) && TurnStaged(st, x)
    requires st.turns[x].phase.Held? ==> SlotOwns(st, st.turns[x].phase.slot)
    ensures x in st'.turns && TurnStaged(st', x)
  {
    if st.turns[x].phase.Held? {
      var y := st.turns[x].phase.slot;
      StageFrame(st.children, st'.children, x, st.turns[x], st.slots[y], y);
    }
  }

  lemma LocalStages(cfg: Config, st: State, st': State, t: TurnId, s: SlotId, c: Option<Child>)
    requires Links(cfg, st) && Owners(st) && Stages(st) && Local(st, st', t, s, c) && ChildHere(st, t, s, c)
    requires HeldBy(st', t, s) ==> TurnStaged(st', t)
    ensures Stages(st')
  {
    forall x | x in st'.turns ensures TurnStaged(st', x) {
      assert HeldBy(st, x, s) ==> TurnLinked(cfg, st, x) && x == t;
      if !HeldBy(st, x, s) { LocalStaged(cfg, st, st', t, s, c, x); }
    }
  }

  // ----- Timers -----

  predicate ClockMove(st: State, st': State, s: SlotId)
    requires s in st.slots && s in st'.slots
  {
    var sl := st.slots[s];
    var sl' := st'.slots[s];
    && sl'.key == sl.key && sl'.inUse == sl.inUse && sl'.epoch == sl.epoch && sl'.claims == sl.claims
    && (sl'.proc == sl.proc || sl'.proc.None? || sl.inUse)
    && st'.callbacks == st.callbacks && st'.schedules == st.schedules
    && (st'.timers == st.timers ||
        (st'.timers == st.timers - {sl.key} && Canonical(st, s) && (sl.inUse || sl'.proc.None?)))
  }

  lemma LocalCovered(cfg: Config, st: State, st': State, t: TurnId, s: SlotId, c: Option<Child>, x: SlotId)
    requires Local(st, st', t, s, c) && ClockMove(st, st', s)
    requires x in st.slots && SlotCovered(cfg, st, x) && SlotOk(st.slots[x]) && SlotLinked(st, x)
    ensures SlotCovered(cfg, st', x)
  {
  }

  lemma LocalArmed(st: State, st': State, t: TurnId, s: SlotId, c: Option<Child>)
    requires Local(st, st', t, s, c) && ClockMove(st, st', s)
    requires forall k :: k in st.timers ==> TimerOk(st, k)
    requires forall cb :: cb in st.callbacks ==> CallbackOk(st, cb)
    requires forall p :: p in st.schedules ==> ScheduleOk(st, p)
    ensures forall k :: k in st'.timers ==> TimerOk(st', k)
    ensures forall cb :: cb in st'.callbacks ==> CallbackOk(st', cb)
    ensures forall p :: p in st'.schedules ==> ScheduleOk(st', p)
  {
  }

  lemma LocalTimers(cfg: Config, st: State, st': State, t: TurnId, s: SlotId, c: Option<Child>)
    requires Links(cfg, st) && Timers(cfg, st) && Local(st, st', t, s, c) && ClockMove(st, st', s)
    ensures Timers(cfg, st')
  {
    LocalArmed(st, st', t, s, c);
    forall x | x in st'.slots ensures SlotCovered(cfg, st', x) { LocalCovered(cfg, st, st', t, s, c, x); }
  }

  // ----- All together -----

  ghost predicate LocalOk(cfg: Config, st: State, st': State, t: TurnId, s: SlotId, c: Option<Child>) {
    && Local(st, st', t, s, c)
    && LinkMove(cfg, st, st', t, s)
    && OwnerMove(st, st', t, s, c)
    && LogMove(st, st', t, s, c)
    && (HeldBy(st', t, s) ==> TurnStaged(st', t))
    && ClockMove(st, st', s)
  }

  /** Everything but the capacity bound. */
  predicate Safe(cfg: Config, st: State) {
    Links(cfg, st) && Owners(st) && Logs(st) && Stages(st) && Timers(cfg, st)
  }

  lemma LocalSafe(cfg: Config, st: State, st': State, t: TurnId, s: SlotId, c: Option<Child>)
    requires Safe(cfg, st) && LocalOk(cfg, st, st', t, s, c)
    ensures Safe(cfg, st')
  {
    LocalLinks(cfg, st, st', t, s, c);
    LocalOwners(st, st', t, s, c);
    LocalLogs(st, st', t, s, c);
    LocalStages(cfg, st, st', t, s, c);
    LocalTimers(cfg, st, st', t, s, c);
  }
}
