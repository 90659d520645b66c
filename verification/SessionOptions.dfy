/** The lock-free session-option store (connector-support/acp/session_options.go). One step per
    atomic operation; any number of publish and close calls interleave, and a withdrawal may store
    nil at any time. */
module SessionOptions {
  import opened Options

  type Snapshot = nat
  type CallId = nat

  datatype Point = Begun | Swapping | Rechecking | Withdrawing | Returned(ok: bool)

  /** One publish call. `late` is history: the store had ended when the call began. */
  datatype Publish = Publish(previous: Option<Snapshot>, next: Option<Snapshot>, at: Point, late: bool)

  /** `closing` counts close calls between their two stores; `closed` tells that one returned. */
  datatype Store = Store(
    current: Option<Snapshot>,
    ended: bool,
    calls: map<CallId, Publish>,
    closing: nat,
    closed: bool)

  const Empty := Store(None, false, map[], 0, false)

  datatype Step =
    | Begin(i: CallId, previous: Option<Snapshot>, next: Option<Snapshot>)
    | LoadEnded(i: CallId)
    | CompareAndSwap(i: CallId)
    | LoadEndedAgain(i: CallId)
    | StoreNil(i: CallId)
    | CloseBegins
    | CloseReturns
    | Withdraw

  predicate At(st: Store, i: CallId, at: Point) {
    i in st.calls && st.calls[i].at == at
  }

  predicate Enabled(st: Store, step: Step) {
    match step
    case Begin(i, _, _) => i !in st.calls
    case LoadEnded(i) => At(st, i, Begun)
    case CompareAndSwap(i) => At(st, i, Swapping)
    case LoadEndedAgain(i) => At(st, i, Rechecking)
    case StoreNil(i) => At(st, i, Withdrawing)
    case CloseBegins => true
    case CloseReturns => st.closing > 0
    case Withdraw => true
  }

  function Go(st: Store, i: CallId, at: Point): Store
    requires i in st.calls
  {
    st.(calls := st.calls[i := st.calls[i].(at := at)])
  }

  function Apply(st: Store, step: Step): Store
    requires Enabled(st, step)
  {
    match step
    case Begin(i, previous, next) => st.(calls := st.calls[i := Publish(previous, next, Begun, st.ended)])
    case LoadEnded(i) => Go(st, i, if st.ended then Returned(false) else Swapping)
    case CompareAndSwap(i) =>
      if st.current == st.calls[i].previous then Go(st.(current := st.calls[i].next), i, Rechecking)
      else Go(st, i, Returned(false))
    case LoadEndedAgain(i) => Go(st, i, if st.ended then Withdrawing else Returned(true))
    case StoreNil(i) => Go(st.(current := None), i, Returned(false))
    case CloseBegins => st.(ended := true, closing := st.closing + 1)
    case CloseReturns => st.(current := None, closing := st.closing - 1, closed := true)
    case Withdraw => st.(current := None)
  }

  predicate Runs(st: Store, steps: seq<Step>)
    decreases |steps|
  {
    steps == [] || (Enabled(st, steps[0]) && Runs(Apply(st, steps[0]), steps[1..]))
  }

  function Final(st: Store, steps: seq<Step>): Store
    requires Runs(st, steps)
    decreases |steps|
  {
    if steps == [] then st else Final(Apply(st, steps[0]), steps[1..])
  }

  /** A call that swapped its snapshot in and has not returned. */
  predicate Exposed(st: Store, i: CallId) {
    At(st, i, Rechecking) || At(st, i, Withdrawing)
  }

  ghost predicate Inv(st: Store) {
    && (st.closed || st.closing > 0 ==> st.ended)
    && (st.closed && st.current.Some? ==> exists i :: Exposed(st, i))
    && (forall i :: i in st.calls && st.calls[i].late ==>
          st.ended && (st.calls[i].at == Begun || st.calls[i].at == Returned(false)))
  }

  lemma StepKeepsInv(st: Store, step: Step)
    requires Inv(st) && Enabled(st, step)
    ensures Inv(Apply(st, step))
  {
    var st' := Apply(st, step);
    if st'.closed && st'.current.Some? {
      if step.CompareAndSwap? && st.current == st.calls[step.i].previous {
        assert Exposed(st', step.i);
      } else {
        var i :| Exposed(st, i);
        assert Exposed(st', i);
      }
    }
  }

  lemma {:induction false} RunsKeepInv(st: Store, steps: seq<Step>)
    requires Inv(st) && Runs(st, steps)
    ensures Inv(Final(st, steps))
    decreases |steps|
  {
    if steps != [] {
      StepKeepsInv(st, steps[0]);
      RunsKeepInv(Apply(st, steps[0]), steps[1..]);
    }
  }

  /** Once a close call and every publish in flight have returned, no snapshot is left; before
      that, a snapshot is visible only while some publish has still to recheck. */
  lemma CloseWithdraws(steps: seq<Step>)
    requires Runs(Empty, steps) && Final(Empty, steps).closed
    ensures var st := Final(Empty, steps);
            && (st.current.Some? ==> exists i :: Exposed(st, i))
            && ((forall i :: i in st.calls ==> st.calls[i].at.Returned?) ==> st.current.None?)
  {
    RunsKeepInv(Empty, steps);
  }

  /** No publish that begins after the store ended returns true. */
  lemma LatePublishFails(steps: seq<Step>, i: CallId)
    requires Runs(Empty, steps)
    ensures var st := Final(Empty, steps);
            i in st.calls && st.calls[i].late && st.calls[i].at.Returned? ==> !st.calls[i].at.ok
  {
    RunsKeepInv(Empty, steps);
  }

  // ----- What a publish that returns true did -----

  /** The call has not swapped yet. */
  predicate Unswapped(st: Store, i: CallId) {
    i !in st.calls || st.calls[i].at == Begun || st.calls[i].at == Swapping
  }

  /** A publish that returned true compared and swapped once, at a step where the store held the
      snapshot it expected, and put its own in its place. */
  lemma {:induction false} WonPublishSwapped(st: Store, steps: seq<Step>, i: CallId) returns (k: nat)
    requires Runs(st, steps) && Unswapped(st, i) && At(Final(st, steps), i, Returned(true))
    ensures k < |steps| && steps[k] == CompareAndSwap(i) && Runs(st, steps[..k])
    ensures var before := Final(st, steps[..k]);
            && Enabled(before, steps[k]) && i in before.calls && before.current == before.calls[i].previous
            && Apply(before, steps[k]).current == Final(st, steps).calls[i].next
            && before.calls[i].previous == Final(st, steps).calls[i].previous
    decreases |steps|
  {
    var st' := Apply(st, steps[0]);
    if steps[0] == CompareAndSwap(i) {
      CallKept(st', steps[1..], i);
      if st.current != st.calls[i].previous { RefusedStays(st', steps[1..], i); }
      return 0;
    }
    if At(st', i, Returned(false)) {
      RefusedStays(st', steps[1..], i);
      assert false;
    } else {
      k := WonPublishSwapped(st', steps[1..], i);
      k := k + 1;
      assert steps[..k][1..] == steps[1..][..k - 1];
    }
  }

  lemma {:induction false} CallKept(st: Store, steps: seq<Step>, i: CallId)
    requires Runs(st, steps) && i in st.calls
    ensures i in Final(st, steps).calls
    ensures Final(st, steps).calls[i].previous == st.calls[i].previous
    ensures Final(st, steps).calls[i].next == st.calls[i].next
    decreases |steps|
  {
    if steps != [] { CallKept(Apply(st, steps[0]), steps[1..], i); }
  }

  lemma {:induction false} RefusedStays(st: Store, steps: seq<Step>, i: CallId)
    requires Runs(st, steps) && At(st, i, Returned(false))
    ensures At(Final(st, steps), i, Returned(false))
    decreases |steps|
  {
    if steps != [] { RefusedStays(Apply(st, steps[0]), steps[1..], i); }
  }

  /** A publish that runs alone returns true exactly if the store has not ended and holds the snapshot
      it expects, and then the store holds its own; otherwise the store keeps what it held. */
  lemma LonePublishIsExact(st: Store, i: CallId, previous: Option<Snapshot>, next: Option<Snapshot>)
    requires i !in st.calls
    ensures var wins := !st.ended && st.current == previous;
            var begun := Apply(st, Begin(i, previous, next));
            var loaded := Apply(begun, LoadEnded(i));
            if st.ended then At(loaded, i, Returned(false)) && loaded.current == st.current else
              At(loaded, i, Swapping) &&
              var swapped := Apply(loaded, CompareAndSwap(i));
              if !wins then At(swapped, i, Returned(false)) && swapped.current == st.current else
                At(swapped, i, Rechecking) && swapped.current == next &&
                var done := Apply(swapped, LoadEndedAgain(i)); At(done, i, Returned(true)) && done.current == next
  {
  }
}
