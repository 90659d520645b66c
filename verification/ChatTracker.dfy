/** The tool tracker as a function of one operation at a time, and what every stream of operations
    keeps (connector-support/openaicompat/stream.go). */
module ChatTracker {
  import opened Basics
  import opened ChatSpec

  // ----- One operation on the decoder's state -----

  datatype Track = Track(
    started: bool,
    msgStart: bool,
    active: Active,
    pending: Held,
    order: seq<int>,
    events: seq<Event>)

  const NewTrack := Track(false, false, map[], map[], [], [])

  /** What a chunk asks of the tracker, in order. `ToolCallsEnd` is the finish reason tool_calls,
      `End` any other non-empty one. */
  datatype Op =
    | Reason(text: string)
    | Tool(d: ToolDelta)
    | Content(text: string)
    | ToolCallsEnd
    | End
    | Report(usage: Usage)

  function OpenResponse(tr: Track): Track {
    if tr.started then tr else tr.(started := true, events := tr.events + [ResponseStarted])
  }

  function OpenMessage(tr: Track): Track {
    if tr.msgStart then tr else tr.(msgStart := true, events := tr.events + [MessageStarted])
  }

  function Open(tr: Track): Track {
    OpenMessage(OpenResponse(tr))
  }

  function Emit(tr: Track, e: Event): Track {
    tr.(events := tr.events + [e])
  }

  /** The id of a call arrives: its start is emitted, then whatever was held back. */
  function Start(tr: Track, d: ToolDelta): Track {
    tr.(order := if d.index in tr.active then tr.order else tr.order + [d.index],
        active := tr.active[d.index := d.id],
        events := tr.events + ([ToolStarted(d.id, d.name, d.index)] +
                               ArgsEvents(d.id, d.index, PendingOf(tr.pending, d.index))),
        pending := tr.pending - {d.index})
  }

  /** A fragment is emitted if its call has started, and held back otherwise. */
  function AddArgs(tr: Track, d: ToolDelta): Track {
    if d.index in tr.active then Emit(tr, ToolArgs(tr.active[d.index], d.args, d.index))
    else tr.(pending := tr.pending[d.index := PendingOf(tr.pending, d.index) + [d.args]])
  }

  function OnTool(tr: Track, d: ToolDelta): Track {
    var tr1 := if d.id != "" then Start(tr, d) else tr;
    if d.args != "" then AddArgs(tr1, d) else tr1
  }

  function FinishEvents(active: Active, order: seq<int>): seq<Event> {
    if order == [] then [] else
      var i := order[|order| - 1];
      var front := FinishEvents(active, order[..|order| - 1]);
      if i in active && active[i] != "" then front + [ToolFinished(active[i], i)] else front
  }

  function FinishTools(tr: Track): Track {
    tr.(events := tr.events + FinishEvents(tr.active, tr.order), active := map[], pending := map[], order := [])
  }

  function ApplyOp(tr: Track, op: Op): Track {
    match op
    case Reason(text) => Emit(Open(tr), ReasoningDelta(text))
    case Tool(d) => OnTool(Open(tr), d)
    case Content(text) => Emit(Open(tr), TextDelta(text))
    case ToolCallsEnd => FinishTools(Open(tr))
    case End => Open(tr)
    case Report(usage) => Emit(OpenResponse(tr), UsageDelta(usage))
  }

  // ----- What every operation keeps -----

  /** The tracker's bookkeeping for the current segment, whose events begin at `base`. */
  ghost predicate Good(tr: Track, input: seq<ToolDelta>, base: nat) {
    && SoundStream(tr.events, tr.started, tr.msgStart) && base <= |tr.events|
    && Conserving(input, tr.events[base..], tr.active, tr.pending)
    && Started(tr.events, tr.active)
    && tr.order == FirstSeen(input)
  }

  lemma EmitKeeps(tr: Track, e: Event)
    requires SoundStream(tr.events, tr.started, tr.msgStart) && Allowed(tr.events, e)
    requires !e.ResponseStarted? && !e.MessageStarted?
    ensures SoundStream(Emit(tr, e).events, tr.started, tr.msgStart)
    ensures forall id :: HasStarted(tr.events, id) ==> HasStarted(Emit(tr, e).events, id)
    ensures e.ToolStarted? ==> HasStarted(Emit(tr, e).events, e.id)
  {
    EventAppends(tr.events, e);
  }

  lemma OpenKeeps(tr: Track, input: seq<ToolDelta>, base: nat)
    requires Good(tr, input, base)
    ensures Good(OpenResponse(tr), input, base) && Grew(tr.events, OpenResponse(tr).events)
    ensures Good(Open(tr), input, base) && Grew(tr.events, Open(tr).events) && Open(tr).started && Open(tr).msgStart
  {
    var one := OpenResponse(tr);
    if !tr.started { EventAppends(tr.events, ResponseStarted); }
    GrewConserving(tr.events, one.events, base, input, tr.active, tr.pending);
    if !tr.msgStart { EventAppends(one.events, MessageStarted); }
    GrewConserving(one.events, Open(tr).events, base, input, tr.active, tr.pending);
  }

  lemma PlainKeeps(tr: Track, e: Event, input: seq<ToolDelta>, base: nat)
    requires Good(tr, input, base) && Allowed(tr.events, e)
    requires e.ReasoningDelta? || e.TextDelta? || e.UsageDelta?
    ensures Good(Emit(tr, e), input, base)
  {
    EmitKeeps(tr, e);
    GrewConserving(tr.events, Emit(tr, e).events, base, input, tr.active, tr.pending);
  }

  lemma {:induction false} ArgsEventsKeep(tr: Track, id: string, index: int, frags: seq<string>)
    requires SoundStream(tr.events, tr.started, tr.msgStart) && tr.started && tr.msgStart && HasStarted(tr.events, id)
    ensures var events := tr.events + ArgsEvents(id, index, frags);
            && SoundStream(events, true, true)
            && forall x :: HasStarted(tr.events, x) ==> HasStarted(events, x)
    decreases |frags|
  {
    if frags == [] {
      assert tr.events + ArgsEvents(id, index, frags) == tr.events;
    } else {
      var k := |frags| - 1;
      ArgsEventsKeep(tr, id, index, frags[..k]);
      var front := tr.(events := tr.events + ArgsEvents(id, index, frags[..k]));
      EmitKeeps(front, ToolArgs(id, frags[k], index));
      ArgsEventsSnoc(id, index, frags, k);
      assert frags[..k + 1] == frags;
      assert tr.events + ArgsEvents(id, index, frags) == Emit(front, ToolArgs(id, frags[k], index)).events;
    }
  }

  lemma StartSound(tr: Track, d: ToolDelta)
    requires SoundStream(tr.events, tr.started, tr.msgStart) && tr.started && tr.msgStart
    ensures SoundStream(Start(tr, d).events, true, true) && HasStarted(Start(tr, d).events, d.id)
    ensures forall x :: HasStarted(tr.events, x) ==> HasStarted(Start(tr, d).events, x)
  {
    var start := ToolStarted(d.id, d.name, d.index);
    EmitKeeps(tr, start);
    ArgsEventsKeep(Emit(tr, start), d.id, d.index, PendingOf(tr.pending, d.index));
    Assoc(tr.events, [start], ArgsEvents(d.id, d.index, PendingOf(tr.pending, d.index)));
  }

  lemma StartBooks(tr: Track, d: ToolDelta, input: seq<ToolDelta>, base: nat)
    requires base <= |tr.events| && Conserving(input, tr.events[base..], tr.active, tr.pending)
    requires d.id != "" && d.args == ""
    ensures var tr' := Start(tr, d); Conserving(input + [d], tr'.events[base..], tr'.active, tr'.pending)
  {
    var held := PendingOf(tr.pending, d.index);
    StartConserving(input, tr.events[base..], tr.active, tr.pending, d);
    SliceAppend(tr.events, [ToolStarted(d.id, d.name, d.index)] + ArgsEvents(d.id, d.index, held), base);
  }

  lemma StartKeeps(tr: Track, d: ToolDelta, input: seq<ToolDelta>, base: nat)
    requires Good(tr, input, base) && tr.started && tr.msgStart && d.id != "" && d.args == ""
    ensures Good(Start(tr, d), input + [d], base)
  {
    StartSound(tr, d);
    StartBooks(tr, d, input, base);
    StartOrder(input, tr.events[base..], tr.active, tr.pending, d);
    StartedGrows(tr.events, Start(tr, d).events, tr.active, d.index, d.id);
  }

  lemma ArgsKeeps(tr: Track, d: ToolDelta, input: seq<ToolDelta>, base: nat)
    requires Good(tr, input, base) && tr.started && tr.msgStart && d.id == "" && d.args != ""
    ensures Good(AddArgs(tr, d), input + [d], base)
  {
    IdOfSnoc(input, d, d.index);
    if d.index in tr.active {
      EmitConserving(input, tr.events[base..], tr.active, tr.pending, d);
      EmitKeeps(tr, ToolArgs(tr.active[d.index], d.args, d.index));
      SliceAppend(tr.events, [ToolArgs(tr.active[d.index], d.args, d.index)], base);
    } else {
      HoldConserving(input, tr.events[base..], tr.active, tr.pending, d);
    }
  }

  lemma HalvesGood(tr: Track, d: ToolDelta, input: seq<ToolDelta>, base: nat)
    requires Good(tr, input, base) && tr.started && tr.msgStart
    ensures Good(OnTool(tr, d), input + Halves(d), base)
  {
    var first, second := d.(args := ""), d.(id := "");
    if d.id == "" && d.args == "" {
      assert input + Halves(d) == input;
    } else if d.id == "" {
      ArgsKeeps(tr, second, input, base);
      assert Halves(d) == [second] && AddArgs(tr, second) == AddArgs(tr, d);
    } else if d.args == "" {
      StartKeeps(tr, first, input, base);
      assert Halves(d) == [first] && Start(tr, first) == Start(tr, d);
    } else {
      BothGood(tr, d, input, base);
    }
  }

  lemma BothGood(tr: Track, d: ToolDelta, input: seq<ToolDelta>, base: nat)
    requires Good(tr, input, base) && tr.started && tr.msgStart && d.id != "" && d.args != ""
    ensures Good(OnTool(tr, d), input + Halves(d), base)
  {
    var first, second := d.(args := ""), d.(id := "");
    StartKeeps(tr, first, input, base);
    assert Start(tr, first) == Start(tr, d);
    ArgsKeeps(Start(tr, d), second, input + [first], base);
    assert AddArgs(Start(tr, d), second) == AddArgs(Start(tr, d), d);
    assert input + Halves(d) == (input + [first]) + [second];
  }

  lemma ToolKeeps(tr: Track, d: ToolDelta, input: seq<ToolDelta>, base: nat)
    requires Good(tr, input, base) && tr.started && tr.msgStart
    ensures Good(OnTool(tr, d), input + [d], base)
  {
    var tr' := OnTool(tr, d);
    HalvesGood(tr, d, input, base);
    HalvesMatch(input, d, 0);
    SplitConserving(input, tr'.events[base..], tr'.active, tr'.pending, d);
  }

  // ----- The ids the events carry -----

  /** The events of the current segment carry the ids of their indices. */
  ghost predicate Named(tr: Track, input: seq<ToolDelta>, base: nat) {
    base <= |tr.events| && Labelled(input, tr.events[base..])
  }

  lemma EmitNamed(tr: Track, e: Event, input: seq<ToolDelta>, base: nat)
    requires Named(tr, input, base) && !e.ToolStarted? && !e.ToolFinished?
    requires e.ToolArgs? ==> e.id != "" && e.id == IdOf(input, e.index)
    ensures Named(Emit(tr, e), input, base)
  {
    LabelledSnoc(input, tr.events[base..], e);
    SliceAppend(tr.events, [e], base);
  }

  lemma OpenNamed(tr: Track, input: seq<ToolDelta>, base: nat)
    requires Named(tr, input, base)
    ensures Named(OpenResponse(tr), input, base) && Named(Open(tr), input, base)
  {
    var one := OpenResponse(tr);
    if !tr.started {
      EmitNamed(tr, ResponseStarted, input, base);
      assert one.events == Emit(tr, ResponseStarted).events;
    }
    if !one.msgStart {
      EmitNamed(one, MessageStarted, input, base);
      assert Open(tr).events == Emit(one, MessageStarted).events;
    }
  }

  lemma StartNamed(tr: Track, d: ToolDelta, input: seq<ToolDelta>, base: nat)
    requires Named(tr, input, base) && d.id != ""
    ensures Named(Start(tr, d), input + [d], base)
  {
    var held := PendingOf(tr.pending, d.index);
    var start := [ToolStarted(d.id, d.name, d.index)];
    LabelledStart(input, tr.events[base..], d);
    IdOfSnoc(input, d, d.index);
    LabelledArgs(input + [d], tr.events[base..] + start, d.id, d.index, held);
    SliceAppend(tr.events, start + ArgsEvents(d.id, d.index, held), base);
    Assoc(tr.events[base..], start, ArgsEvents(d.id, d.index, held));
  }

  lemma PlainIds(input: seq<ToolDelta>, d: ToolDelta)
    requires d.id == ""
    ensures forall i :: IdOf(input + [d], i) == IdOf(input, i)
  {
    forall i ensures IdOf(input + [d], i) == IdOf(input, i) { IdOfSnoc(input, d, i); }
  }

  lemma ArgsNamed(tr: Track, d: ToolDelta, input: seq<ToolDelta>, base: nat)
    requires Named(tr, input, base) && Conserving(input, tr.events[base..], tr.active, tr.pending)
    ensures Named(AddArgs(tr, d), input, base)
  {
    if d.index in tr.active {
      assert Conserves(input, tr.events[base..], tr.active, tr.pending, d.index);
      EmitNamed(tr, ToolArgs(tr.active[d.index], d.args, d.index), input, base);
    }
  }

  lemma ToolNamed(tr: Track, d: ToolDelta, input: seq<ToolDelta>, base: nat)
    requires Good(tr, input, base) && Named(tr, input, base) && tr.started && tr.msgStart
    ensures Named(OnTool(tr, d), input + [d], base)
  {
    if d.id == "" {
      if d.args != "" { ArgsNamed(tr, d, input, base); }
      PlainIds(input, d);
      LabelledSame(input, input + [d], OnTool(tr, d).events[base..]);
    } else {
      var first := d.(args := "");
      StartNamed(tr, first, input, base);
      StartKeeps(tr, first, input, base);
      assert Start(tr, first) == Start(tr, d);
      if d.args != "" { ArgsNamed(Start(tr, d), d, input + [first], base); }
      forall i ensures IdOf(input + [d], i) == IdOf(input + [first], i) {
        IdOfSnoc(input, d, i);
        IdOfSnoc(input, first, i);
      }
      LabelledSame(input + [first], input + [d], OnTool(tr, d).events[base..]);
    }
  }

  lemma OpNamed(tr: Track, op: Op, input: seq<ToolDelta>, base: nat)
    requires Good(tr, input, base) && Named(tr, input, base) && !op.ToolCallsEnd?
    ensures Named(ApplyOp(tr, op), if op.Tool? then input + [op.d] else input, base)
  {
    OpenNamed(tr, input, base);
    match op
    case Reason(text) => EmitNamed(Open(tr), ReasoningDelta(text), input, base);
    case Tool(d) => OpenKeeps(tr, input, base); ToolNamed(Open(tr), d, input, base);
    case Content(text) => EmitNamed(Open(tr), TextDelta(text), input, base);
    case End =>
    case Report(usage) => EmitNamed(OpenResponse(tr), UsageDelta(usage), input, base);
  }

  // ----- The tool_calls terminal -----

  /** Every listed index is running under the id it last received. */
  predicate Lists(input: seq<ToolDelta>, active: Active, order: seq<int>) {
    forall k :: 0 <= k < |order| ==>
      order[k] in active && active[order[k]] == IdOf(input, order[k]) && active[order[k]] != ""
  }

  lemma OrderLists(input: seq<ToolDelta>, seg: seq<Event>, active: Active, pending: Held)
    requires Conserving(input, seg, active, pending)
    ensures Lists(input, active, FirstSeen(input))
  {
    FirstSeenIsExact(input);
    forall k | 0 <= k < |FirstSeen(input)|
      ensures var i := FirstSeen(input)[k]; i in active && active[i] == IdOf(input, i) && active[i] != ""
    {
      assert FirstSeen(input)[k] in FirstSeen(input);
      assert Conserves(input, seg, active, pending, FirstSeen(input)[k]);
    }
  }

  /** The finish events are one for each listed index. */
  lemma {:induction false} FinishEventsAre(input: seq<ToolDelta>, active: Active, order: seq<int>)
    requires Lists(input, active, order)
    ensures FinishEvents(active, order) == Finishes(input, order)
  {
    if order != [] {
      var k := |order| - 1;
      FinishEventsAre(input, active, order[..k]);
      FinishesSnoc(input, order, k);
      assert order[..k + 1] == order;
    }
  }

  lemma {:induction false} FinishesSound(tr: Track, input: seq<ToolDelta>, order: seq<int>)
    requires SoundStream(tr.events, tr.started, tr.msgStart) && tr.started && tr.msgStart
    requires Started(tr.events, tr.active) && Lists(input, tr.active, order)
    ensures var events := tr.events + Finishes(input, order);
            SoundStream(events, true, true) && Grew(tr.events, events)
    decreases |order|
  {
    if order == [] {
      assert tr.events + Finishes(input, order) == tr.events;
    } else {
      var k := |order| - 1;
      FinishesSound(tr, input, order[..k]);
      var front := tr.(events := tr.events + Finishes(input, order[..k]));
      var e := ToolFinished(IdOf(input, order[k]), order[k]);
      assert HasStarted(tr.events, tr.active[order[k]]);
      EmitKeeps(front, e);
      FinishesSnoc(input, order, k);
      assert order[..k + 1] == order;
      Assoc(tr.events, Finishes(input, order[..k]), [e]);
    }
  }

  lemma FinishKeeps(tr: Track, input: seq<ToolDelta>, base: nat)
    requires Good(tr, input, base) && Named(tr, input, base) && tr.started && tr.msgStart
    ensures var tr' := FinishTools(tr);
            var seg := Segment(input, tr'.events[base..]);
            Good(tr', [], |tr'.events|) && seg.Conserved() && seg.Closed()
  {
    OrderLists(input, tr.events[base..], tr.active, tr.pending);
    FinishEventsAre(input, tr.active, tr.order);
    FinishesSound(tr, input, tr.order);
    var events := tr.events + Finishes(input, tr.order);
    GrewConserving(tr.events, events, base, input, tr.active, tr.pending);
    SegmentCloses(tr.events, events, base, input, tr.active, tr.pending);
    EmptyConserving(events);
  }

  lemma EmptyConserving(events: seq<Event>)
    ensures Conserving([], events[|events|..], map[], map[])
  {
    forall i ensures Conserves([], events[|events|..], map[], map[], i) {}
  }

  lemma SegmentCloses(before: seq<Event>, after: seq<Event>, base: nat, input: seq<ToolDelta>, active: Active,
                      pending: Held)
    requires base <= |before| && after == before + Finishes(input, FirstSeen(input))
    requires Conserving(input, after[base..], active, pending) && Labelled(input, before[base..])
    ensures Segment(input, after[base..]).Conserved() && Segment(input, after[base..]).Closed()
  {
    FirstSeenIsExact(input);
    forall k | 0 <= k < |FirstSeen(input)| ensures IdOf(input, FirstSeen(input)[k]) != "" {
      assert FirstSeen(input)[k] in FirstSeen(input);
    }
    FinishesTied(input, before[base..], FirstSeen(input));
    SliceAppend(before, Finishes(input, FirstSeen(input)), base);
    forall i ensures ArgsOf(after[base..], i) == if IdOf(input, i) == "" then [] else Fragments(input, i) {
      assert Conserves(input, after[base..], active, pending, i);
    }
    assert after[base..] == before[base..] + Finishes(input, FirstSeen(input));
  }

  // ----- Whole streams -----

  /** The decoder's state, the deltas of the current segment, where its events begin, and the
      segments before it. */
  datatype Book = Book(tr: Track, input: seq<ToolDelta>, base: nat, closed: seq<Segment>)

  function Record(b: Book, op: Op): Book {
    var tr := ApplyOp(b.tr, op);
    match op
    case Tool(d) => b.(tr := tr, input := b.input + [d])
    case ToolCallsEnd =>
      if b.base <= |tr.events| then Book(tr, [], |tr.events|, b.closed + [Segment(b.input, tr.events[b.base..])])
      else b.(tr := tr)
    case _ => b.(tr := tr)
  }

  function Run(ops: seq<Op>): Book {
    if ops == [] then Book(NewTrack, [], 0, []) else Record(Run(ops[..|ops| - 1]), ops[|ops| - 1])
  }

  function Deltas(ops: seq<Op>): seq<ToolDelta> {
    if ops == [] then [] else
      var op := ops[|ops| - 1];
      var front := Deltas(ops[..|ops| - 1]);
      if op.Tool? then front + [op.d] else front
  }

  /** The events are those of the closed segments, then those of the current one; every closed
      segment emitted the arguments of its calls once, in order, and finished each call once. */
  ghost predicate Kept(b: Book) {
    && Good(b.tr, b.input, b.base) && Named(b.tr, b.input, b.base)
    && AllEvents(b.closed) == b.tr.events[..b.base]
    && AllDone(b.closed)
  }

  ghost predicate AllDone(segments: seq<Segment>) {
    forall k :: 0 <= k < |segments| ==> segments[k].Conserved() && segments[k].Closed()
  }

  lemma AllDoneSnoc(segments: seq<Segment>, seg: Segment)
    requires AllDone(segments) && seg.Conserved() && seg.Closed()
    ensures AllDone(segments + [seg])
  {
  }

  lemma ToolGrows(tr: Track, d: ToolDelta)
    ensures tr.events <= OnTool(tr, d).events
  {
  }

  lemma OpGrows(tr: Track, op: Op)
    ensures tr.events <= ApplyOp(tr, op).events
  {
    assert tr.events <= OpenResponse(tr).events <= Open(tr).events;
    match op
    case Tool(d) => ToolGrows(Open(tr), d);
    case _ =>
  }

  lemma ReasonGood(tr: Track, text: string, input: seq<ToolDelta>, base: nat)
    requires Good(tr, input, base)
    ensures Good(Emit(Open(tr), ReasoningDelta(text)), input, base)
  {
    OpenKeeps(tr, input, base);
    PlainKeeps(Open(tr), ReasoningDelta(text), input, base);
  }

  lemma ContentGood(tr: Track, text: string, input: seq<ToolDelta>, base: nat)
    requires Good(tr, input, base)
    ensures Good(Emit(Open(tr), TextDelta(text)), input, base)
  {
    OpenKeeps(tr, input, base);
    PlainKeeps(Open(tr), TextDelta(text), input, base);
  }

  lemma ReportGood(tr: Track, usage: Usage, input: seq<ToolDelta>, base: nat)
    requires Good(tr, input, base)
    ensures Good(Emit(OpenResponse(tr), UsageDelta(usage)), input, base)
  {
    OpenKeeps(tr, input, base);
    PlainKeeps(OpenResponse(tr), UsageDelta(usage), input, base);
  }

  lemma OpGood(tr: Track, op: Op, input: seq<ToolDelta>, base: nat)
    requires Good(tr, input, base) && !op.ToolCallsEnd?
    ensures Good(ApplyOp(tr, op), if op.Tool? then input + [op.d] else input, base)
  {
    match op
    case Tool(d) => OpenKeeps(tr, input, base); ToolKeeps(Open(tr), d, input, base);
    case End => OpenKeeps(tr, input, base);
    case Reason(text) => ReasonGood(tr, text, input, base);
    case Content(text) => ContentGood(tr, text, input, base);
    case Report(usage) => ReportGood(tr, usage, input, base);
  }

  lemma CloseBook(b: Book, tr': Track, seg: Segment)
    requires Kept(b) && b.tr.events <= tr'.events && seg == Segment(b.input, tr'.events[b.base..])
    requires Good(tr', [], |tr'.events|) && Named(tr', [], |tr'.events|) && seg.Conserved() && seg.Closed()
    ensures Kept(Book(tr', [], |tr'.events|, b.closed + [seg]))
  {
    AllEventsSnoc(b.closed, seg);
    AllDoneSnoc(b.closed, seg);
    PrefixKept(b.tr.events, tr'.events, b.base);
  }

  lemma OpenGood(tr: Track, input: seq<ToolDelta>, base: nat)
    requires Good(tr, input, base)
    ensures Good(Open(tr), input, base) && Open(tr).started && Open(tr).msgStart
  {
    OpenKeeps(tr, input, base);
  }

  lemma FinishGrows(tr: Track)
    ensures tr.events <= FinishTools(Open(tr)).events
  {
    assert tr.events <= Open(tr).events;
  }

  lemma FinishGood(tr: Track, input: seq<ToolDelta>, base: nat)
    requires Good(tr, input, base) && Named(tr, input, base)
    ensures var tr' := FinishTools(Open(tr));
            tr.events <= tr'.events && Good(tr', [], |tr'.events|) && Segment(input, tr'.events[base..]).Conserved() &&
            Segment(input, tr'.events[base..]).Closed()
  {
    FinishGrows(tr);
    OpenGood(tr, input, base);
    OpenNamed(tr, input, base);
    FinishKeeps(Open(tr), input, base);
  }

  lemma TerminalRecord(b: Book)
    requires b.base <= |b.tr.events|
    ensures var tr' := FinishTools(Open(b.tr));
            b.base <= |tr'.events| &&
            Record(b, ToolCallsEnd) == Book(tr', [], |tr'.events|, b.closed + [Segment(b.input, tr'.events[b.base..])])
  {
    FinishGrows(b.tr);
  }

  lemma TerminalKeeps(b: Book)
    requires Kept(b)
    ensures Kept(Record(b, ToolCallsEnd))
    ensures Record(b, ToolCallsEnd).input == []
    ensures AllInput(Record(b, ToolCallsEnd).closed) == AllInput(b.closed) + b.input
  {
    var tr' := FinishTools(Open(b.tr));
    TerminalRecord(b);
    FinishGood(b.tr, b.input, b.base);
    var seg := Segment(b.input, tr'.events[b.base..]);
    EmptyNamed(tr');
    CloseBook(b, tr', seg);
    AllEventsSnoc(b.closed, seg);
  }

  lemma EmptyNamed(tr: Track)
    ensures Named(tr, [], |tr.events|)
  {
    assert tr.events[|tr.events|..] == [];
  }

  lemma PrefixKept(events: seq<Event>, events': seq<Event>, base: nat)
    requires events <= events' && base <= |events|
    ensures events'[..base] == events[..base]
    ensures events'[..base] + events'[base..] == events'[..|events'|]
  {
  }

  lemma RecordKeeps(b: Book, op: Op)
    requires Kept(b)
    ensures Kept(Record(b, op))
  {
    if op.ToolCallsEnd? {
      TerminalKeeps(b);
    } else {
      var tr' := ApplyOp(b.tr, op);
      OpGood(b.tr, op, b.input, b.base);
      OpNamed(b.tr, op, b.input, b.base);
      OpGrows(b.tr, op);
      PrefixKept(b.tr.events, tr'.events, b.base);
      assert Record(b, op) == b.(tr := tr', input := if op.Tool? then b.input + [op.d] else b.input);
    }
  }

  lemma RecordInput(b: Book, op: Op)
    requires Kept(b)
    ensures AllInput(Record(b, op).closed) + Record(b, op).input ==
            if op.Tool? then (AllInput(b.closed) + b.input) + [op.d] else AllInput(b.closed) + b.input
  {
    match op
    case ToolCallsEnd => TerminalKeeps(b);
    case Tool(d) => assert AllInput(b.closed) + (b.input + [d]) == (AllInput(b.closed) + b.input) + [d];
    case _ =>
  }

  lemma AllEventsSnoc(segments: seq<Segment>, seg: Segment)
    ensures AllEvents(segments + [seg]) == AllEvents(segments) + seg.events
    ensures AllInput(segments + [seg]) == AllInput(segments) + seg.input
  {
    assert (segments + [seg])[..|segments|] == segments;
  }

  /** Tool-argument conservation, for every stream: its deltas fall into segments at the tool_calls
      terminals, and the events of each segment carry the fragments of every index that received an
      id exactly once and in order, under the id that index was last started with; every running
      call is finished once, at the terminal; every argument or finish event follows its start. */
  lemma {:induction false} ToolArgumentsConserved(ops: seq<Op>)
    ensures Kept(Run(ops)) && AllInput(Run(ops).closed) + Run(ops).input == Deltas(ops)
    ensures Opened(Run(ops).tr.events) && Framed(Run(ops).tr.events)
  {
    if ops == [] {
      EmptyConserving([]);
      EmptyNamed(NewTrack);
    } else {
      ToolArgumentsConserved(ops[..|ops| - 1]);
      RecordKeeps(Run(ops[..|ops| - 1]), ops[|ops| - 1]);
      RecordInput(Run(ops[..|ops| - 1]), ops[|ops| - 1]);
    }
  }
}
