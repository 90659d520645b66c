/** What streamed chat chunks mean for tool calls (connector-support/openaicompat/stream.go): tool
    calls arrive as fragments keyed by an index; a fragment may come before the id of its call, and
    is then held back. */
module ChatSpec {
  import opened Options

  datatype ToolDelta = ToolDelta(index: int, id: string, name: string, args: string)

  /** `reasoning` is the fragment the decoder picked from the two vendor fields. */
  datatype Choice = Choice(reasoning: string, toolCalls: seq<ToolDelta>, content: string, finishReason: string)

  datatype Usage = Usage(promptTokens: int, completionTokens: int)

  datatype Chunk = Chunk(choices: seq<Choice>, usage: Option<Usage>)

  /** `index` is history: the emitted event carries the id alone. */
  datatype Event =
    | ResponseStarted
    | MessageStarted
    | ReasoningDelta(text: string)
    | TextDelta(text: string)
    | ToolStarted(id: string, name: string, index: int)
    | ToolArgs(id: string, args: string, index: int)
    | ToolFinished(id: string, index: int)
    | UsageDelta(usage: Usage)

  // ----- Specification: one segment of tool deltas, up to a tool_calls terminal -----

  /** The id index `i` last received, or "". */
  function IdOf(input: seq<ToolDelta>, i: int): string {
    if input == [] then "" else
      var d := input[|input| - 1];
      if d.index == i && d.id != "" then d.id else IdOf(input[..|input| - 1], i)
  }

  /** The argument fragments of index `i`, in input order. */
  function Fragments(input: seq<ToolDelta>, i: int): seq<string> {
    if input == [] then [] else
      var d := input[|input| - 1];
      var front := Fragments(input[..|input| - 1], i);
      if d.index == i && d.args != "" then front + [d.args] else front
  }

  /** The indices that received an id, by first id. */
  function FirstSeen(input: seq<ToolDelta>): seq<int> {
    if input == [] then [] else
      var d := input[|input| - 1];
      var front := input[..|input| - 1];
      if d.id != "" && IdOf(front, d.index) == "" then FirstSeen(front) + [d.index] else FirstSeen(front)
  }

  /** The argument fragments emitted for index `i`. */
  function ArgsOf(events: seq<Event>, i: int): seq<string> {
    if events == [] then [] else
      var e := events[|events| - 1];
      var front := ArgsOf(events[..|events| - 1], i);
      if e.ToolArgs? && e.index == i then front + [e.args] else front
  }

  function ArgsEvents(id: string, index: int, frags: seq<string>): seq<Event> {
    seq(|frags|, k requires 0 <= k < |frags| => ToolArgs(id, frags[k], index))
  }

  /** One finish event for each index that received an id, by first id. */
  function Finishes(input: seq<ToolDelta>, order: seq<int>): seq<Event> {
    seq(|order|, k requires 0 <= k < |order| => ToolFinished(IdOf(input, order[k]), order[k]))
  }

  /** The id under which index `i` was last started, or "". */
  function StartedId(events: seq<Event>, i: int): string {
    if events == [] then "" else
      var e := events[|events| - 1];
      if e.ToolStarted? && e.index == i then e.id else StartedId(events[..|events| - 1], i)
  }

  /** An argument or finish event carries the id its index was last started under. */
  predicate Tied(events: seq<Event>) {
    forall k :: 0 <= k < |events| && (events[k].ToolArgs? || events[k].ToolFinished?) ==>
      events[k].id != "" && events[k].id == StartedId(events[..k], events[k].index)
  }

  predicate NoFinish(events: seq<Event>) {
    forall k :: 0 <= k < |events| ==> !events[k].ToolFinished?
  }

  /** A finished segment: the fragments of every index that received an id were emitted once and in
      order under the id of that index, those of other indices not at all, and exactly the running
      calls are finished, once each, at the end. */
  datatype Segment = Segment(input: seq<ToolDelta>, events: seq<Event>) {
    ghost predicate Conserved() {
      Tied(events) && forall i :: ArgsOf(events, i) == if IdOf(input, i) == "" then [] else Fragments(input, i)
    }
    predicate Closed() {
      var tail := Finishes(input, FirstSeen(input));
      |tail| <= |events| && events[|events| - |tail|..] == tail && NoFinish(events[..|events| - |tail|])
    }
  }

  function AllEvents(segments: seq<Segment>): seq<Event> {
    if segments == [] then [] else AllEvents(segments[..|segments| - 1]) + segments[|segments| - 1].events
  }

  function AllInput(segments: seq<Segment>): seq<ToolDelta> {
    if segments == [] then [] else AllInput(segments[..|segments| - 1]) + segments[|segments| - 1].input
  }

  lemma IdOfSnoc(input: seq<ToolDelta>, d: ToolDelta, i: int)
    ensures IdOf(input + [d], i) == if d.index == i && d.id != "" then d.id else IdOf(input, i)
    ensures Fragments(input + [d], i) ==
            if d.index == i && d.args != "" then Fragments(input, i) + [d.args] else Fragments(input, i)
    ensures FirstSeen(input + [d]) ==
            if d.id != "" && IdOf(input, d.index) == "" then FirstSeen(input) + [d.index] else FirstSeen(input)
  {
    assert (input + [d])[..|input|] == input;
  }

  lemma ArgsOfSnoc(events: seq<Event>, e: Event, i: int)
    ensures ArgsOf(events + [e], i) ==
            if e.ToolArgs? && e.index == i then ArgsOf(events, i) + [e.args] else ArgsOf(events, i)
  {
    assert (events + [e])[..|events|] == events;
  }

  lemma {:induction false} ArgsOfAppend(a: seq<Event>, b: seq<Event>, i: int)
    ensures ArgsOf(a + b, i) == ArgsOf(a, i) + ArgsOf(b, i)
    decreases |b|
  {
    if b == [] {
      assert a + b == a;
    } else {
      var front, e := b[..|b| - 1], b[|b| - 1];
      ArgsOfAppend(a, front, i);
      assert a + b == (a + front) + [e] && b == front + [e];
      ArgsOfSnoc(a + front, e, i);
      ArgsOfSnoc(front, e, i);
    }
  }

  lemma {:induction false} NoArgs(events: seq<Event>, i: int)
    requires forall k :: 0 <= k < |events| ==> !(events[k].ToolArgs? && events[k].index == i)
    ensures ArgsOf(events, i) == []
  {
    if events != [] { NoArgs(events[..|events| - 1], i); }
  }

  lemma {:induction false} ArgsOfEvents(id: string, index: int, frags: seq<string>)
    ensures ArgsOf(ArgsEvents(id, index, frags), index) == frags
  {
    var es := ArgsEvents(id, index, frags);
    if frags != [] {
      assert es[..|es| - 1] == ArgsEvents(id, index, frags[..|frags| - 1]);
      ArgsOfEvents(id, index, frags[..|frags| - 1]);
    }
  }

  lemma ArgsEventsSnoc(id: string, index: int, frags: seq<string>, k: nat)
    requires k < |frags|
    ensures ArgsEvents(id, index, frags[..k + 1]) == ArgsEvents(id, index, frags[..k]) + [ToolArgs(id, frags[k], index)]
  {
  }

  /** A delta with an id and a fragment acts as the id, then the fragment. */
  lemma DeltaSplits(input: seq<ToolDelta>, d: ToolDelta, i: int)
    ensures var both := (input + [d.(args := "")]) + [d.(id := "")];
            && IdOf(both, i) == IdOf(input + [d], i)
            && Fragments(both, i) == Fragments(input + [d], i)
            && FirstSeen(both) == FirstSeen(input + [d])
  {
    IdOfSnoc(input, d, i);
    IdOfSnoc(input, d.(args := ""), i);
    IdOfSnoc(input + [d.(args := "")], d.(id := ""), i);
  }

  /** An index is listed once, exactly if it received an id. */
  lemma {:induction false} FirstSeenIsExact(input: seq<ToolDelta>)
    ensures forall i :: i in FirstSeen(input) <==> IdOf(input, i) != ""
    ensures forall j, k :: 0 <= j < k < |FirstSeen(input)| ==> FirstSeen(input)[j] != FirstSeen(input)[k]
  {
    if input != [] {
      var front, d := input[..|input| - 1], input[|input| - 1];
      FirstSeenIsExact(front);
      assert input == front + [d];
      forall i ensures i in FirstSeen(input) <==> IdOf(input, i) != "" {
        IdOfSnoc(front, d, i);
      }
    }
  }

  // ----- Specification: the whole stream of events -----

  predicate HasStarted(events: seq<Event>, id: string) {
    exists j :: 0 <= j < |events| && events[j].ToolStarted? && events[j].id == id
  }

  /** Every argument or finish event follows a start with the same id. */
  predicate Opened(events: seq<Event>) {
    forall k :: 0 <= k < |events| && (events[k].ToolArgs? || events[k].ToolFinished?) ==>
      HasStarted(events[..k], events[k].id)
  }

  /** Both starts come first and once; everything but a usage event needs both. */
  predicate Framed(events: seq<Event>) {
    forall k :: 0 <= k < |events| ==>
      match events[k]
      case ResponseStarted => events[k] !in events[..k]
      case MessageStarted => events[k] !in events[..k] && ResponseStarted in events[..k]
      case UsageDelta(_) => ResponseStarted in events[..k]
      case _ => ResponseStarted in events[..k] && MessageStarted in events[..k]
  }

  /** An event that may follow `events`. */
  predicate Allowed(events: seq<Event>, e: Event) {
    && (e.ToolArgs? || e.ToolFinished? ==> HasStarted(events, e.id))
    && match e
       case ResponseStarted => e !in events
       case MessageStarted => e !in events && ResponseStarted in events
       case UsageDelta(_) => ResponseStarted in events
       case _ => ResponseStarted in events && MessageStarted in events
  }

  predicate SoundStream(events: seq<Event>, started: bool, msgStart: bool) {
    && Opened(events) && Framed(events)
    && (started <==> ResponseStarted in events) && (msgStart <==> MessageStarted in events)
  }

  /** Every running call has started. */
  predicate Started(events: seq<Event>, active: map<int, string>) {
    forall i :: i in active ==> HasStarted(events, active[i])
  }

  lemma StartedGrows(events: seq<Event>, events': seq<Event>, active: map<int, string>, i: int, id: string)
    requires Started(events, active) && HasStarted(events', id)
    requires forall x :: HasStarted(events, x) ==> HasStarted(events', x)
    ensures Started(events', active) && Started(events', active[i := id])
  {
  }

  lemma EventAppends(events: seq<Event>, e: Event)
    requires Opened(events) && Framed(events) && Allowed(events, e)
    ensures Opened(events + [e]) && Framed(events + [e])
    ensures forall id :: HasStarted(events, id) ==> HasStarted(events + [e], id)
    ensures e.ToolStarted? ==> HasStarted(events + [e], e.id)
  {
    var out := events + [e];
    forall k | 0 <= k < |events| ensures out[..k] == events[..k] {}
    assert out[..|events|] == events;
    forall id | HasStarted(events, id) ensures HasStarted(out, id) {
      var j :| 0 <= j < |events| && events[j].ToolStarted? && events[j].id == id;
      assert out[j] == events[j];
    }
    assert out[|events|] == e;
  }

  // ----- The tracker -----

  type Active = map<int, string>
  type Held = map<int, seq<string>>

  function PendingOf(pending: Held, i: int): seq<string> {
    if i in pending then pending[i] else []
  }

  /** Index `i`: its fragments are held back until it has an id, and all emitted from then on. */
  predicate Conserves(input: seq<ToolDelta>, seg: seq<Event>, active: Active, pending: Held, i: int) {
    var id := IdOf(input, i);
    && (i in active <==> id != "") && (i in active ==> active[i] == id)
    && ArgsOf(seg, i) == (if id == "" then [] else Fragments(input, i))
    && PendingOf(pending, i) == (if id == "" then Fragments(input, i) else [])
  }

  lemma StartArgs(seg: seq<Event>, id: string, name: string, index: int, held: seq<string>, i: int)
    ensures ArgsOf(seg + ([ToolStarted(id, name, index)] + ArgsEvents(id, index, held)), i) ==
            if i == index then ArgsOf(seg, i) + held else ArgsOf(seg, i)
  {
    var start, rest := [ToolStarted(id, name, index)], ArgsEvents(id, index, held);
    ArgsOfAppend(seg, start + rest, i);
    ArgsOfAppend(start, rest, i);
    NoArgs(start, i);
    if i == index { ArgsOfEvents(id, index, held); } else { NoArgs(rest, i); }
  }

  lemma StartConserves(input: seq<ToolDelta>, seg: seq<Event>, seg': seq<Event>, active: Active, pending: Held,
                       d: ToolDelta, i: int)
    requires Conserves(input, seg, active, pending, i) && d.id != "" && d.args == ""
    requires ArgsOf(seg', i) == if i == d.index then ArgsOf(seg, i) + PendingOf(pending, i) else ArgsOf(seg, i)
    ensures Conserves(input + [d], seg', active[d.index := d.id], pending - {d.index}, i)
  {
    IdOfSnoc(input, d, i);
  }

  lemma EmitConserves(input: seq<ToolDelta>, seg: seq<Event>, active: Active, pending: Held, d: ToolDelta, i: int)
    requires Conserves(input, seg, active, pending, i) && d.id == "" && d.args != "" && d.index in active
    ensures Conserves(input + [d], seg + [ToolArgs(active[d.index], d.args, d.index)], active, pending, i)
  {
    IdOfSnoc(input, d, i);
    ArgsOfSnoc(seg, ToolArgs(active[d.index], d.args, d.index), i);
  }

  lemma HoldConserves(input: seq<ToolDelta>, seg: seq<Event>, active: Active, pending: Held, d: ToolDelta, i: int)
    requires Conserves(input, seg, active, pending, i) && d.id == "" && d.args != "" && d.index !in active
    ensures Conserves(input + [d], seg, active, pending[d.index := PendingOf(pending, d.index) + [d.args]], i)
  {
    IdOfSnoc(input, d, i);
  }

  ghost predicate Conserving(input: seq<ToolDelta>, seg: seq<Event>, active: Active, pending: Held) {
    forall i :: Conserves(input, seg, active, pending, i)
  }

  lemma StartConserving(input: seq<ToolDelta>, seg: seq<Event>, active: Active, pending: Held, d: ToolDelta)
    requires Conserving(input, seg, active, pending) && d.id != "" && d.args == ""
    ensures var more := [ToolStarted(d.id, d.name, d.index)] + ArgsEvents(d.id, d.index, PendingOf(pending, d.index));
            Conserving(input + [d], seg + more, active[d.index := d.id], pending - {d.index})
  {
    var more := [ToolStarted(d.id, d.name, d.index)] + ArgsEvents(d.id, d.index, PendingOf(pending, d.index));
    var input', seg', active', pending' := input + [d], seg + more, active[d.index := d.id], pending - {d.index};
    forall i ensures Conserves(input', seg', active', pending', i) {
      StartArgs(seg, d.id, d.name, d.index, PendingOf(pending, d.index), i);
      StartConserves(input, seg, seg', active, pending, d, i);
    }
  }

  lemma StartOrder(input: seq<ToolDelta>, seg: seq<Event>, active: Active, pending: Held, d: ToolDelta)
    requires Conserving(input, seg, active, pending) && d.id != ""
    ensures FirstSeen(input + [d]) == if d.index in active then FirstSeen(input) else FirstSeen(input) + [d.index]
  {
    assert Conserves(input, seg, active, pending, d.index);
    IdOfSnoc(input, d, d.index);
  }

  lemma SliceAppend(events: seq<Event>, more: seq<Event>, base: nat)
    requires base <= |events|
    ensures (events + more)[base..] == events[base..] + more
  {
  }

  lemma EmitConserving(input: seq<ToolDelta>, seg: seq<Event>, active: Active, pending: Held, d: ToolDelta)
    requires Conserving(input, seg, active, pending) && d.id == "" && d.args != "" && d.index in active
    ensures Conserving(input + [d], seg + [ToolArgs(active[d.index], d.args, d.index)], active, pending)
  {
    forall i ensures Conserves(input + [d], seg + [ToolArgs(active[d.index], d.args, d.index)], active, pending, i) {
      EmitConserves(input, seg, active, pending, d, i);
    }
  }

  lemma HoldConserving(input: seq<ToolDelta>, seg: seq<Event>, active: Active, pending: Held, d: ToolDelta)
    requires Conserving(input, seg, active, pending) && d.id == "" && d.args != "" && d.index !in active
    ensures Conserving(input + [d], seg, active, pending[d.index := PendingOf(pending, d.index) + [d.args]])
  {
    var input', pending' := input + [d], pending[d.index := PendingOf(pending, d.index) + [d.args]];
    forall i ensures Conserves(input', seg, active, pending', i) {
      HoldConserves(input, seg, active, pending, d, i);
    }
  }

  function Halves(d: ToolDelta): seq<ToolDelta> {
    (if d.id != "" then [d.(args := "")] else []) + (if d.args != "" then [d.(id := "")] else [])
  }

  /** A delta with an id and a fragment acts as the id, then the fragment. */
  lemma HalvesMatch(input: seq<ToolDelta>, d: ToolDelta, i: int)
    ensures IdOf(input + Halves(d), i) == IdOf(input + [d], i)
    ensures Fragments(input + Halves(d), i) == Fragments(input + [d], i)
    ensures FirstSeen(input + Halves(d)) == FirstSeen(input + [d])
  {
    if d.id == "" && d.args == "" {
      assert input + Halves(d) == input;
      IdOfSnoc(input, d, i);
    } else if d.id == "" || d.args == "" {
      assert input + Halves(d) == input + [d];
    } else {
      assert input + Halves(d) == (input + [d.(args := "")]) + [d.(id := "")];
      DeltaSplits(input, d, i);
    }
  }

  lemma SplitConserving(input: seq<ToolDelta>, seg: seq<Event>, active: Active, pending: Held, d: ToolDelta)
    requires Conserving(input + Halves(d), seg, active, pending)
    ensures Conserving(input + [d], seg, active, pending)
  {
    forall i ensures Conserves(input + [d], seg, active, pending, i) {
      HalvesMatch(input, d, i);
      assert Conserves(input + Halves(d), seg, active, pending, i);
    }
  }

  /** Events without argument fragments were appended. */
  ghost predicate Grew(before: seq<Event>, after: seq<Event>) {
    && before <= after
    && (forall k :: |before| <= k < |after| ==> !after[k].ToolArgs?)
    && (forall id :: HasStarted(before, id) ==> HasStarted(after, id))
  }

  lemma GrewKeepsArgs(before: seq<Event>, after: seq<Event>, base: nat, i: int)
    requires Grew(before, after) && base <= |before|
    ensures ArgsOf(after[base..], i) == ArgsOf(before[base..], i)
  {
    var more := after[|before|..];
    NoArgs(more, i);
    ArgsOfAppend(before[base..], more, i);
    assert after[base..] == before[base..] + more;
  }

  lemma GrewConserving(before: seq<Event>, after: seq<Event>, base: nat, input: seq<ToolDelta>, active: Active,
                       pending: Held)
    requires Grew(before, after) && base <= |before| && Conserving(input, before[base..], active, pending)
    ensures Conserving(input, after[base..], active, pending)
  {
    forall i ensures Conserves(input, after[base..], active, pending, i) {
      GrewKeepsArgs(before, after, base, i);
      assert Conserves(input, before[base..], active, pending, i);
    }
  }

  lemma FinishesSnoc(input: seq<ToolDelta>, order: seq<int>, k: nat)
    requires k < |order|
    ensures Finishes(input, order[..k + 1]) ==
            Finishes(input, order[..k]) + [ToolFinished(IdOf(input, order[k]), order[k])]
  {
  }

  // ----- The ids of the current segment -----

  /** Every event of the segment carries the id of its index, and no call is finished yet. */
  ghost predicate Labelled(input: seq<ToolDelta>, seg: seq<Event>) {
    Tied(seg) && NoFinish(seg) && forall i :: StartedId(seg, i) == IdOf(input, i)
  }

  lemma StartedIdSnoc(seg: seq<Event>, e: Event, i: int)
    ensures StartedId(seg + [e], i) == if e.ToolStarted? && e.index == i then e.id else StartedId(seg, i)
  {
    assert (seg + [e])[..|seg|] == seg;
  }

  lemma TiedSnoc(seg: seq<Event>, e: Event)
    requires Tied(seg)
    requires e.ToolArgs? || e.ToolFinished? ==> e.id != "" && e.id == StartedId(seg, e.index)
    ensures Tied(seg + [e])
  {
    var out := seg + [e];
    assert out[..|seg|] == seg;
    forall k | 0 <= k < |seg| ensures out[..k] == seg[..k] && out[k] == seg[k] {}
  }

  /** An event that starts and finishes no call leaves every id as it was. */
  lemma LabelledSnoc(input: seq<ToolDelta>, seg: seq<Event>, e: Event)
    requires Labelled(input, seg) && !e.ToolStarted? && !e.ToolFinished?
    requires e.ToolArgs? ==> e.id != "" && e.id == IdOf(input, e.index)
    ensures Labelled(input, seg + [e])
  {
    TiedSnoc(seg, e);
    forall i ensures StartedId(seg + [e], i) == IdOf(input, i) { StartedIdSnoc(seg, e, i); }
  }

  lemma LabelledSame(input: seq<ToolDelta>, input': seq<ToolDelta>, seg: seq<Event>)
    requires Labelled(input, seg) && forall i :: IdOf(input', i) == IdOf(input, i)
    ensures Labelled(input', seg)
  {
  }

  lemma LabelledStart(input: seq<ToolDelta>, seg: seq<Event>, d: ToolDelta)
    requires Labelled(input, seg) && d.id != ""
    ensures Labelled(input + [d], seg + [ToolStarted(d.id, d.name, d.index)])
  {
    var e := ToolStarted(d.id, d.name, d.index);
    TiedSnoc(seg, e);
    forall i ensures StartedId(seg + [e], i) == IdOf(input + [d], i) {
      StartedIdSnoc(seg, e, i);
      IdOfSnoc(input, d, i);
    }
  }

  lemma {:induction false} LabelledArgs(input: seq<ToolDelta>, seg: seq<Event>, id: string, index: int,
                                        frags: seq<string>)
    requires Labelled(input, seg) && id != "" && id == IdOf(input, index)
    ensures Labelled(input, seg + ArgsEvents(id, index, frags))
    decreases |frags|
  {
    if frags == [] {
      assert seg + ArgsEvents(id, index, frags) == seg;
    } else {
      var k := |frags| - 1;
      var front, e := seg + ArgsEvents(id, index, frags[..k]), ToolArgs(id, frags[k], index);
      LabelledArgs(input, seg, id, index, frags[..k]);
      LabelledSnoc(input, front, e);
      ArgsEventsSnoc(id, index, frags, k);
      assert frags[..k + 1] == frags;
      assert seg + ArgsEvents(id, index, frags) == front + [e];
    }
  }

  /** Finishing the running calls keeps every event tied. */
  lemma {:induction false} FinishesTied(input: seq<ToolDelta>, seg: seq<Event>, order: seq<int>)
    requires Labelled(input, seg) && forall k :: 0 <= k < |order| ==> IdOf(input, order[k]) != ""
    ensures Tied(seg + Finishes(input, order))
    ensures forall i :: StartedId(seg + Finishes(input, order), i) == IdOf(input, i)
    decreases |order|
  {
    if order == [] {
      assert seg + Finishes(input, order) == seg;
    } else {
      var k := |order| - 1;
      var front, e := seg + Finishes(input, order[..k]), ToolFinished(IdOf(input, order[k]), order[k]);
      FinishesTied(input, seg, order[..k]);
      TiedSnoc(front, e);
      FinishesSnoc(input, order, k);
      assert order[..k + 1] == order;
      assert seg + Finishes(input, order) == front + [e];
      forall i ensures StartedId(front + [e], i) == IdOf(input, i) { StartedIdSnoc(front, e, i); }
    }
  }
}
