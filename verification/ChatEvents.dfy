/** What a stream of chat chunks must yield, read off the chunks, and that the tracker yields it
    (connector-support/openaicompat/stream.go). */
module ChatEvents {
  import opened Basics
  import opened Options
  import opened ChatSpec
  import opened ChatTracker

  // ----- The events the chunks call for -----

  /** A tool delta, after the deltas `input` of its segment: an id starts the call and releases the
      fragments that came before the index had one; a fragment follows under the id of its index. */
  function DeltaEvents(input: seq<ToolDelta>, d: ToolDelta): seq<Event> {
    var id := IdOf(input + [d], d.index);
    (if d.id == "" then [] else
       [ToolStarted(d.id, d.name, d.index)] +
       ArgsEvents(d.id, d.index, if IdOf(input, d.index) == "" then Fragments(input, d.index) else [])) +
    (if d.args == "" || id == "" then [] else [ToolArgs(id, d.args, d.index)])
  }

  function DeltasEvents(input: seq<ToolDelta>, ds: seq<ToolDelta>): seq<Event> {
    if ds == [] then [] else
      var front := ds[..|ds| - 1];
      DeltasEvents(input, front) + DeltaEvents(input + front, ds[|ds| - 1])
  }

  /** The calls of the segment are finished at its terminal. */
  function EndEvents(input: seq<ToolDelta>, reason: string): seq<Event> {
    if reason == "tool_calls" then Finishes(input, FirstSeen(input)) else []
  }

  /** Reasoning, tool calls, content, terminal. */
  function ChoiceEvents(input: seq<ToolDelta>, ch: Choice): seq<Event> {
    (if ch.reasoning == "" then [] else [ReasoningDelta(ch.reasoning)]) +
    DeltasEvents(input, ch.toolCalls) +
    (if ch.content == "" then [] else [TextDelta(ch.content)]) +
    EndEvents(input + ch.toolCalls, ch.finishReason)
  }

  /** The deltas of the segment a choice leaves open. */
  function OpenAfter(input: seq<ToolDelta>, ch: Choice): seq<ToolDelta> {
    if ch.finishReason == "tool_calls" then [] else input + ch.toolCalls
  }

  function OpenAfterAll(input: seq<ToolDelta>, chs: seq<Choice>): seq<ToolDelta> {
    if chs == [] then input else OpenAfter(OpenAfterAll(input, chs[..|chs| - 1]), chs[|chs| - 1])
  }

  function ChoicesEvents(input: seq<ToolDelta>, chs: seq<Choice>): seq<Event> {
    if chs == [] then [] else
      var front := chs[..|chs| - 1];
      ChoicesEvents(input, front) + ChoiceEvents(OpenAfterAll(input, front), chs[|chs| - 1])
  }

  function UsageEvents(usage: Option<Usage>): seq<Event> {
    if usage.None? then [] else [UsageDelta(usage.value)]
  }

  function AllChoices(chunks: seq<Chunk>): seq<Choice> {
    if chunks == [] then [] else AllChoices(chunks[..|chunks| - 1]) + chunks[|chunks| - 1].choices
  }

  /** Every chunk's choices in order, then its usage. */
  function StreamEvents(chunks: seq<Chunk>): seq<Event> {
    if chunks == [] then [] else
      var front, last := chunks[..|chunks| - 1], chunks[|chunks| - 1];
      StreamEvents(front) + (ChoicesEvents(OpenAfterAll([], AllChoices(front)), last.choices) + UsageEvents(last.usage))
  }

  function WithoutStarts(events: seq<Event>): seq<Event> {
    if events == [] then [] else
      var e := events[|events| - 1];
      var front := WithoutStarts(events[..|events| - 1]);
      if e.ResponseStarted? || e.MessageStarted? then front else front + [e]
  }

  /** A choice that opens the message. */
  predicate Speaks(ch: Choice) {
    ch.reasoning != "" || ch.toolCalls != [] || ch.content != "" || ch.finishReason != ""
  }

  // ----- The operations the chunks ask of the tracker -----

  function ToolOps(ds: seq<ToolDelta>): seq<Op> {
    seq(|ds|, k requires 0 <= k < |ds| => Tool(ds[k]))
  }

  function EndOps(reason: string): seq<Op> {
    if reason == "" then [] else if reason == "tool_calls" then [ToolCallsEnd] else [End]
  }

  function ReasonOps(ch: Choice): seq<Op> {
    if ch.reasoning != "" then [Reason(ch.reasoning)] else []
  }

  function ContentOps(ch: Choice): seq<Op> {
    if ch.content != "" then [Content(ch.content)] else []
  }

  function ChoiceOps(ch: Choice): seq<Op> {
    ReasonOps(ch) + ToolOps(ch.toolCalls) + ContentOps(ch) + EndOps(ch.finishReason)
  }

  function ChoicesOps(chs: seq<Choice>): seq<Op> {
    if chs == [] then [] else ChoicesOps(chs[..|chs| - 1]) + ChoiceOps(chs[|chs| - 1])
  }

  function UsageOps(usage: Option<Usage>): seq<Op> {
    if usage.Some? then [Report(usage.value)] else []
  }

  function ChunkOps(chunk: Chunk): seq<Op> {
    ChoicesOps(chunk.choices) + UsageOps(chunk.usage)
  }

  function StreamOps(chunks: seq<Chunk>): seq<Op> {
    if chunks == [] then [] else StreamOps(chunks[..|chunks| - 1]) + ChunkOps(chunks[|chunks| - 1])
  }

  // ----- What one operation emits -----

  /** After the deltas `input` of the segment. */
  function OpEvents(input: seq<ToolDelta>, op: Op): seq<Event> {
    match op
    case Reason(text) => [ReasoningDelta(text)]
    case Tool(d) => DeltaEvents(input, d)
    case Content(text) => [TextDelta(text)]
    case ToolCallsEnd => Finishes(input, FirstSeen(input))
    case End => []
    case Report(usage) => [UsageDelta(usage)]
  }

  function OpInput(input: seq<ToolDelta>, op: Op): seq<ToolDelta> {
    match op
    case Tool(d) => input + [d]
    case ToolCallsEnd => []
    case _ => input
  }

  predicate Plain(events: seq<Event>) {
    forall k :: 0 <= k < |events| ==> !events[k].ResponseStarted? && !events[k].MessageStarted?
  }

  lemma {:induction false} StartsAppend(a: seq<Event>, b: seq<Event>)
    ensures WithoutStarts(a + b) == WithoutStarts(a) + WithoutStarts(b)
    decreases |b|
  {
    if b == [] {
      assert a + b == a;
    } else {
      assert (a + b)[..|a + b| - 1] == a + b[..|b| - 1];
      StartsAppend(a, b[..|b| - 1]);
    }
  }

  lemma {:induction false} NoStarts(events: seq<Event>)
    requires Plain(events)
    ensures WithoutStarts(events) == events
  {
    if events != [] {
      NoStarts(events[..|events| - 1]);
      assert events[..|events| - 1] + [events[|events| - 1]] == events;
    }
  }

  lemma Appends(events: seq<Event>, more: seq<Event>)
    requires Plain(more)
    ensures WithoutStarts(events + more) == WithoutStarts(events) + more
  {
    StartsAppend(events, more);
    NoStarts(more);
  }

  lemma OpenEmitsStarts(tr: Track)
    ensures WithoutStarts(OpenResponse(tr).events) == WithoutStarts(tr.events)
    ensures WithoutStarts(Open(tr).events) == WithoutStarts(tr.events)
  {
    assert (tr.events + [ResponseStarted])[..|tr.events|] == tr.events;
    var one := OpenResponse(tr);
    assert (one.events + [MessageStarted])[..|one.events|] == one.events;
  }

  lemma ArgsEmit(tr: Track, d: ToolDelta, input: seq<ToolDelta>, id: string)
    requires d.index in tr.active <==> id != ""
    requires id != "" ==> tr.active[d.index] == id
    ensures AddArgs(tr, d).events == tr.events + if id == "" then [] else [ToolArgs(id, d.args, d.index)]
  {
    assert tr.events + [] == tr.events;
  }

  lemma ToolEmits(tr: Track, d: ToolDelta, input: seq<ToolDelta>, base: nat)
    requires base <= |tr.events| && Conserving(input, tr.events[base..], tr.active, tr.pending)
    ensures OnTool(tr, d).events == tr.events + DeltaEvents(input, d)
  {
    assert Conserves(input, tr.events[base..], tr.active, tr.pending, d.index);
    IdOfSnoc(input, d, d.index);
    var id := IdOf(input + [d], d.index);
    var tr1 := if d.id != "" then Start(tr, d) else tr;
    var started := if d.id == "" then [] else
                     [ToolStarted(d.id, d.name, d.index)] + ArgsEvents(d.id, d.index, PendingOf(tr.pending, d.index));
    assert tr1.events == tr.events + started;
    if d.args != "" { ArgsEmit(tr1, d, input, id); }
    var last := if d.args == "" || id == "" then [] else [ToolArgs(id, d.args, d.index)];
    assert OnTool(tr, d).events == tr1.events + last;
    assert DeltaEvents(input, d) == started + last;
    Assoc(tr.events, started, last);
  }

  lemma PlainAppend(a: seq<Event>, b: seq<Event>)
    requires Plain(a) && Plain(b)
    ensures Plain(a + b)
  {
  }

  lemma DeltaIsPlain(input: seq<ToolDelta>, d: ToolDelta)
    ensures Plain(DeltaEvents(input, d))
  {
    var id := IdOf(input + [d], d.index);
    var held := if IdOf(input, d.index) == "" then Fragments(input, d.index) else [];
    PlainAppend([ToolStarted(d.id, d.name, d.index)], ArgsEvents(d.id, d.index, held));
    var started := if d.id == "" then [] else
                     [ToolStarted(d.id, d.name, d.index)] + ArgsEvents(d.id, d.index, held);
    PlainAppend(started, if d.args == "" || id == "" then [] else [ToolArgs(id, d.args, d.index)]);
  }

  lemma OpenBooks(tr: Track, input: seq<ToolDelta>, base: nat)
    requires Good(tr, input, base)
    ensures base <= |Open(tr).events|
    ensures Conserving(input, Open(tr).events[base..], Open(tr).active, Open(tr).pending)
  {
    OpenKeeps(tr, input, base);
  }

  lemma ToolOpEmits(tr: Track, d: ToolDelta, input: seq<ToolDelta>, base: nat)
    requires base <= |Open(tr).events|
    requires Conserving(input, Open(tr).events[base..], Open(tr).active, Open(tr).pending)
    ensures WithoutStarts(ApplyOp(tr, Tool(d)).events) == WithoutStarts(tr.events) + DeltaEvents(input, d)
  {
    OpenEmitsStarts(tr);
    ToolEmits(Open(tr), d, input, base);
    DeltaIsPlain(input, d);
    Appends(Open(tr).events, DeltaEvents(input, d));
  }

  lemma EndOpEmits(tr: Track, input: seq<ToolDelta>, base: nat)
    requires base <= |tr.events| && Conserving(input, tr.events[base..], tr.active, tr.pending)
    requires tr.order == FirstSeen(input)
    ensures WithoutStarts(ApplyOp(tr, ToolCallsEnd).events) ==
            WithoutStarts(tr.events) + Finishes(input, FirstSeen(input))
  {
    OpenEmitsStarts(tr);
    OrderLists(input, tr.events[base..], tr.active, tr.pending);
    FinishEventsAre(input, tr.active, tr.order);
    Appends(Open(tr).events, Finishes(input, tr.order));
  }

  lemma OpEmits(tr: Track, op: Op, input: seq<ToolDelta>, base: nat)
    requires Good(tr, input, base)
    ensures WithoutStarts(ApplyOp(tr, op).events) == WithoutStarts(tr.events) + OpEvents(input, op)
  {
    OpenEmitsStarts(tr);
    match op
    case Reason(text) => Appends(Open(tr).events, [ReasoningDelta(text)]);
    case Tool(d) => OpenBooks(tr, input, base); ToolOpEmits(tr, d, input, base);
    case Content(text) => Appends(Open(tr).events, [TextDelta(text)]);
    case ToolCallsEnd => EndOpEmits(tr, input, base);
    case End => assert WithoutStarts(tr.events) + [] == WithoutStarts(tr.events);
    case Report(usage) => Appends(OpenResponse(tr).events, [UsageDelta(usage)]);
  }

  // ----- What operations in sequence emit -----

  function OpsInput(input: seq<ToolDelta>, ops: seq<Op>): seq<ToolDelta> {
    if ops == [] then input else OpInput(OpsInput(input, ops[..|ops| - 1]), ops[|ops| - 1])
  }

  function OpsEvents(input: seq<ToolDelta>, ops: seq<Op>): seq<Event> {
    if ops == [] then [] else
      var front := ops[..|ops| - 1];
      OpsEvents(input, front) + OpEvents(OpsInput(input, front), ops[|ops| - 1])
  }

  lemma RecordsInput(b: Book, op: Op)
    requires b.base <= |b.tr.events|
    ensures Record(b, op).input == OpInput(b.input, op)
    ensures Record(b, op).tr == ApplyOp(b.tr, op)
  {
    if op.ToolCallsEnd? { TerminalRecord(b); }
  }

  lemma {:induction false} RunEmits(ops: seq<Op>)
    ensures Run(ops).input == OpsInput([], ops)
    ensures WithoutStarts(Run(ops).tr.events) == OpsEvents([], ops)
  {
    if ops != [] {
      var front, op := ops[..|ops| - 1], ops[|ops| - 1];
      RunEmits(front);
      ToolArgumentsConserved(front);
      RecordsInput(Run(front), op);
      OpEmits(Run(front).tr, op, Run(front).input, Run(front).base);
    }
  }

  lemma {:induction false} OpsAppend(input: seq<ToolDelta>, a: seq<Op>, b: seq<Op>)
    ensures OpsInput(input, a + b) == OpsInput(OpsInput(input, a), b)
    ensures OpsEvents(input, a + b) == OpsEvents(input, a) + OpsEvents(OpsInput(input, a), b)
    decreases |b|
  {
    if b == [] {
      assert a + b == a;
    } else {
      var front, op := b[..|b| - 1], b[|b| - 1];
      assert (a + b)[..|a + b| - 1] == a + front;
      OpsAppend(input, a, front);
      var mid := OpsInput(input, a);
      Assoc(OpsEvents(input, a), OpsEvents(mid, front), OpEvents(OpsInput(mid, front), op));
    }
  }

  lemma OneOp(input: seq<ToolDelta>, op: Op)
    ensures OpsInput(input, [op]) == OpInput(input, op) && OpsEvents(input, [op]) == OpEvents(input, op)
  {
    assert [op][..0] == [];
  }

  lemma {:induction false} ToolOpsEmit(input: seq<ToolDelta>, ds: seq<ToolDelta>)
    ensures OpsInput(input, ToolOps(ds)) == input + ds
    ensures OpsEvents(input, ToolOps(ds)) == DeltasEvents(input, ds)
    decreases |ds|
  {
    if ds == [] {
      assert input + ds == input;
    } else {
      var front, d := ds[..|ds| - 1], ds[|ds| - 1];
      assert ToolOps(ds)[..|ds| - 1] == ToolOps(front);
      ToolOpsEmit(input, front);
      assert input + ds == (input + front) + [d];
    }
  }

  lemma TextOpsEmit(input: seq<ToolDelta>, ch: Choice)
    ensures OpsInput(input, ReasonOps(ch)) == input && OpsInput(input, ContentOps(ch)) == input
    ensures OpsEvents(input, ReasonOps(ch)) == if ch.reasoning == "" then [] else [ReasoningDelta(ch.reasoning)]
    ensures OpsEvents(input, ContentOps(ch)) == if ch.content == "" then [] else [TextDelta(ch.content)]
  {
    if ch.reasoning != "" { OneOp(input, Reason(ch.reasoning)); }
    if ch.content != "" { OneOp(input, Content(ch.content)); }
  }

  lemma EndOpsEmit(input: seq<ToolDelta>, reason: string)
    ensures OpsInput(input, EndOps(reason)) == if reason == "tool_calls" then [] else input
    ensures OpsEvents(input, EndOps(reason)) == EndEvents(input, reason)
  {
    if reason == "tool_calls" { OneOp(input, ToolCallsEnd); }
    else if reason != "" { OneOp(input, End); }
  }

  lemma ChoiceEmits(input: seq<ToolDelta>, ch: Choice)
    ensures OpsInput(input, ChoiceOps(ch)) == OpenAfter(input, ch)
    ensures OpsEvents(input, ChoiceOps(ch)) == ChoiceEvents(input, ch)
  {
    var one := ReasonOps(ch) + ToolOps(ch.toolCalls);
    OpsAppend(input, one + ContentOps(ch), EndOps(ch.finishReason));
    OpsAppend(input, one, ContentOps(ch));
    OpsAppend(input, ReasonOps(ch), ToolOps(ch.toolCalls));
    TextOpsEmit(input, ch);
    ToolOpsEmit(input, ch.toolCalls);
    TextOpsEmit(input + ch.toolCalls, ch);
    EndOpsEmit(input + ch.toolCalls, ch.finishReason);
  }

  lemma {:induction false} ChoicesEmit(input: seq<ToolDelta>, chs: seq<Choice>)
    ensures OpsInput(input, ChoicesOps(chs)) == OpenAfterAll(input, chs)
    ensures OpsEvents(input, ChoicesOps(chs)) == ChoicesEvents(input, chs)
    decreases |chs|
  {
    if chs != [] {
      var front, ch := chs[..|chs| - 1], chs[|chs| - 1];
      ChoicesEmit(input, front);
      OpsAppend(input, ChoicesOps(front), ChoiceOps(ch));
      ChoiceEmits(OpenAfterAll(input, front), ch);
    }
  }

  lemma ChunkEmits(input: seq<ToolDelta>, chunk: Chunk)
    ensures OpsInput(input, ChunkOps(chunk)) == OpenAfterAll(input, chunk.choices)
    ensures OpsEvents(input, ChunkOps(chunk)) == ChoicesEvents(input, chunk.choices) + UsageEvents(chunk.usage)
  {
    ChoicesEmit(input, chunk.choices);
    var input' := OpenAfterAll(input, chunk.choices);
    OpsAppend(input, ChoicesOps(chunk.choices), UsageOps(chunk.usage));
    if chunk.usage.Some? { OneOp(input', Report(chunk.usage.value)); }
  }

  lemma {:induction false} OpenAppend(input: seq<ToolDelta>, a: seq<Choice>, b: seq<Choice>)
    ensures OpenAfterAll(input, a + b) == OpenAfterAll(OpenAfterAll(input, a), b)
    decreases |b|
  {
    if b == [] {
      assert a + b == a;
    } else {
      assert (a + b)[..|a + b| - 1] == a + b[..|b| - 1];
      OpenAppend(input, a, b[..|b| - 1]);
    }
  }

  lemma {:induction false} StreamOpsEmit(chunks: seq<Chunk>)
    ensures OpsInput([], StreamOps(chunks)) == OpenAfterAll([], AllChoices(chunks))
    ensures OpsEvents([], StreamOps(chunks)) == StreamEvents(chunks)
  {
    if chunks != [] {
      var front, last := chunks[..|chunks| - 1], chunks[|chunks| - 1];
      StreamOpsEmit(front);
      OpsAppend([], StreamOps(front), ChunkOps(last));
      ChunkEmits(OpenAfterAll([], AllChoices(front)), last);
      OpenAppend([], AllChoices(front), last.choices);
    }
  }

  /** Apart from the two starts, the tracker yields exactly the events the chunks call for. */
  lemma StreamEmits(chunks: seq<Chunk>)
    ensures WithoutStarts(Run(StreamOps(chunks)).tr.events) == StreamEvents(chunks)
  {
    RunEmits(StreamOps(chunks));
    StreamOpsEmit(chunks);
  }

  // ----- The texts, reasonings and usages of a stream -----

  function Texts(events: seq<Event>): seq<string> {
    if events == [] then [] else
      var e, front := events[|events| - 1], Texts(events[..|events| - 1]);
      if e.TextDelta? then front + [e.text] else front
  }

  function Thoughts(events: seq<Event>): seq<string> {
    if events == [] then [] else
      var e, front := events[|events| - 1], Thoughts(events[..|events| - 1]);
      if e.ReasoningDelta? then front + [e.text] else front
  }

  function Usages(events: seq<Event>): seq<Usage> {
    if events == [] then [] else
      var e, front := events[|events| - 1], Usages(events[..|events| - 1]);
      if e.UsageDelta? then front + [e.usage] else front
  }

  /** The non-empty contents, in order. */
  function Contents(chs: seq<Choice>): seq<string> {
    if chs == [] then [] else
      var ch, front := chs[|chs| - 1], Contents(chs[..|chs| - 1]);
      if ch.content != "" then front + [ch.content] else front
  }

  /** The non-empty reasonings, in order. */
  function Reasonings(chs: seq<Choice>): seq<string> {
    if chs == [] then [] else
      var ch, front := chs[|chs| - 1], Reasonings(chs[..|chs| - 1]);
      if ch.reasoning != "" then front + [ch.reasoning] else front
  }

  /** The usages reported, in order. */
  function Reports(chunks: seq<Chunk>): seq<Usage> {
    if chunks == [] then [] else
      var chunk, front := chunks[|chunks| - 1], Reports(chunks[..|chunks| - 1]);
      if chunk.usage.Some? then front + [chunk.usage.value] else front
  }

  /** The events carry these texts, reasonings and usages. */
  predicate Carries(events: seq<Event>, texts: seq<string>, thoughts: seq<string>, usages: seq<Usage>) {
    Texts(events) == texts && Thoughts(events) == thoughts && Usages(events) == usages
  }

  lemma {:induction false} CarriedAppend(a: seq<Event>, b: seq<Event>)
    ensures Carries(a + b, Texts(a) + Texts(b), Thoughts(a) + Thoughts(b), Usages(a) + Usages(b))
    decreases |b|
  {
    if b == [] {
      assert a + b == a;
    } else {
      assert (a + b)[..|a + b| - 1] == a + b[..|b| - 1];
      CarriedAppend(a, b[..|b| - 1]);
    }
  }

  predicate OfTools(events: seq<Event>) {
    forall k :: 0 <= k < |events| ==> events[k].ToolStarted? || events[k].ToolArgs? || events[k].ToolFinished?
  }

  lemma {:induction false} ToolsCarryNothing(events: seq<Event>)
    requires OfTools(events)
    ensures Carries(events, [], [], [])
  {
    if events != [] { ToolsCarryNothing(events[..|events| - 1]); }
  }

  lemma {:induction false} StartsCarryNothing(events: seq<Event>)
    ensures Carries(WithoutStarts(events), Texts(events), Thoughts(events), Usages(events))
  {
    if events != [] {
      var front, e := events[..|events| - 1], events[|events| - 1];
      StartsCarryNothing(front);
      assert (WithoutStarts(front) + [e])[..|WithoutStarts(front)|] == WithoutStarts(front);
    }
  }

  lemma {:induction false} DeltasAreOfTools(input: seq<ToolDelta>, ds: seq<ToolDelta>)
    ensures OfTools(DeltasEvents(input, ds))
    decreases |ds|
  {
    if ds != [] { DeltasAreOfTools(input, ds[..|ds| - 1]); }
  }

  lemma OneCarries(e: Event)
    ensures Carries([e], if e.TextDelta? then [e.text] else [], if e.ReasoningDelta? then [e.text] else [],
                    if e.UsageDelta? then [e.usage] else [])
  {
    assert [e][..0] == [];
  }

  lemma ChoiceCarries(input: seq<ToolDelta>, ch: Choice)
    ensures Carries(ChoiceEvents(input, ch), if ch.content == "" then [] else [ch.content],
                    if ch.reasoning == "" then [] else [ch.reasoning], [])
  {
    var reasoning := if ch.reasoning == "" then [] else [ReasoningDelta(ch.reasoning)];
    var content := if ch.content == "" then [] else [TextDelta(ch.content)];
    var tools, end := DeltasEvents(input, ch.toolCalls), EndEvents(input + ch.toolCalls, ch.finishReason);
    DeltasAreOfTools(input, ch.toolCalls);
    ToolsCarryNothing(tools);
    ToolsCarryNothing(end);
    OneCarries(ReasoningDelta(ch.reasoning));
    OneCarries(TextDelta(ch.content));
    CarriedAppend(reasoning + tools + content, end);
    CarriedAppend(reasoning + tools, content);
    CarriedAppend(reasoning, tools);
  }

  lemma {:induction false} ChoicesCarry(input: seq<ToolDelta>, chs: seq<Choice>)
    ensures Carries(ChoicesEvents(input, chs), Contents(chs), Reasonings(chs), [])
    decreases |chs|
  {
    if chs != [] {
      var front, ch := chs[..|chs| - 1], chs[|chs| - 1];
      ChoicesCarry(input, front);
      ChoiceCarries(OpenAfterAll(input, front), ch);
      CarriedAppend(ChoicesEvents(input, front), ChoiceEvents(OpenAfterAll(input, front), ch));
    }
  }

  lemma {:induction false} ContentsAppend(a: seq<Choice>, b: seq<Choice>)
    ensures Contents(a + b) == Contents(a) + Contents(b) && Reasonings(a + b) == Reasonings(a) + Reasonings(b)
    decreases |b|
  {
    if b == [] {
      assert a + b == a;
    } else {
      assert (a + b)[..|a + b| - 1] == a + b[..|b| - 1];
      ContentsAppend(a, b[..|b| - 1]);
    }
  }

  lemma ChunkCarries(input: seq<ToolDelta>, chunk: Chunk)
    ensures Carries(ChoicesEvents(input, chunk.choices) + UsageEvents(chunk.usage), Contents(chunk.choices),
                    Reasonings(chunk.choices), if chunk.usage.None? then [] else [chunk.usage.value])
  {
    ChoicesCarry(input, chunk.choices);
    if chunk.usage.Some? { OneCarries(UsageDelta(chunk.usage.value)); }
    CarriedAppend(ChoicesEvents(input, chunk.choices), UsageEvents(chunk.usage));
  }

  /** What a stream calls for carries every non-empty content and reasoning of its choices, and every
      usage of its chunks, once and in order. */
  lemma {:induction false} TextsAreContents(chunks: seq<Chunk>)
    ensures Carries(StreamEvents(chunks), Contents(AllChoices(chunks)), Reasonings(AllChoices(chunks)),
                    Reports(chunks))
  {
    if chunks != [] {
      var front, last := chunks[..|chunks| - 1], chunks[|chunks| - 1];
      var input := OpenAfterAll([], AllChoices(front));
      TextsAreContents(front);
      ChunkCarries(input, last);
      CarriedAppend(StreamEvents(front), ChoicesEvents(input, last.choices) + UsageEvents(last.usage));
      ContentsAppend(AllChoices(front), last.choices);
    }
  }

  // ----- When the starts appear -----

  predicate Talks(ops: seq<Op>) {
    exists k :: 0 <= k < |ops| && !ops[k].Report?
  }

  predicate AnySpeaks(chs: seq<Choice>) {
    exists k :: 0 <= k < |chs| && Speaks(chs[k])
  }

  lemma TalksAppend(a: seq<Op>, b: seq<Op>)
    ensures Talks(a + b) <==> Talks(a) || Talks(b)
  {
    assert forall k :: 0 <= k < |a| ==> (a + b)[k] == a[k];
    assert forall k :: 0 <= k < |b| ==> (a + b)[|a| + k] == b[k];
  }

  lemma SpeaksAppend(a: seq<Choice>, b: seq<Choice>)
    ensures AnySpeaks(a + b) <==> AnySpeaks(a) || AnySpeaks(b)
  {
    assert forall k :: 0 <= k < |a| ==> (a + b)[k] == a[k];
    assert forall k :: 0 <= k < |b| ==> (a + b)[|a| + k] == b[k];
  }

  lemma OpStarts(tr: Track, op: Op)
    ensures ApplyOp(tr, op).started
    ensures ApplyOp(tr, op).msgStart <==> tr.msgStart || !op.Report?
  {
  }

  lemma {:induction false} RunStarts(ops: seq<Op>)
    ensures Run(ops).tr.started <==> ops != []
    ensures Run(ops).tr.msgStart <==> Talks(ops)
  {
    if ops != [] {
      var front, op := ops[..|ops| - 1], ops[|ops| - 1];
      RunStarts(front);
      ToolArgumentsConserved(front);
      RecordsInput(Run(front), op);
      OpStarts(Run(front).tr, op);
      assert front + [op] == ops && [op][0] == op;
      TalksAppend(front, [op]);
    }
  }

  lemma ChoiceTalks(ch: Choice)
    ensures Talks(ChoiceOps(ch)) <==> Speaks(ch)
    ensures ChoiceOps(ch) != [] <==> Speaks(ch)
  {
    var one, three := ReasonOps(ch) + ToolOps(ch.toolCalls), ReasonOps(ch) + ToolOps(ch.toolCalls) + ContentOps(ch);
    assert three + EndOps(ch.finishReason) == ChoiceOps(ch);
    assert forall k :: 0 <= k < |ChoiceOps(ch)| ==> !ChoiceOps(ch)[k].Report?;
    if Speaks(ch) { assert |ChoiceOps(ch)| > 0 && !ChoiceOps(ch)[0].Report?; }
  }

  lemma {:induction false} ChoicesTalk(chs: seq<Choice>)
    ensures Talks(ChoicesOps(chs)) <==> AnySpeaks(chs)
    ensures ChoicesOps(chs) != [] <==> AnySpeaks(chs)
  {
    if chs != [] {
      var front, ch := chs[..|chs| - 1], chs[|chs| - 1];
      ChoicesTalk(front);
      ChoiceTalks(ch);
      TalksAppend(ChoicesOps(front), ChoiceOps(ch));
      assert front + [ch] == chs && [ch][0] == ch;
      SpeaksAppend(front, [ch]);
    }
  }

  lemma {:induction false} StreamTalks(chunks: seq<Chunk>)
    ensures Talks(StreamOps(chunks)) <==> AnySpeaks(AllChoices(chunks))
    ensures StreamOps(chunks) != [] <==> AnySpeaks(AllChoices(chunks)) || Reports(chunks) != []
  {
    if chunks != [] {
      var front, last := chunks[..|chunks| - 1], chunks[|chunks| - 1];
      StreamTalks(front);
      ChoicesTalk(last.choices);
      TalksAppend(ChoicesOps(last.choices), UsageOps(last.usage));
      TalksAppend(StreamOps(front), ChunkOps(last));
      SpeaksAppend(AllChoices(front), last.choices);
      assert !Talks(UsageOps(last.usage));
    }
  }

  /** The message starts exactly if some choice of the stream speaks, and the response exactly if the
      message does or a usage is reported. */
  lemma StreamStarts(chunks: seq<Chunk>)
    ensures var events := Run(StreamOps(chunks)).tr.events;
            && (MessageStarted in events <==> AnySpeaks(AllChoices(chunks)))
            && (ResponseStarted in events <==> AnySpeaks(AllChoices(chunks)) || Reports(chunks) != [])
  {
    ToolArgumentsConserved(StreamOps(chunks));
    RunStarts(StreamOps(chunks));
    StreamTalks(chunks);
  }
}
