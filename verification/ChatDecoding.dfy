/** The decoder of streamed chat chunks as the program runs it, loop by loop
    (connector-support/openaicompat/stream.go). */
module ChatDecoding {
  import opened Basics
  import opened Options
  import opened ChatSpec
  import opened ChatTracker
  import opened ChatEvents

  // ----- The decoder object -----

  function ApplyOps(tr: Track, ops: seq<Op>): Track {
    if ops == [] then tr else ApplyOp(ApplyOps(tr, ops[..|ops| - 1]), ops[|ops| - 1])
  }

  lemma {:induction false} ApplyOpsAppend(tr: Track, a: seq<Op>, b: seq<Op>)
    ensures ApplyOps(tr, a + b) == ApplyOps(ApplyOps(tr, a), b)
    decreases |b|
  {
    if b == [] {
      assert a + b == a;
    } else {
      assert (a + b)[..|a + b| - 1] == a + b[..|b| - 1];
      ApplyOpsAppend(tr, a, b[..|b| - 1]);
    }
  }

  lemma ApplyOpsOne(tr: Track, op: Op)
    ensures ApplyOps(tr, [op]) == ApplyOp(tr, op)
  {
    assert [op][..0] == [];
  }

  /** The book of a stream records what the decoder does. */
  lemma {:induction false} RunIsApplied(ops: seq<Op>)
    ensures Run(ops).tr == ApplyOps(NewTrack, ops)
  {
    if ops != [] { RunIsApplied(ops[..|ops| - 1]); }
  }

  class ChatDecoder {
    var started: bool
    var msgStart: bool
    var activeTools: Active
    var pendingToolArgs: Held
    var activeToolOrder: seq<int>
    var events: seq<Event>     // everything emitted so far

    constructor ()
      ensures Value() == NewTrack
    {
      started, msgStart := false, false;
      activeTools, pendingToolArgs, activeToolOrder, events := map[], map[], [], [];
    }

    function Value(): Track
      reads this
    {
      Track(started, msgStart, activeTools, pendingToolArgs, activeToolOrder, events)
    }

    method EnsureResponse()
      modifies this`started, this`events
      ensures Value() == OpenResponse(old(Value()))
    {
      if !started {
        started := true;
        events := events + [ResponseStarted];
      }
    }

    method Ensure()
      modifies this`started, this`msgStart, this`events
      ensures Value() == Open(old(Value()))
    {
      EnsureResponse();
      if !msgStart {
        msgStart := true;
        events := events + [MessageStarted];
      }
    }

    method EmitHeld(id: string, index: int, frags: seq<string>)
      modifies this`events
      ensures events == old(events) + ArgsEvents(id, index, frags)
    {
      for k := 0 to |frags|
        invariant events == old(events) + ArgsEvents(id, index, frags[..k])
      {
        ArgsEventsSnoc(id, index, frags, k);
        events := events + [ToolArgs(id, frags[k], index)];
      }
      assert frags[..|frags|] == frags;
    }

    method StartTool(d: ToolDelta)
      modifies this`activeTools, this`pendingToolArgs, this`activeToolOrder, this`events
      ensures Value() == Start(old(Value()), d)
    {
      if d.index !in activeTools {
        activeToolOrder := activeToolOrder + [d.index];
      }
      activeTools := activeTools[d.index := d.id];
      events := events + [ToolStarted(d.id, d.name, d.index)];
      EmitHeld(d.id, d.index, if d.index in pendingToolArgs then pendingToolArgs[d.index] else []);
      ghost var held := old(PendingOf(pendingToolArgs, d.index));
      Assoc(old(events), [ToolStarted(d.id, d.name, d.index)], ArgsEvents(d.id, d.index, held));
      pendingToolArgs := pendingToolArgs - {d.index};
    }

    method OnToolCall(d: ToolDelta)
      modifies this
      ensures Value() == ApplyOp(old(Value()), Tool(d))
    {
      Ensure();
      if d.id != "" {
        StartTool(d);
      }
      if d.args != "" {
        if d.index !in activeTools {
          pendingToolArgs := pendingToolArgs[d.index := PendingOf(pendingToolArgs, d.index) + [d.args]];
          return;
        }
        events := events + [ToolArgs(activeTools[d.index], d.args, d.index)];
      }
    }

    method FinishRunning()
      modifies this
      ensures Value() == ApplyOp(old(Value()), ToolCallsEnd)
    {
      Ensure();
      ghost var before := events;
      for k := 0 to |activeToolOrder|
        invariant activeTools == old(activeTools) && activeToolOrder == old(activeToolOrder)
        invariant started == Open(old(Value())).started && msgStart == Open(old(Value())).msgStart
        invariant events == before + FinishEvents(activeTools, activeToolOrder[..k])
      {
        var idx := activeToolOrder[k];
        assert activeToolOrder[..k + 1][..k] == activeToolOrder[..k];
        if idx in activeTools && activeTools[idx] != "" {
          events := events + [ToolFinished(activeTools[idx], idx)];
        }
      }
      assert activeToolOrder[..|activeToolOrder|] == activeToolOrder;
      activeTools, pendingToolArgs, activeToolOrder := map[], map[], [];
    }

    method OnToolCalls(ds: seq<ToolDelta>)
      modifies this
      ensures Value() == ApplyOps(old(Value()), ToolOps(ds))
    {
      for k := 0 to |ds|
        invariant Value() == ApplyOps(old(Value()), ToolOps(ds[..k]))
      {
        assert ToolOps(ds[..k + 1])[..k] == ToolOps(ds[..k]);
        OnToolCall(ds[k]);
      }
      assert ds[..|ds|] == ds;
    }

    method OnText(ops: seq<Op>)
      requires |ops| <= 1 && forall k :: 0 <= k < |ops| ==> ops[k].Reason? || ops[k].Content?
      modifies this
      ensures Value() == ApplyOps(old(Value()), ops)
    {
      if |ops| == 1 {
        assert ops == [ops[0]];
        ApplyOpsOne(Value(), ops[0]);
        Ensure();
        events := events + [if ops[0].Reason? then ReasoningDelta(ops[0].text) else TextDelta(ops[0].text)];
      }
    }

    method OnFinishReason(reason: string)
      modifies this
      ensures Value() == ApplyOps(old(Value()), EndOps(reason))
    {
      ApplyOpsOne(Value(), ToolCallsEnd);
      ApplyOpsOne(Value(), End);
      if reason != "" {
        if reason == "tool_calls" { FinishRunning(); } else { Ensure(); }
      }
    }

    method OnChoice(ch: Choice)
      modifies this
      ensures Value() == ApplyOps(old(Value()), ChoiceOps(ch))
    {
      OnText(ReasonOps(ch));
      OnToolCalls(ch.toolCalls);
      OnText(ContentOps(ch));
      OnFinishReason(ch.finishReason);
      ChoiceSplits(old(Value()), ReasonOps(ch), ToolOps(ch.toolCalls), ContentOps(ch), EndOps(ch.finishReason));
    }

    method OnChoices(chs: seq<Choice>)
      modifies this
      ensures Value() == ApplyOps(old(Value()), ChoicesOps(chs))
    {
      ghost var tr := Value();
      for k := 0 to |chs|
        invariant Value() == ApplyOps(tr, ChoicesOps(chs[..k]))
      {
        assert chs[..k + 1][..k] == chs[..k];
        ApplyOpsAppend(tr, ChoicesOps(chs[..k]), ChoiceOps(chs[k]));
        OnChoice(chs[k]);
      }
      assert chs[..|chs|] == chs;
    }

    method OnUsage(usage: Option<Usage>)
      modifies this`started, this`events
      ensures Value() == ApplyOps(old(Value()), UsageOps(usage))
    {
      if usage.Some? {
        ApplyOpsOne(Value(), Report(usage.value));
        EnsureResponse();
        events := events + [UsageDelta(usage.value)];
      }
    }

    /** decodeChatSSE on a parsed chunk: the events it returns are those it adds. */
    method Decode(chunk: Chunk) returns (out: seq<Event>)
      modifies this
      ensures Value() == ApplyOps(old(Value()), ChunkOps(chunk))
      ensures events == old(events) + out
    {
      ghost var tr := Value();
      var before := |events|;
      OnChoices(chunk.choices);
      OnUsage(chunk.usage);
      ApplyOpsAppend(tr, ChoicesOps(chunk.choices), UsageOps(chunk.usage));
      OpsGrow(tr, ChunkOps(chunk));
      out := events[before..];
    }
  }

  lemma ChoiceSplits(tr: Track, a: seq<Op>, b: seq<Op>, c: seq<Op>, d: seq<Op>)
    ensures ApplyOps(tr, a + b + c + d) == ApplyOps(ApplyOps(ApplyOps(ApplyOps(tr, a), b), c), d)
  {
    ApplyOpsAppend(tr, a + b + c, d);
    ApplyOpsAppend(tr, a + b, c);
    ApplyOpsAppend(tr, a, b);
  }

  lemma {:induction false} OpsGrow(tr: Track, ops: seq<Op>)
    ensures tr.events <= ApplyOps(tr, ops).events
  {
    if ops != [] {
      var front := ops[..|ops| - 1];
      OpsGrow(tr, front);
      OpGrows(ApplyOps(tr, front), ops[|ops| - 1]);
    }
  }

  /** A whole stream through the decoder. Apart from the two starts, its events are exactly those the
      chunks call for, in order: in particular every content, reasoning and usage once, as what it
      is. The two starts come first and only if a choice or a usage report calls for them; the events
      of every tool call are complete, ordered and framed, segment by segment. */
  method DecodeStream(chunks: seq<Chunk>) returns (events: seq<Event>, ghost book: Book)
    ensures book == Run(StreamOps(chunks)) && Kept(book) && book.tr.events == events
    ensures AllInput(book.closed) + book.input == Deltas(StreamOps(chunks))
    ensures Opened(events) && Framed(events)
    ensures WithoutStarts(events) == StreamEvents(chunks)
    ensures Texts(events) == Contents(AllChoices(chunks)) && Thoughts(events) == Reasonings(AllChoices(chunks))
    ensures Usages(events) == Reports(chunks)
    ensures MessageStarted in events <==> AnySpeaks(AllChoices(chunks))
    ensures ResponseStarted in events <==> MessageStarted in events || Reports(chunks) != []
  {
    var decoder := new ChatDecoder();
    for k := 0 to |chunks|
      invariant fresh(decoder) && decoder.Value() == ApplyOps(NewTrack, StreamOps(chunks[..k]))
    {
      assert chunks[..k + 1][..k] == chunks[..k];
      ApplyOpsAppend(NewTrack, StreamOps(chunks[..k]), ChunkOps(chunks[k]));
      var _ := decoder.Decode(chunks[k]);
    }
    assert chunks[..|chunks|] == chunks;
    RunIsApplied(StreamOps(chunks));
    ToolArgumentsConserved(StreamOps(chunks));
    StreamEmits(chunks);
    TextsAreContents(chunks);
    StartsCarryNothing(decoder.events);
    StreamStarts(chunks);
    events, book := decoder.events, Run(StreamOps(chunks));
  }

  // ----- The terminal -----

  /** chatTerminal: a length stop wins over a content filter, whatever their order. */
  class ChatTerminal {
    var outputLimit: bool
    var refusal: bool
    ghost var reasons: seq<string>

    ghost predicate Valid()
      reads this
    {
      && (outputLimit <==> "length" in reasons)
      && (refusal <==> "content_filter" in reasons && "length" !in reasons)
    }

    constructor ()
      ensures Valid() && reasons == []
    {
      outputLimit, refusal, reasons := false, false, [];
    }

    method Observe(reason: string)
      requires Valid()
      modifies this
      ensures Valid() && reasons == old(reasons) + [reason]
    {
      if reason == "length" {
        outputLimit, refusal := true, false;
      } else if reason == "content_filter" {
        if !outputLimit { refusal := true; }
      }
      reasons := reasons + [reason];
    }

    /** The status and finish reason of the terminal event. */
    method TerminalEvent() returns (status: string, reason: string)
      requires Valid()
      ensures (status == "incomplete" <==> "length" in reasons) && (reason == "length" <==> "length" in reasons)
      ensures reason == "content_filter" <==> "content_filter" in reasons && "length" !in reasons
      ensures reason == "" <==> "length" !in reasons && "content_filter" !in reasons
    {
      if outputLimit { return "incomplete", "length"; }
      if refusal { return "", "content_filter"; }
      return "", "";
    }
  }
}
