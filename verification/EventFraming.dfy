/** Framing of streamed events (connector-support/acp/ndjson_stream.go) over the pending queue
    (pkg/streampump/pending.go). The line mapper, JSON decoding and the transport are inputs: each
    line stands for what they make of it. */
module EventFraming {
  import opened Options

  datatype Event =
    | ResponseStarted
    | MessageStarted
    | TextDelta(text: string)
    | ReasoningDelta(text: string)
    | ErrorEvent(text: string)
    | Warning(text: string)
    | ResponseFinished
    | OtherEvent(text: string)   // tool and usage events, which the framer does not order

  datatype Line =
    | Blank
    | Undecodable
    | ServerRequest(fails: bool)
    | MapFails
    | Mapped(events: seq<Event>)

  datatype Received = Got(event: Event) | EndOfFile | Fails(recoverable: bool)

  // ----- Specification -----

  /** Starts come once, before what needs them; a finish comes once and last. */
  predicate FramedAt(q: seq<Event>, k: nat)
    requires k < |q|
  {
    match q[k]
    case ResponseStarted => ResponseStarted !in q[..k]
    case MessageStarted => MessageStarted !in q[..k] && ResponseStarted in q[..k]
    case TextDelta(_) => ResponseStarted in q[..k] && MessageStarted in q[..k]
    case ReasoningDelta(_) => ResponseStarted in q[..k] && MessageStarted in q[..k]
    case ErrorEvent(_) => ResponseStarted in q[..k]
    case Warning(_) => ResponseStarted in q[..k]
    case ResponseFinished => ResponseStarted in q[..k] && k == |q| - 1
    case OtherEvent(_) => true
  }

  predicate Framed(q: seq<Event>) {
    forall k :: 0 <= k < |q| ==> FramedAt(q, k)
  }

  lemma FramedGrows(q: seq<Event>, e: Event)
    requires Framed(q) && ResponseFinished !in q && FramedAt(q + [e], |q|)
    ensures Framed(q + [e])
  {
    forall k | 0 <= k < |q| ensures FramedAt(q + [e], k) {
      assert FramedAt(q, k) && (q + [e])[..k] == q[..k] && q[k] in q;
    }
  }

  /** What was received so far is framed if everything queued is. */
  lemma FramedPrefix(q: seq<Event>, n: nat)
    requires Framed(q) && n <= |q|
    ensures Framed(q[..n])
  {
    forall k | 0 <= k < n ensures FramedAt(q[..n], k) {
      assert FramedAt(q, k) && q[..n][..k] == q[..k];
    }
  }

  /** The mapper emits no start, and a finish only last. */
  predicate MapperOk(events: seq<Event>) {
    forall k :: 0 <= k < |events| ==>
      !events[k].ResponseStarted? && !events[k].MessageStarted? && (events[k].ResponseFinished? ==> k == |events| - 1)
  }

  /** A line that makes a Recv call fail. */
  predicate Failing(line: Line) {
    line.Undecodable? || line.MapFails? || line == ServerRequest(true)
  }

  /** A line whose failure is never recoverable. */
  predicate Fatal(line: Line) {
    line.MapFails? || line == ServerRequest(true)
  }

  predicate AnyFatal(lines: seq<Line>) {
    exists k :: 0 <= k < |lines| && Fatal(lines[k])
  }

  predicate AnyFailing(lines: seq<Line>) {
    exists k :: 0 <= k < |lines| && Failing(lines[k])
  }

  lemma FailureSnoc(lines: seq<Line>, line: Line)
    ensures AnyFatal(lines + [line]) <==> AnyFatal(lines) || Fatal(line)
    ensures AnyFailing(lines + [line]) <==> AnyFailing(lines) || Failing(line)
  {
    var all := lines + [line];
    assert all[|lines|] == line;
    assert forall k :: 0 <= k < |lines| ==> all[k] == lines[k];
  }

  predicate LineOk(line: Line) {
    line.Mapped? ==> MapperOk(line.events)
  }

  function WithoutStarts(q: seq<Event>): seq<Event> {
    if q == [] then [] else
      var front, e := WithoutStarts(q[..|q| - 1]), q[|q| - 1];
      if e.ResponseStarted? || e.MessageStarted? then front else front + [e]
  }

  lemma WithoutStartsSnoc(q: seq<Event>, e: Event)
    ensures WithoutStarts(q + [e]) ==
            if e.ResponseStarted? || e.MessageStarted? then WithoutStarts(q) else WithoutStarts(q) + [e]
  {
    assert (q + [e])[..|q|] == q;
  }

  /** The events the mapper made of these lines. */
  function MappedEvents(lines: seq<Line>): seq<Event> {
    if lines == [] then [] else
      var front, line := MappedEvents(lines[..|lines| - 1]), lines[|lines| - 1];
      if line.Mapped? then front + line.events else front
  }

  lemma PrefixSnoc(before: seq<Event>, evs: seq<Event>, k: nat)
    requires k < |evs|
    ensures before + evs[..k + 1] == (before + evs[..k]) + [evs[k]]
  {
  }

  // ----- The pending queue -----

  class PendingEventQueue {
    const maxLen: nat
    var buf: seq<Event>
    var head: nat

    constructor (maxLen: nat)
      ensures this.maxLen == maxLen && Valid() && Contents() == []
    {
      this.maxLen, buf, head := maxLen, [], 0;
    }

    ghost predicate Valid()
      reads this
    {
      head <= |buf|
    }

    function Contents(): seq<Event>
      requires head <= |buf|
      reads this
    {
      buf[head..]
    }

    method Push(e: Event) returns (ok: bool)
      requires Valid()
      modifies this
      ensures Valid() && (ok <==> maxLen == 0 || |old(Contents())| < maxLen)
      ensures Contents() == if ok then old(Contents()) + [e] else old(Contents())
    {
      if maxLen > 0 && |buf| - head >= maxLen {
        return false;
      }
      CompactIfNeeded();
      buf := buf + [e];
      return true;
    }

    method PopFront() returns (e: Option<Event>)
      requires Valid()
      modifies this
      ensures Valid() && (e.None? <==> old(Contents()) == [])
      ensures Contents() == if e.None? then [] else old(Contents())[1..]
      ensures e.Some? ==> e.value == old(Contents())[0]
    {
      if |buf| <= head {
        buf, head := [], 0;
        return None;
      }
      e := Some(buf[head]);
      head := head + 1;
      CompactIfNeeded();
    }

    /** Dropping the consumed prefix never changes the contents. */
    method CompactIfNeeded()
      requires Valid()
      modifies this
      ensures Valid() && Contents() == old(Contents())
    {
      var alive := |buf| - head;
      if head == 0 {
        return;
      }
      if alive == 0 {
        buf, head := [], 0;
        return;
      }
      if head < 64 && head <= alive {
        return;
      }
      buf, head := buf[head..], 0;
    }
  }

  // ----- The stream -----

  /** The start flags and the end flag describe everything queued. */
  predicate Flags(q: seq<Event>, responseStarted: bool, messageStarted: bool, after: bool) {
    && Framed(q)
    && (responseStarted <==> ResponseStarted in q) && (messageStarted <==> MessageStarted in q)
    && (ResponseFinished in q ==> after)
  }

  /** An event that may be queued next. */
  predicate Ready(e: Event, responseStarted: bool, messageStarted: bool) {
    match e
    case ResponseStarted => !responseStarted
    case MessageStarted => responseStarted && !messageStarted
    case TextDelta(_) => responseStarted && messageStarted
    case ReasoningDelta(_) => responseStarted && messageStarted
    case ErrorEvent(_) => responseStarted
    case Warning(_) => responseStarted
    case ResponseFinished => responseStarted
    case OtherEvent(_) => true
  }

  lemma FlagsGrow(q: seq<Event>, rs: bool, ms: bool, e: Event)
    requires Flags(q, rs, ms, false) && Ready(e, rs, ms)
    ensures Flags(q + [e], rs || e.ResponseStarted?, ms || e.MessageStarted?, e.ResponseFinished?)
  {
    assert (q + [e])[..|q|] == q;
    assert FramedAt(q + [e], |q|);
    FramedGrows(q, e);
  }

  class NDJSONStream {
    const pending: PendingEventQueue
    const requireTerminalResponse: bool
    const scanFails: bool             // the scanner ends with an error
    var lines: seq<Line>              // what the scanner has still to yield
    var responseStarted: bool
    var messageStarted: bool
    var after: bool

    ghost const script: seq<Line>     // every line of the stream
    ghost var received: seq<Event>
    ghost var consumed: seq<Line>
    ghost var overflowed: bool        // a push was refused
    ghost var synthesized: bool       // the end of the stream was turned into a finish

    constructor (lines: seq<Line>, maxPending: nat, requireTerminalResponse: bool, scanFails: bool)
      requires forall k :: 0 <= k < |lines| ==> LineOk(lines[k])
      ensures Valid() && fresh(pending) && this.lines == lines && received == [] && !synthesized && !overflowed
      ensures this.requireTerminalResponse == requireTerminalResponse && this.scanFails == scanFails
      ensures pending.maxLen == maxPending && script == lines
    {
      script := lines;
      pending := new PendingEventQueue(maxPending);
      this.lines, this.requireTerminalResponse, this.scanFails := lines, requireTerminalResponse, scanFails;
      responseStarted, messageStarted, after := false, false, false;
      received, consumed, overflowed, synthesized := [], [], false, false;
    }

    /** Every event ever queued. */
    ghost function Queued(): seq<Event>
      requires pending.Valid()
      reads this, pending
    {
      received + pending.Contents()
    }

    ghost predicate Sound()
      reads this, pending
    {
      pending.Valid() && Flags(Queued(), responseStarted, messageStarted, after) && (overflowed ==> pending.maxLen > 0)
    }

    /** Without a refused push, the framer adds only starts and at most one finish to the events of
        the mapper. */
    ghost predicate Valid()
      reads this, pending
    {
      && Sound()
      && (forall k :: 0 <= k < |lines| ==> LineOk(lines[k]))
      && consumed + lines == script
      && (synthesized ==> !requireTerminalResponse && after && lines == [])
      && (after ==> ResponseFinished in Queued() || (lines == [] && requireTerminalResponse))
      && (ResponseFinished in Queued() && !synthesized ==> ResponseFinished in MappedEvents(consumed))
      && (!overflowed ==>
            WithoutStarts(Queued()) ==
            (if synthesized then MappedEvents(consumed) + [ResponseFinished] else MappedEvents(consumed)))
    }

    /** Why a Recv call may have failed. */
    ghost predicate Cause()
      reads this
    {
      || overflowed
      || AnyFailing(consumed)
      || (lines == [] && (scanFails || requireTerminalResponse || !responseStarted))
    }

    /** A push was refused, or a line failed in a way that is never recoverable. */
    ghost predicate Spoiled()
      reads this
    {
      overflowed || AnyFatal(consumed)
    }

    /** Nothing is left to deliver. */
    ghost predicate Drained()
      reads this, pending
    {
      pending.Valid() && after && pending.Contents() == []
    }

    /** Queues one event that is ready. */
    method Push(e: Event) returns (ok: bool)
      requires Sound() && !after && Ready(e, responseStarted, messageStarted)
      modifies this`responseStarted, this`messageStarted, this`after, this`overflowed, pending
      ensures Sound() && overflowed == (old(overflowed) || !ok) && (pending.maxLen == 0 ==> ok)
      ensures Queued() == if ok then old(Queued()) + [e] else old(Queued())
      ensures responseStarted == (old(responseStarted) || (ok && e.ResponseStarted?))
      ensures messageStarted == (old(messageStarted) || (ok && e.MessageStarted?))
      ensures after == (ok && e.ResponseFinished?) && (ok ==> pending.Contents() != [])
    {
      FlagsGrow(Queued(), responseStarted, messageStarted, e);
      ok := pending.Push(e);
      if !ok {
        overflowed := true;
        return;
      }
      assert Queued() == old(Queued()) + [e];
      var rs, ms := responseStarted || e.ResponseStarted?, messageStarted || e.MessageStarted?;
      assert Flags(Queued(), rs, ms, e.ResponseFinished?);
      responseStarted, messageStarted, after := rs, ms, e.ResponseFinished?;
    }

    method EnsureResponseStarted() returns (ok: bool)
      requires Sound() && !after
      modifies this`responseStarted, this`messageStarted, this`after, this`overflowed, pending
      ensures Sound() && !after && overflowed == (old(overflowed) || !ok) && (ok ==> responseStarted)
      ensures messageStarted == old(messageStarted) && WithoutStarts(Queued()) == WithoutStarts(old(Queued()))
    {
      if responseStarted {
        return true;
      }
      WithoutStartsSnoc(Queued(), ResponseStarted);
      ok := Push(ResponseStarted);
    }

    method EnsureMessageStarted() returns (ok: bool)
      requires Sound() && !after && responseStarted
      modifies this`responseStarted, this`messageStarted, this`after, this`overflowed, pending
      ensures Sound() && !after && overflowed == (old(overflowed) || !ok) && (ok ==> responseStarted && messageStarted)
      ensures WithoutStarts(Queued()) == WithoutStarts(old(Queued()))
    {
      if messageStarted {
        return true;
      }
      WithoutStartsSnoc(Queued(), MessageStarted);
      ok := Push(MessageStarted);
    }

    /** Queues whatever start the event needs. */
    method Prepare(e: Event) returns (ok: bool)
      requires Sound() && !after && !e.ResponseStarted? && !e.MessageStarted?
      modifies this`responseStarted, this`messageStarted, this`after, this`overflowed, pending
      ensures Sound() && !after && overflowed == (old(overflowed) || !ok)
      ensures ok ==> Ready(e, responseStarted, messageStarted)
      ensures WithoutStarts(Queued()) == WithoutStarts(old(Queued()))
    {
      if e.OtherEvent? {
        return true;
      }
      ok := EnsureResponseStarted();
      if ok && (e.TextDelta? || e.ReasoningDelta?) {
        ok := EnsureMessageStarted();
      }
    }

    method EnqueueEvent(e: Event) returns (ok: bool)
      requires Sound() && !after && !e.ResponseStarted? && !e.MessageStarted?
      modifies this`responseStarted, this`messageStarted, this`after, this`overflowed, pending
      ensures Sound() && overflowed == (old(overflowed) || !ok) && after == (ok && e.ResponseFinished?)
      ensures after ==> ResponseFinished in Queued() && pending.Contents() != []
      ensures WithoutStarts(Queued()) == if ok then WithoutStarts(old(Queued())) + [e] else WithoutStarts(old(Queued()))
    {
      ok := Prepare(e);
      if ok {
        WithoutStartsSnoc(Queued(), e);
        ok := Push(e);
      }
    }

    /** enqueueEventsLocked. */
    method EnqueueEvents(evs: seq<Event>) returns (ok: bool)
      requires Sound() && !after && MapperOk(evs)
      modifies this`responseStarted, this`messageStarted, this`after, this`overflowed, pending
      ensures Sound() && overflowed == (old(overflowed) || !ok)
      ensures ok ==> WithoutStarts(Queued()) == WithoutStarts(old(Queued())) + evs
      ensures after ==> ResponseFinished in evs && ResponseFinished in Queued() && pending.Contents() != []
    {
      ghost var before := WithoutStarts(Queued());
      for k := 0 to |evs|
        invariant Sound() && overflowed == old(overflowed)
        invariant WithoutStarts(Queued()) == before + evs[..k]
        invariant after ==> k == |evs| && ResponseFinished in evs
        invariant after ==> ResponseFinished in Queued() && pending.Contents() != []
      {
        ok := EnqueueEvent(evs[k]);
        if !ok {
          return false;
        }
        PrefixSnoc(before, evs, k);
      }
      assert evs[..|evs|] == evs;
      return true;
    }

    method Pop() returns (e: Option<Event>)
      requires Valid()
      modifies this`received, pending
      ensures Valid() && Queued() == old(Queued())
      ensures e.Some? ==> received == old(received) + [e.value]
      ensures e.None? ==> received == old(received) && pending.Contents() == []
    {
      e := pending.PopFront();
      if e.Some? {
        received := received + [e.value];
      }
      assert Queued() == old(Queued());
    }

    /** The scanner has no line left: only a stream that may end without a terminal response gets a
        finish of its own. */
    method AtEnd() returns (stop: Option<Received>)
      requires Valid() && !after && lines == [] && pending.Contents() == []
      modifies this`responseStarted, this`messageStarted, this`after, this`overflowed, this`synthesized, pending
      ensures stop == Some(Fails(false)) ==> Spoiled() || ResponseStarted in received
      ensures old(Spoiled()) ==> Spoiled()
      ensures Valid() && (stop.None? ==> after) && stop != Some(EndOfFile) && (stop.Some? ==> stop.value.Fails?)
      ensures stop == Some(Fails(true)) ==> !responseStarted
      ensures (stop.Some? || old(Cause()) ==> Cause()) && (stop.None? ==> pending.Contents() != [])
    {
      if scanFails || !responseStarted {
        return Some(Fails(!responseStarted));
      }
      if requireTerminalResponse {
        after := true;
        return Some(Fails(false));
      }
      WithoutStartsSnoc(Queued(), ResponseFinished);
      var ok := Push(ResponseFinished);
      if !ok {
        return Some(Fails(false));
      }
      synthesized := true;
      return None;
    }

    method Consume() returns (stop: Option<Received>)
      requires Valid() && !after && lines != [] && pending.Contents() == []
      modifies this`responseStarted, this`messageStarted, this`after, this`overflowed
      modifies this`consumed, this`lines, pending
      ensures stop == Some(Fails(false)) ==> Spoiled() || ResponseStarted in received
      ensures old(Spoiled()) ==> Spoiled()
      ensures Valid() && |lines| == |old(lines)| - 1 && stop != Some(EndOfFile) && (stop.Some? ==> stop.value.Fails?)
      ensures stop == Some(Fails(true)) ==> !responseStarted
      ensures (stop.Some? || old(Cause()) ==> Cause()) && (after ==> pending.Contents() != [])
    {
      var line := lines[0];
      assert LineOk(line) && consumed + lines == (consumed + [line]) + lines[1..];
      assert (consumed + [line])[..|consumed|] == consumed;
      FailureSnoc(consumed, line);
      lines, consumed := lines[1..], consumed + [line];
      match line {
        case Blank => stop := None;
        case Undecodable => stop := Some(Fails(!responseStarted));
        case ServerRequest(fails) => stop := if fails then Some(Fails(false)) else None;
        case MapFails => stop := Some(Fails(false));
        case Mapped(evs) =>
          var ok := EnqueueEvents(evs);
          stop := if ok then None else Some(Fails(false));
      }
    }

    /** Recv: the next event, the end, or an error; an error is recoverable only before output, and
        before output it is unless a push was refused, the mapper failed or a server request did. */
    method Recv() returns (r: Received)
      requires Valid()
      modifies this, pending
      ensures Valid()
      ensures received == if r.Got? then old(received) + [r.event] else old(received)
      ensures r == Fails(true) ==> !responseStarted
      ensures r == Fails(false) ==> Spoiled() || ResponseStarted in received
      ensures old(Spoiled()) ==> Spoiled()
      ensures r.Fails? || old(Cause()) ==> Cause()
      ensures (r.EndOfFile? <==> old(Drained())) && (r.EndOfFile? ==> Drained())
    {
      while true
        invariant Valid() && received == old(received) && (old(Cause()) ==> Cause())
        invariant old(Spoiled()) ==> Spoiled()
        invariant old(Drained()) ==> Drained()
        invariant Drained() ==> old(Drained())
        decreases |lines|, !after
      {
        var e := Pop();
        if e.Some? {
          return Got(e.value);
        }
        if after {
          return EndOfFile;
        }
        var stop;
        if lines == [] {
          stop := AtEnd();
        } else {
          stop := Consume();
        }
        if stop.Some? {
          return stop.value;
        }
      }
    }

    ghost method NothingReceived()
      requires Valid() && !responseStarted
      ensures PreOutput(received)
    {
      NothingOut(Queued(), |received|);
      assert Queued()[..|received|] == received;
    }

    /** What the stream's state says of the run so far. */
    ghost method Reckon(lines: seq<Line>, rs: seq<Received>) returns (e: Ending)
      requires Valid() && script == lines && Events(rs) == received
      ensures e == Ending(|consumed|, overflowed, synthesized) && e.scanned <= |lines|
      ensures Framed(received) && (e.refused ==> pending.maxLen > 0)
      ensures requireTerminalResponse && ResponseFinished in received ==> ResponseFinished in MappedEvents(lines)
      ensures e.synthesized ==> !requireTerminalResponse && e.scanned == |lines|
      ensures !e.refused ==> WithoutStarts(received) <= Owed(lines, e)
      ensures Drained() ==>
                && (!e.refused ==> WithoutStarts(received) == Owed(lines, e))
                && (ResponseFinished in Owed(lines, e) || (e.scanned == |lines| && requireTerminalResponse))
      ensures Cause() ==>
                || e.refused || AnyFailing(lines[..e.scanned])
                || (e.scanned == |lines| && (scanFails || requireTerminalResponse || PreOutput(received)))
      ensures Spoiled() ==> e.refused || AnyFatal(lines[..e.scanned])
    {
      e := Ending(|consumed|, overflowed, synthesized);
      assert lines[..e.scanned] == consumed;
      assert Queued()[..|received|] == received;
      FramedPrefix(Queued(), |received|);
      WithoutStartsPrefix(received, pending.Contents());
      MappedGrows(consumed, this.lines, ResponseFinished);
      if !responseStarted { NothingReceived(); }
      assert Drained() ==> Queued() == received;
    }
  }

  // ----- Whole streams -----

  function Events(rs: seq<Received>): seq<Event> {
    if rs == [] then [] else
      var front, r := Events(rs[..|rs| - 1]), rs[|rs| - 1];
      if r.Got? then front + [r.event] else front
  }

  /** A recoverable error comes only while no event the framer orders was received. */
  predicate Recoverable(rs: seq<Received>) {
    forall i :: 0 <= i < |rs| && rs[i] == Fails(true) ==> PreOutput(Events(rs[..i]))
  }

  /** An error that is not recoverable has a reason of its own, or comes after output. */
  predicate Final(rs: seq<Received>, spoiled: bool) {
    forall i :: 0 <= i < |rs| && rs[i] == Fails(false) ==> spoiled || ResponseStarted in Events(rs[..i])
  }

  /** What the results of a run say once the stream has got this far. */
  predicate Receipts(rs: seq<Received>, received: seq<Event>, spoiled: bool, caused: bool, drained: bool) {
    && Events(rs) == received && Recoverable(rs) && Final(rs, spoiled)
    && ((exists r :: r in rs && r.Fails?) ==> caused) && (EndOfFile in rs ==> drained)
  }

  lemma ReceiptsGrow(rs: seq<Received>, r: Received, received: seq<Event>, received': seq<Event>, spoiled: bool,
                     spoiled': bool, caused: bool, caused': bool, drained: bool, drained': bool)
    requires Receipts(rs, received, spoiled, caused, drained)
    requires received' == if r.Got? then received + [r.event] else received
    requires r == Fails(true) ==> PreOutput(received)
    requires r == Fails(false) ==> spoiled' || ResponseStarted in received
    requires (spoiled ==> spoiled') && (r.Fails? || caused ==> caused')
    requires (r.EndOfFile? <==> drained) && (r.EndOfFile? ==> drained')
    ensures Receipts(rs + [r], received', spoiled', caused', drained')
  {
    var all := rs + [r];
    assert all[..|rs|] == rs;
    forall i | 0 <= i < |rs| ensures all[..i] == rs[..i] && all[i] == rs[i] {}
    if x :| x in all && x.Fails? { assert x in rs || x == r; }
    if EndOfFile in all { assert EndOfFile in rs || r == EndOfFile; }
  }

  lemma FinalWeakens(rs: seq<Received>, spoiled: bool, more: bool)
    requires Final(rs, spoiled) && (spoiled ==> more)
    ensures Final(rs, more)
  {
  }

  /** How a run of Recv calls ended: the lines scanned, whether a push was refused at the cap, and
      whether the end of the stream was turned into a finish. */
  datatype Ending = Ending(scanned: nat, refused: bool, synthesized: bool)

  /** All that the lines scanned so far owe the receiver, starts aside. */
  function Owed(lines: seq<Line>, e: Ending): seq<Event> {
    var mapped := MappedEvents(if e.scanned <= |lines| then lines[..e.scanned] else lines);
    if e.synthesized then mapped + [ResponseFinished] else mapped
  }

  lemma {:induction false} WithoutStartsPrefix(a: seq<Event>, b: seq<Event>)
    ensures WithoutStarts(a) <= WithoutStarts(a + b)
    decreases |b|
  {
    if b == [] {
      assert a + b == a;
    } else {
      var front, e := b[..|b| - 1], b[|b| - 1];
      WithoutStartsPrefix(a, front);
      assert a + b == (a + front) + [e];
      WithoutStartsSnoc(a + front, e);
    }
  }

  method ReceiveFrom(s: NDJSONStream, calls: nat) returns (rs: seq<Received>)
    requires s.Valid() && s.received == []
    modifies s, s.pending
    ensures s.Valid() && |rs| == calls && Receipts(rs, s.received, s.Spoiled(), s.Cause(), s.Drained())
  {
    rs := [];
    for k := 0 to calls
      invariant s.Valid() && |rs| == k && Receipts(rs, s.received, s.Spoiled(), s.Cause(), s.Drained())
    {
      ghost var received, spoiled, caused, drained := s.received, s.Spoiled(), s.Cause(), s.Drained();
      var r := s.Recv();
      if r == Fails(true) { s.NothingReceived(); }
      ReceiptsGrow(rs, r, received, s.received, spoiled, s.Spoiled(), caused, s.Cause(), drained, s.Drained());
      rs := rs + [r];
    }
  }

  /** Any number of Recv calls on any stream and pending cap. What is received is framed; a
      recoverable error comes only while no start, delta, warning, error or finish was received, and
      every error of decoding or scanning before the response started is recoverable.
      Without a refused push, what is received are the mapped events, in order and complete at the
      end of the file, plus starts and at most one finish that the stream's end stands for. A call
      fails only for a reason: a refused push, a failing line, or how the stream ended. */
  method ReceiveMany(lines: seq<Line>, maxPending: nat, requireTerminalResponse: bool, scanFails: bool, calls: nat)
    returns (rs: seq<Received>, ghost e: Ending)
    requires forall k :: 0 <= k < |lines| ==> LineOk(lines[k])
    ensures |rs| == calls && Framed(Events(rs))
    ensures Recoverable(rs)
    ensures requireTerminalResponse && ResponseFinished in Events(rs) ==> ResponseFinished in MappedEvents(lines)
    ensures e.scanned <= |lines| && (e.refused ==> maxPending > 0)
    ensures Final(rs, e.refused || AnyFatal(lines[..e.scanned]))
    ensures e.synthesized ==> !requireTerminalResponse && e.scanned == |lines|
    ensures !e.refused ==> WithoutStarts(Events(rs)) <= Owed(lines, e)
    ensures EndOfFile in rs ==>
              && (!e.refused ==> WithoutStarts(Events(rs)) == Owed(lines, e))
              && (ResponseFinished in Owed(lines, e) || (e.scanned == |lines| && requireTerminalResponse))
    ensures (exists r :: r in rs && r.Fails?) ==>
              || e.refused || AnyFailing(lines[..e.scanned])
              || (e.scanned == |lines| && (scanFails || requireTerminalResponse || PreOutput(Events(rs))))
  {
    var s := new NDJSONStream(lines, maxPending, requireTerminalResponse, scanFails);
    rs := ReceiveFrom(s, calls);
    e := s.Reckon(lines, rs);
    FinalWeakens(rs, s.Spoiled(), e.refused || AnyFatal(lines[..e.scanned]));
  }

  lemma {:induction false} MappedGrows(a: seq<Line>, b: seq<Line>, e: Event)
    ensures e in MappedEvents(a) ==> e in MappedEvents(a + b)
    decreases |b|
  {
    if b == [] {
      assert a + b == a;
    } else {
      assert (a + b)[..|a + b| - 1] == a + b[..|b| - 1];
      MappedGrows(a, b[..|b| - 1], e);
    }
  }

  /** Only events the framer does not order. */
  predicate PreOutput(q: seq<Event>) {
    forall k :: 0 <= k < |q| ==> q[k].OtherEvent?
  }

  lemma NothingOut(q: seq<Event>, n: nat)
    requires Framed(q) && ResponseStarted !in q && n <= |q|
    ensures PreOutput(q[..n])
  {
    forall k | 0 <= k < n ensures q[..n][k].OtherEvent? {
      assert FramedAt(q, k) && q[k] in q;
      assert forall x :: x in q[..k] ==> x in q;
    }
  }
}
