/** The line channel reader of the stdio transport (connector-support/acp/transport_stdio.go): a
    writer sends lines into a bounded channel, a finish closes a signal, and one reader drains the
    channel through three selects. One step per channel operation; a step that a `select` could
    take is enabled whichever case the runtime would pick. */
module LineReader {
  import opened Basics
  import opened Utf8

  const Capacity: nat := 64
  const Newline: byte := 10

  /** Where a Read call stands: not started, past the first select, past a ready done signal. */
  datatype Point = Idle | Blocking | Draining

  /** `sent`, `returned`, `promised` and `ends` are history: every line that entered the channel,
      the bytes returned, the number of lines sent when the done signal closed, and for each EOF
      the number of bytes returned before it. */
  datatype Reader = Reader(
    ch: seq<seq<byte>>,
    done: bool,
    buf: seq<byte>,
    at: Point,
    sent: seq<seq<byte>>,
    returned: seq<byte>,
    promised: nat,
    ends: seq<nat>)

  const New := Reader([], false, [], Idle, [], [], 0, [])

  datatype Step =
    | Enqueue(line: seq<byte>)      // the send case of enqueue
    | Drop                          // the done case of enqueue
    | Finish                        // finish, or Close
    | ReadBuffered(n: nat)          // the rest of a line, into a buffer of n bytes
    | ReceiveFirst(n: nat)
    | FirstIsEmpty
    | ReceiveSecond(n: nat)
    | SeeDone
    | ReceiveThird(n: nat)
    | EndOfFile

  predicate Enabled(r: Reader, step: Step) {
    match step
    case Enqueue(_) => |r.ch| < Capacity
    case Drop => r.done
    case Finish => true
    case ReadBuffered(_) => r.at.Idle? && r.buf != []
    case ReceiveFirst(_) => r.at.Idle? && r.buf == [] && r.ch != []
    case FirstIsEmpty => r.at.Idle? && r.buf == [] && r.ch == []
    case ReceiveSecond(_) => r.at.Blocking? && r.ch != []
    case SeeDone => r.at.Blocking? && r.done
    case ReceiveThird(_) => r.at.Draining? && r.ch != []
    case EndOfFile => r.at.Draining? && r.ch == []
  }

  /** bytes.Buffer.Read into n bytes; the Read call returns. */
  function Serve(r: Reader, buf: seq<byte>, n: nat): Reader {
    var k := Least(n, |buf|);
    r.(buf := buf[k..], returned := r.returned + buf[..k], at := Idle)
  }

  /** serveLine. */
  function ServeLine(r: Reader, n: nat): Reader
    requires r.ch != []
  {
    Serve(r.(ch := r.ch[1..]), r.buf + r.ch[0] + [Newline], n)
  }

  function Apply(r: Reader, step: Step): Reader
    requires Enabled(r, step)
  {
    match step
    case Enqueue(line) => r.(ch := r.ch + [line], sent := r.sent + [line])
    case Drop => r
    case Finish => if r.done then r else r.(done := true, promised := |r.sent|)
    case ReadBuffered(n) => Serve(r, r.buf, n)
    case ReceiveFirst(n) => ServeLine(r, n)
    case FirstIsEmpty => r.(at := Blocking)
    case ReceiveSecond(n) => ServeLine(r, n)
    case SeeDone => r.(at := Draining)
    case ReceiveThird(n) => ServeLine(r, n)
    case EndOfFile => r.(at := Idle, ends := r.ends + [|r.returned|])
  }

  predicate Runs(r: Reader, steps: seq<Step>)
    decreases |steps|
  {
    steps == [] || (Enabled(r, steps[0]) && Runs(Apply(r, steps[0]), steps[1..]))
  }

  function Final(r: Reader, steps: seq<Step>): Reader
    requires Runs(r, steps)
    decreases |steps|
  {
    if steps == [] then r else Final(Apply(r, steps[0]), steps[1..])
  }

  // ----- What the reader sees -----

  /** The lines as a stream, each followed by a newline. */
  function Wire(lines: seq<seq<byte>>): seq<byte> {
    if lines == [] then [] else lines[0] + [Newline] + Wire(lines[1..])
  }

  lemma {:induction false} WireAppend(a: seq<seq<byte>>, b: seq<seq<byte>>)
    ensures Wire(a + b) == Wire(a) + Wire(b)
    decreases |a|
  {
    if a == [] {
      assert a + b == b;
    } else {
      assert (a + b)[1..] == a[1..] + b;
      WireAppend(a[1..], b);
    }
  }

  /** Nothing is lost, duplicated or reordered: what was sent is what was returned, then what the
      reader buffers, then what the channel holds. An EOF came only after all promised lines. */
  predicate Inv(r: Reader) {
    && Wire(r.sent) == r.returned + r.buf + Wire(r.ch)
    && (!r.at.Idle? ==> r.buf == [])
    && (r.at.Draining? ==> r.done)
    && r.promised <= |r.sent|
    && (r.ends != [] ==> r.done)
    && (forall e :: e in r.ends ==> |Wire(r.sent[..r.promised])| <= e <= |r.returned|)
  }

  lemma ServeKeeps(r: Reader, buf: seq<byte>, n: nat)
    ensures var r' := Serve(r, buf, n); r'.returned + r'.buf == r.returned + buf && |r.returned| <= |r'.returned|
  {
  }

  lemma ServeLineKeepsInv(r: Reader, n: nat)
    requires Inv(r) && r.ch != [] && r.buf == []
    ensures Inv(ServeLine(r, n))
  {
    var line := r.buf + r.ch[0] + [Newline];
    ServeKeeps(r.(ch := r.ch[1..]), line, n);
    var r' := ServeLine(r, n);
    assert r.returned + r.buf + Wire(r.ch) == (r.returned + line) + Wire(r.ch[1..]);
  }

  lemma EnqueueKeepsInv(r: Reader, line: seq<byte>)
    requires Inv(r) && Enabled(r, Enqueue(line))
    ensures Inv(Apply(r, Enqueue(line)))
  {
    WireAppend(r.sent, [line]);
    WireAppend(r.ch, [line]);
    assert (r.sent + [line])[..r.promised] == r.sent[..r.promised];
    assert (r.returned + r.buf + Wire(r.ch)) + Wire([line]) == r.returned + r.buf + (Wire(r.ch) + Wire([line]));
  }

  lemma FinishKeepsInv(r: Reader)
    requires Inv(r)
    ensures Inv(Apply(r, Finish))
  {
  }

  /** The channel is empty when EOF is reported, so every line sent so far was returned. */
  lemma EndKeepsInv(r: Reader)
    requires Inv(r) && Enabled(r, EndOfFile)
    ensures Inv(Apply(r, EndOfFile)) && r.returned == Wire(r.sent)
  {
    assert Wire(r.ch) == [];
    assert r.sent == r.sent[..r.promised] + r.sent[r.promised..];
    WireAppend(r.sent[..r.promised], r.sent[r.promised..]);
  }

  lemma StepKeepsInv(r: Reader, step: Step)
    requires Inv(r) && Enabled(r, step)
    ensures Inv(Apply(r, step))
  {
    match step
    case Enqueue(line) => EnqueueKeepsInv(r, line);
    case Finish => FinishKeepsInv(r);
    case ReadBuffered(n) => ServeKeeps(r, r.buf, n);
    case ReceiveFirst(n) => ServeLineKeepsInv(r, n);
    case ReceiveSecond(n) => ServeLineKeepsInv(r, n);
    case ReceiveThird(n) => ServeLineKeepsInv(r, n);
    case EndOfFile => EndKeepsInv(r);
    case _ =>
  }

  lemma {:induction false} RunsKeepInv(r: Reader, steps: seq<Step>)
    requires Inv(r) && Runs(r, steps)
    ensures Inv(Final(r, steps))
    decreases |steps|
  {
    if steps != [] {
      StepKeepsInv(r, steps[0]);
      RunsKeepInv(Apply(r, steps[0]), steps[1..]);
    }
  }

  /** For every schedule and every buffer size, the bytes returned are a prefix of the sent lines,
      each with its newline, in order. */
  lemma ReturnedIsPrefix(steps: seq<Step>)
    requires Runs(New, steps)
    ensures var r := Final(New, steps);
            |r.returned| <= |Wire(r.sent)| && Wire(r.sent)[..|r.returned|] == r.returned
  {
    RunsKeepInv(New, steps);
  }

  /** Every EOF, the first included, came only after the whole of every line that was sent before
      the done signal had been returned. */
  lemma NoLineLostBeforeEof(steps: seq<Step>, e: nat)
    requires Runs(New, steps) && e in Final(New, steps).ends
    ensures var r := Final(New, steps);
            && r.done && r.promised <= |r.sent| && e <= |r.returned|
            && |Wire(r.sent[..r.promised])| <= e
            && r.returned[..|Wire(r.sent[..r.promised])|] == Wire(r.sent[..r.promised])
  {
    RunsKeepInv(New, steps);
    var r := Final(New, steps);
    assert r.sent == r.sent[..r.promised] + r.sent[r.promised..];
    WireAppend(r.sent[..r.promised], r.sent[r.promised..]);
    var k := |Wire(r.sent[..r.promised])|;
    assert r.returned == Wire(r.sent)[..|r.returned|];
    assert r.returned[..k] == Wire(r.sent)[..k];
  }

  // ----- The object -----

  /** The reader as the program changes it, between two calls. */
  class LineChannelReader {
    var ch: seq<seq<byte>>
    var done: bool
    var buf: seq<byte>

    constructor ()
      ensures ch == [] && !done && buf == []
    {
      ch, done, buf := [], false, [];
    }

    /** What Read still owes. */
    function Pending(): seq<byte>
      reads this
    {
      buf + Wire(ch)
    }

    /** A full channel blocks until a Read or the done signal; the select may pick either ready case. */
    method Enqueue(line: seq<byte>, preferDone: bool) returns (sent: bool)
      requires |ch| < Capacity || done
      modifies this`ch
      ensures sent <==> |old(ch)| < Capacity && !(done && preferDone)
      ensures Pending() == if sent then old(Pending()) + line + [Newline] else old(Pending())
    {
      if (done && preferDone) || |ch| >= Capacity {
        return false;
      }
      WireAppend(ch, [line]);
      assert Wire([line]) == line + [Newline] + Wire([]);
      ch := ch + [line];
      return true;
    }

    method Finish()
      modifies this`done
      ensures done
    {
      done := true;
    }

    /** One Read call whose selects nothing interferes with; it would block with nothing to serve
        and no done signal. It serves the next bytes, and reports EOF only when none are owed. */
    method Read(n: nat) returns (p: seq<byte>, eof: bool)
      requires buf != [] || ch != [] || done
      modifies this`ch, this`buf
      ensures p + Pending() == old(Pending()) && |p| <= n
      ensures eof <==> old(Pending()) == []
      ensures n > 0 && !eof ==> p != []
    {
      if buf == [] {
        if ch == [] {
          return [], true;
        }
        buf := ch[0] + [Newline];
        ch := ch[1..];
        assert Pending() == old(Pending());
      }
      var k := Least(n, |buf|);
      p, eof := buf[..k], false;
      buf := buf[k..];
    }
  }
}
