/** The bounded streaming matcher (internal/compactionfacts/builder.go).

    It sees a text field in arbitrary chunks and keeps only 64 bytes of decoded overlap and at most
    3 undecoded bytes. Its specification is the whole decoded text: the markers found are those
    that occur in it. */
module TextMatching {
  import opened Basics
  import opened Utf8
  import opened Markers

  // ----- Specification -----

  /** The decoded text of a sequence of ended fields, each closed by a newline. */
  function Stream(fold: nat -> nat, fields: seq<seq<byte>>): seq<byte> {
    if fields == [] then [] else
      Stream(fold, fields[..|fields| - 1]) + Folded(fold, fields[|fields| - 1]) + [Newline]
  }

  function RunesOf(fields: seq<seq<byte>>): nat {
    if fields == [] then 0 else RunesOf(fields[..|fields| - 1]) + RuneCount(fields[|fields| - 1])
  }

  function FoundIn(markers: seq<seq<byte>>, text: seq<byte>): set<seq<byte>> {
    set m | m in markers && Contains(text, m)
  }

  function Concat(chunks: seq<seq<byte>>): seq<byte> {
    if chunks == [] then [] else Concat(chunks[..|chunks| - 1]) + chunks[|chunks| - 1]
  }

  /** What `HasText` answers from the markers found and the overlap kept. */
  predicate Answers(fold: nat -> nat, found: set<seq<byte>>, tail: seq<byte>, marker: seq<byte>) {
    var lower := Folded(fold, marker);
    lower in found || (tail != [] && Contains(tail, lower))
  }

  /** Of a known marker, the answer is whether the whole text contains it. */
  lemma AnswersExactly(fold: nat -> nat, markers: seq<seq<byte>>, text: seq<byte>, marker: seq<byte>)
    requires Fits(markers) && Folded(fold, marker) in markers
    ensures Answers(fold, FoundIn(markers, text), Tail(text), marker) <==> Contains(text, Folded(fold, marker))
  {
    var m := Folded(fold, marker);
    SearchByPieces(text, [], m);
    assert text + [] == text && Tail(text) + [] == Tail(text);
  }

  /** Since no marker contains a newline, one is found exactly if a single field contains it. */
  lemma {:induction false} FoundInOneField(fold: nat -> nat, markers: seq<seq<byte>>, fields: seq<seq<byte>>,
                                           m: seq<byte>)
    requires Fits(markers) && m in markers
    ensures m in FoundIn(markers, Stream(fold, fields)) <==>
              exists k :: 0 <= k < |fields| && Contains(Folded(fold, fields[k]), m)
  {
    if fields != [] {
      var front, last := fields[..|fields| - 1], fields[|fields| - 1];
      FoundInOneField(fold, markers, front, m);
      var before, text := Stream(fold, front), Folded(fold, last);
      assert before + text + [Newline] == (before + text) + [Newline] + [];
      NewlineSeparates(before + text, [], m);
      FieldsSeparate(fold, front, text, m);
      assert forall k :: 0 <= k < |front| ==> front[k] == fields[k];
    }
  }

  lemma FieldsSeparate(fold: nat -> nat, front: seq<seq<byte>>, text: seq<byte>, m: seq<byte>)
    requires Bounded(m)
    ensures Contains(Stream(fold, front) + text, m) <==> Contains(Stream(fold, front), m) || Contains(text, m)
  {
    var before := Stream(fold, front);
    if front == [] {
      assert before + text == text;
    } else {
      var body := Stream(fold, front[..|front| - 1]) + Folded(fold, front[|front| - 1]);
      assert before + text == body + [Newline] + text;
      assert before == body + [Newline] + [];
      NewlineSeparates(body, text, m);
      NewlineSeparates(body, [], m);
    }
  }

  lemma FoundGrows(markers: seq<seq<byte>>, text: seq<byte>, more: seq<byte>)
    requires Fits(markers)
    ensures FoundIn(markers, text + more) == FoundIn(markers, text) + FoundIn(markers, Tail(text) + more)
  {
    forall m | m in markers
      ensures m in FoundIn(markers, text + more) <==>
                m in FoundIn(markers, text) || m in FoundIn(markers, Tail(text) + more)
    {
      SearchByPieces(text, more, m);
    }
  }

  // ----- Decoding loop -----

  /** Decodes `raw` and appends every folded rune to `buf`. */
  method AppendFolded(fold: nat -> nat, buf: seq<byte>, raw: seq<byte>) returns (out: seq<byte>, runes: nat)
    ensures out == buf + Folded(fold, raw) && runes == RuneCount(raw)
  {
    var rest := raw;
    out, runes := buf, 0;
    while rest != []
      invariant out + Folded(fold, rest) == buf + Folded(fold, raw)
      invariant runes + RuneCount(rest) == RuneCount(raw)
      decreases |rest|
    {
      var r := DecodeRune(rest);
      var lr := fold(r.value);
      Assoc(out, EncodeRune(lr), Folded(fold, rest[r.size..]));
      rest := rest[r.size..];
      runes := runes + 1;
      if lr < RuneSelf {
        out := out + [lr];
      } else {
        out := out + EncodeRune(lr);
      }
    }
  }

  class TextMatcher {
    const fold: nat -> nat
    const markers: seq<seq<byte>>
    var found: set<seq<byte>>
    const tailOverlap: array<byte>
    var tailOverlapLen: nat
    const pendingUTF8: array<byte>
    var pendingUTF8Len: nat
    var buf: seq<byte>
    var scratch: seq<byte>

    ghost var fields: seq<seq<byte>>  // the ended fields
    ghost var done: seq<byte>         // the decoded part of the current field

    /** The program's table is KnownStartMarkers; any that fits the overlap will do. */
    constructor (fold: nat -> nat, markers: seq<seq<byte>>)
      requires Fits(markers)
      ensures Valid() && this.fold == fold && this.markers == markers && fields == [] && Field() == []
      ensures fresh(tailOverlap) && fresh(pendingUTF8)
    {
      this.fold, this.markers := fold, markers;
      found := {};
      tailOverlap := new byte[MaxMarkerLen](_ => 0);
      tailOverlapLen := 0;
      pendingUTF8 := new byte[4](_ => 0);
      pendingUTF8Len := 0;
      buf := [];
      scratch := [];
      fields := [];
      done := [];
      new;
      assert FoundIn(markers, []) == {};
    }

    /** Everything decoded so far, folded, with a newline after each ended field. */
    ghost function Text(): seq<byte>
      reads this
    {
      Stream(fold, fields) + Folded(fold, done)
    }

    /** The bytes of the current field. */
    ghost function Field(): seq<byte>
      requires pendingUTF8Len <= pendingUTF8.Length
      reads this, pendingUTF8
    {
      done + pendingUTF8[..pendingUTF8Len]
    }

    ghost predicate Scanned()
      reads this, tailOverlap, pendingUTF8
    {
      && tailOverlap != pendingUTF8 && tailOverlap.Length == MaxMarkerLen && pendingUTF8.Length == 4
      && tailOverlapLen <= MaxMarkerLen && pendingUTF8Len <= 3
      && Fits(markers) && found == FoundIn(markers, Text())
      && tailOverlap[..tailOverlapLen] == Tail(Text())
    }

    ghost predicate Valid()
      reads this, tailOverlap, pendingUTF8
    {
      Scanned() && Settled(done, pendingUTF8[..pendingUTF8Len])
    }

    /** Searches the buffer for the markers not yet found. */
    method SearchMarkers()
      modifies this`found
      ensures found == old(found) + FoundIn(markers, buf)
    {
      for i := 0 to |markers|
        invariant found == old(found) + FoundIn(markers[..i], buf)
      {
        var m := markers[i];
        assert markers[..i + 1] == markers[..i] + [m];
        if m !in found && Contains(buf, m) {
          found := found + {m};
        }
      }
      assert markers[..|markers|] == markers;
    }

    /** Keeps the last bytes of the buffer. */
    method KeepTail()
      requires tailOverlap.Length == MaxMarkerLen
      modifies this`tailOverlapLen, tailOverlap
      ensures tailOverlapLen <= MaxMarkerLen && tailOverlap[..tailOverlapLen] == Tail(buf)
    {
      var kept := if |buf| > MaxMarkerLen then buf[|buf| - MaxMarkerLen..] else buf;
      for i := 0 to |kept|
        invariant tailOverlap[..i] == kept[..i]
      {
        tailOverlap[i] := kept[i];
      }
      tailOverlapLen := |kept|;
    }

    /** The buffer holds the overlap and `more`: the text grows by `more`. */
    method Absorb(ghost more: seq<byte>, ghost fields': seq<seq<byte>>, ghost done': seq<byte>)
      requires Scanned() && buf == Tail(Text()) + more
      requires Stream(fold, fields') + Folded(fold, done') == Text() + more
      modifies this`found, this`tailOverlapLen, this`fields, this`done, tailOverlap
      ensures Scanned() && fields == fields' && done == done'
    {
      FoundGrows(markers, Text(), more);
      TailOfTail(Text(), more);
      SearchMarkers();
      KeepTail();
      fields := fields';
      done := done';
    }

    method KeepPending(bytes: seq<byte>)
      requires |bytes| <= 3 && pendingUTF8.Length == 4
      modifies this`pendingUTF8Len, pendingUTF8
      ensures pendingUTF8Len == |bytes| && pendingUTF8[..pendingUTF8Len] == bytes
    {
      for i := 0 to |bytes|
        invariant pendingUTF8[..i] == bytes[..i]
      {
        pendingUTF8[i] := bytes[i];
      }
      pendingUTF8Len := |bytes|;
    }

    /** Decodes bytes that are cut off cleanly, and searches what they add. */
    method Decode(raw: seq<byte>) returns (runes: nat)
      requires Scanned() && CleanCut(done, raw)
      modifies this`buf, this`found, this`tailOverlapLen, this`fields, this`done, tailOverlap
      ensures Scanned() && fields == old(fields) && done == old(done) + raw
      ensures runes == RuneCount(done) - RuneCount(old(done))
    {
      buf := tailOverlap[..tailOverlapLen];
      FoldedCut(fold, done, raw);
      Assoc(Stream(fold, fields), Folded(fold, done), Folded(fold, raw));
      buf, runes := AppendFolded(fold, buf, raw);
      Absorb(Folded(fold, raw), fields, done + raw);
    }

    /** Cuts what is to be decoded now off the bytes held back and the new ones. */
    method Cut(chunk: seq<byte>)
      requires Valid()
      modifies this`scratch, this`pendingUTF8Len, pendingUTF8
      ensures Scanned() && CleanCut(done, scratch) && Settled(done + scratch, pendingUTF8[..pendingUTF8Len])
      ensures (done + scratch) + pendingUTF8[..pendingUTF8Len] == old(Field()) + chunk
    {
      scratch := pendingUTF8[..pendingUTF8Len] + chunk;
      SuffixCut(done, pendingUTF8[..pendingUTF8Len], chunk);
      var k := |scratch| - IncompleteSuffix(scratch);
      var rest := scratch[k..];
      scratch := scratch[..k];
      assert Settled(done + scratch, rest) && (done + scratch) + rest == Field() + chunk;
      KeepPending(rest);
    }

    /** FeedChunk, FeedBytesChunk: the next bytes of the current field, cut anywhere. */
    method Feed(chunk: seq<byte>) returns (runes: nat)
      requires Valid()
      modifies this, tailOverlap, pendingUTF8
      ensures Valid() && fields == old(fields) && Field() == old(Field()) + chunk
      ensures runes == RuneCount(done) - RuneCount(old(done))
    {
      if |chunk| == 0 && pendingUTF8Len == 0 {
        assert Field() + chunk == Field();
        return 0;
      }
      Cut(chunk);
      if |scratch| == 0 {
        assert done + scratch == done;
        return 0;
      }
      runes := Decode(scratch);
    }

    /** Decodes the bytes held back, at the end of a field or of the text. */
    method FlushPending() returns (runes: nat)
      requires Valid()
      modifies this, tailOverlap
      ensures Scanned() && pendingUTF8Len == 0 && fields == old(fields) && done == old(Field())
      ensures runes == RuneCount(done) - RuneCount(old(done))
    {
      var raw := pendingUTF8[..pendingUTF8Len];
      if pendingUTF8Len == 0 {
        assert Field() == done;
        return 0;
      }
      pendingUTF8Len := 0;
      runes := Decode(raw);
    }

    /** Ends the current field. */
    method EndField() returns (runes: nat)
      requires Valid()
      modifies this, tailOverlap
      ensures Valid() && fields == old(fields) + [old(Field())] && Field() == []
      ensures runes == RuneCount(old(Field())) - RuneCount(old(done))
    {
      runes := FlushPending();
      buf := tailOverlap[..tailOverlapLen] + [Newline];
      assert (fields + [done])[..|fields|] == fields;
      assert Folded(fold, []) == [];
      Absorb([Newline], fields + [done], []);
    }

    /** A whole field at once; an empty one is no field at all. */
    method FeedField(text: seq<byte>) returns (runes: nat)
      requires Valid() && Field() == []
      modifies this, tailOverlap, pendingUTF8
      ensures Valid() && Field() == [] && fields == (if text == [] then old(fields) else old(fields) + [text])
      ensures runes == RuneCount(text)
    {
      if text == [] {
        return 0;
      }
      ghost var before := done;
      assert before == [];
      runes := Feed(text);
      assert Field() == text;
      var more := EndField();
      runes := runes + more;
    }

    /** Whatever the chunks, the field they make up is matched and counted as a whole. */
    method FeedFieldInChunks(chunks: seq<seq<byte>>) returns (runes: nat)
      requires Valid() && Field() == []
      modifies this, tailOverlap, pendingUTF8
      ensures Valid() && Field() == [] && fields == old(fields) + [Concat(chunks)]
      ensures found == FoundIn(markers, Stream(fold, old(fields) + [Concat(chunks)]))
      ensures runes == RuneCount(Concat(chunks))
    {
      runes := 0;
      assert done == [];
      for i := 0 to |chunks|
        invariant Valid() && fields == old(fields) && Field() == Concat(chunks[..i]) && runes == RuneCount(done)
      {
        assert chunks[..i + 1][..i] == chunks[..i];
        var more := Feed(chunks[i]);
        runes := runes + more;
      }
      assert chunks[..|chunks|] == chunks;
      var last := EndField();
      runes := runes + last;
      assert Text() == Stream(fold, fields);
    }

    /** HasText. */
    predicate HasText(marker: seq<byte>)
      requires tailOverlapLen <= tailOverlap.Length
      reads this, tailOverlap
    {
      Answers(fold, found, tailOverlap[..tailOverlapLen], marker)
    }
  }
}
