/** Substring search over a stream, and the start-rule markers of internal/compactionfacts. */
module Markers {
  import opened Utf8

  const MaxMarkerLen: nat := 64
  const Newline: byte := 10

  predicate OccursAt(hay: seq<byte>, needle: seq<byte>, i: int) {
    0 <= i && i + |needle| <= |hay| && hay[i..i + |needle|] == needle
  }

  /** bytes.Contains. */
  predicate Contains(hay: seq<byte>, needle: seq<byte>) {
    exists i :: 0 <= i <= |hay| && OccursAt(hay, needle, i)
  }

  function Tail(s: seq<byte>): (r: seq<byte>)
    ensures |r| <= MaxMarkerLen
  {
    if |s| > MaxMarkerLen then s[|s| - MaxMarkerLen..] else s
  }

  lemma OccursInPart(a: seq<byte>, mid: seq<byte>, b: seq<byte>, needle: seq<byte>, i: int)
    ensures OccursAt(mid, needle, i) ==> OccursAt(a + mid + b, needle, |a| + i)
    ensures OccursAt(a + mid + b, needle, |a| + i) && 0 <= i && i + |needle| <= |mid| ==> OccursAt(mid, needle, i)
  {
    if 0 <= i && i + |needle| <= |mid| {
      assert (a + mid + b)[|a| + i..|a| + i + |needle|] == mid[i..i + |needle|];
    }
  }

  /** Searching the overlap and the new text finds exactly the occurrences that end in the new
      text, so a stream may be searched piece by piece. */
  lemma SearchByPieces(text: seq<byte>, more: seq<byte>, needle: seq<byte>)
    requires |needle| <= MaxMarkerLen
    ensures Contains(text + more, needle) <==> Contains(text, needle) || Contains(Tail(text) + more, needle)
  {
    var tail := Tail(text);
    var head := text[..|text| - |tail|];
    assert head + (tail + more) + [] == text + more;
    assert [] + text + more == text + more;
    if Contains(text + more, needle) {
      var i :| OccursAt(text + more, needle, i);
      OccursInPart([], text, more, needle, i);
      OccursInPart(head, tail + more, [], needle, i - |head|);
    }
    if Contains(text, needle) {
      var i :| OccursAt(text, needle, i);
      OccursInPart([], text, more, needle, i);
    }
    if Contains(tail + more, needle) {
      var i :| OccursAt(tail + more, needle, i);
      OccursInPart(head, tail + more, [], needle, i);
    }
  }

  lemma TailOfTail(text: seq<byte>, more: seq<byte>)
    ensures Tail(Tail(text) + more) == Tail(text + more)
  {
  }

  lemma OccursElement(hay: seq<byte>, needle: seq<byte>, i: int, j: nat)
    requires OccursAt(hay, needle, i) && j < |needle|
    ensures hay[i + j] == needle[j]
  {
  }

  /** A needle without a newline lies on one side of it. */
  lemma NewlineSeparates(a: seq<byte>, b: seq<byte>, needle: seq<byte>)
    requires Newline !in needle && needle != []
    ensures Contains(a + [Newline] + b, needle) <==> Contains(a, needle) || Contains(b, needle)
  {
    var s := a + [Newline] + b;
    assert s == [] + a + ([Newline] + b) && s == (a + [Newline]) + b + [];
    if Contains(s, needle) {
      var i :| OccursAt(s, needle, i);
      if i <= |a| < i + |needle| { OccursElement(s, needle, i, |a| - i); }
      OccursInPart([], a, [Newline] + b, needle, i);
      OccursInPart(a + [Newline], b, [], needle, i - |a| - 1);
    }
    if Contains(a, needle) {
      var i :| OccursAt(a, needle, i);
      OccursInPart([], a, [Newline] + b, needle, i);
    }
    if Contains(b, needle) {
      var i :| OccursAt(b, needle, i);
      OccursInPart(a + [Newline], b, [], needle, i);
    }
  }

  /** The marker fits the overlap and spans no field boundary. */
  predicate Bounded(m: seq<byte>) {
    0 < |m| <= MaxMarkerLen && Newline !in m
  }

  /** A table the matcher can serve. */
  predicate Fits(markers: seq<seq<byte>>) {
    forall m :: m in markers ==> Bounded(m)
  }

  // ----- The known markers -----

  /** The bytes of an ASCII literal. */
  function Ascii(s: string): (bs: seq<byte>)
    ensures |bs| == |s|
  {
    seq(|s|, i requires 0 <= i < |s| => if s[i] as int < 128 then s[i] as int else 0x3F)
  }

  const EmDash: seq<byte> := [0xE2, 0x80, 0x94]

  const RuleMarkers: seq<seq<byte>> := [
    Ascii("context checkpoint compaction"),
    Ascii("<conversation>"),
    Ascii("<summary>"),
    Ascii("context summary:"),
    Ascii("<system_notice>"),
    Ascii("earlier context was compacted"),
    Ascii("the following is the conversation history:"),
    Ascii("[context compaction ") + EmDash + Ascii(" reference only]"),
    Ascii("[context summary]:"),
    Ascii("objective"),
    Ascii("important details"),
    Ascii("work state"),
    Ascii("next move"),
    Ascii("relevant files"),
    Ascii("# user"),
    Ascii("# assistant")]

  const WordMarkers: seq<seq<byte>> := [
    Ascii("summar"),
    Ascii("checkpoint"),
    Ascii("continuation-note"),
    Ascii("text only"),
    Ascii("compaction"),
    Ascii("conversation"),
    Ascii("state snapshot"),
    Ascii("generate"),
    Ascii("verify"),
    Ascii("condense"),
    Ascii("session summary"),
    Ascii("preserve"),
    Ascii("context")]

  const KnownStartMarkers: seq<seq<byte>> := RuleMarkers + WordMarkers

  predicate Plain(s: string) {
    forall i :: 0 <= i < |s| ==> s[i] as int != 10
  }

  lemma AsciiBounded(s: string)
    requires 0 < |s| <= MaxMarkerLen && Plain(s)
    ensures Bounded(Ascii(s))
  {
  }

  lemma RuleMarkersBounded(k: nat)
    requires k < |RuleMarkers|
    ensures Bounded(RuleMarkers[k])
  {
    if k < 6 { LongMarkersBounded(); }
    else if k < 9 { HistoryMarkersBounded(); }
    else { KiloMarkersBounded(); }
  }

  lemma LongMarkersBounded()
    ensures forall k :: 0 <= k < 6 ==> Bounded(RuleMarkers[k])
  {
    AsciiBounded("context checkpoint compaction");
    AsciiBounded("<conversation>");
    AsciiBounded("<summary>");
    AsciiBounded("context summary:");
    AsciiBounded("<system_notice>");
    AsciiBounded("earlier context was compacted");
  }

  lemma HistoryMarkersBounded()
    ensures forall k :: 6 <= k < 9 ==> Bounded(RuleMarkers[k])
  {
    AsciiBounded("the following is the conversation history:");
    AsciiBounded("[context compaction ");
    AsciiBounded(" reference only]");
    AsciiBounded("[context summary]:");
  }

  lemma KiloMarkersBounded()
    ensures forall k :: 9 <= k < 16 ==> Bounded(RuleMarkers[k])
  {
    AsciiBounded("objective");
    AsciiBounded("important details");
    AsciiBounded("work state");
    AsciiBounded("next move");
    AsciiBounded("relevant files");
    AsciiBounded("# user");
    AsciiBounded("# assistant");
  }

  lemma WordMarkersBounded(k: nat)
    requires k < |WordMarkers|
    ensures Bounded(WordMarkers[k])
  {
    AsciiBounded("summar");
    AsciiBounded("checkpoint");
    AsciiBounded("continuation-note");
    AsciiBounded("text only");
    AsciiBounded("compaction");
    AsciiBounded("conversation");
    AsciiBounded("state snapshot");
    AsciiBounded("generate");
    AsciiBounded("verify");
    AsciiBounded("condense");
    AsciiBounded("session summary");
    AsciiBounded("preserve");
    AsciiBounded("context");
  }

  /** Every known marker fits the overlap and spans no field boundary. */
  lemma KnownMarkersFit()
    ensures Fits(KnownStartMarkers)
  {
    forall m | m in KnownStartMarkers ensures Bounded(m) {
      var k :| 0 <= k < |KnownStartMarkers| && KnownStartMarkers[k] == m;
      if k < |RuleMarkers| { RuleMarkersBounded(k); } else { WordMarkersBounded(k - |RuleMarkers|); }
    }
  }
}
