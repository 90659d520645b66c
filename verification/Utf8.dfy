/** UTF-8 as Go's unicode/utf8 reads it (section 4 of RFC 3629): a malformed or truncated sequence
    yields the replacement character and consumes exactly one byte. */
module Utf8 {
  import opened Basics

  type byte = x: int | 0 <= x < 256

  const RuneError: nat := 0xFFFD
  const RuneSelf: nat := 0x80

  datatype Rune = Rune(value: nat, size: nat)

  predicate IsContinuation(b: byte) {
    0x80 <= b <= 0xBF
  }

  /** Length of the sequence a lead byte announces; 0 for a byte that starts none. */
  function Announced(b: byte): nat {
    if b < 0x80 then 1
    else if b < 0xC2 then 0
    else if b < 0xE0 then 2
    else if b < 0xF0 then 3
    else if b <= 0xF4 then 4
    else 0
  }

  /** The second byte of E0, ED, F0 and F4 has a narrower range: no overlong forms, no
      surrogates, nothing past U+10FFFF. */
  predicate AcceptsSecond(lead: byte, b: byte) {
    IsContinuation(b) &&
    (lead == 0xE0 ==> b >= 0xA0) && (lead == 0xED ==> b <= 0x9F) &&
    (lead == 0xF0 ==> b >= 0x90) && (lead == 0xF4 ==> b <= 0x8F)
  }

  /** `s` begins with a whole well-formed sequence. */
  predicate WellFormed(s: seq<byte>) {
    s != [] && var n := Announced(s[0]);
    0 < n <= |s| &&
    (n >= 2 ==> AcceptsSecond(s[0], s[1])) && (n >= 3 ==> IsContinuation(s[2])) && (n >= 4 ==> IsContinuation(s[3]))
  }

  function Payload(s: seq<byte>): nat
    requires WellFormed(s)
  {
    match Announced(s[0])
    case 1 => s[0]
    case 2 => 64 * Bits(s[0], 0xC0) + Bits(s[1], 0x80)
    case 3 => 4096 * Bits(s[0], 0xE0) + 64 * Bits(s[1], 0x80) + Bits(s[2], 0x80)
    case _ => 262144 * Bits(s[0], 0xF0) + 4096 * Bits(s[1], 0x80) + 64 * Bits(s[2], 0x80) + Bits(s[3], 0x80)
  }

  function Bits(b: byte, tag: byte): nat
    requires tag <= b
  {
    b - tag
  }

  /** utf8.DecodeRune on a non-empty slice. */
  function DecodeRune(s: seq<byte>): (r: Rune)
    requires s != []
    ensures 1 <= r.size <= |s| && r.size <= 4
  {
    if WellFormed(s) then Rune(Payload(s), Announced(s[0])) else Rune(RuneError, 1)
  }

  predicate IsScalar(r: nat) {
    r < 0xD800 || 0xE000 <= r <= 0x10FFFF
  }

  /** utf8.EncodeRune: a value that is no Unicode scalar is written as the replacement character. */
  function EncodeRune(r: nat): (bs: seq<byte>)
    ensures 1 <= |bs| <= 4
  {
    if r < 0x80 then [r]
    else if r < 0x800 then [0xC0 + r / 64, 0x80 + r % 64]
    else if !IsScalar(r) then [0xEF, 0xBF, 0xBD]
    else if r < 0x10000 then [0xE0 + r / 4096, 0x80 + r / 64 % 64, 0x80 + r % 64]
    else [0xF0 + r / 262144, 0x80 + r / 4096 % 64, 0x80 + r / 64 % 64, 0x80 + r % 64]
  }

  lemma EncodeWellFormed(r: nat)
    requires IsScalar(r)
    ensures WellFormed(EncodeRune(r)) && Announced(EncodeRune(r)[0]) == |EncodeRune(r)|
  {
    if 0x800 <= r < 0x10000 {
      assert r / 64 % 64 == r / 64 - 64 * (r / 4096);
    } else if 0x10000 <= r {
      assert r / 4096 % 64 == r / 4096 - 64 * (r / 262144);
    }
  }

  lemma EncodePayload(r: nat)
    requires IsScalar(r) && WellFormed(EncodeRune(r)) && Announced(EncodeRune(r)[0]) == |EncodeRune(r)|
    ensures Payload(EncodeRune(r)) == r
  {
    if 0x800 <= r < 0x10000 {
      assert r / 64 % 64 == r / 64 - 64 * (r / 4096);
    } else if 0x10000 <= r {
      assert r / 4096 % 64 == r / 4096 - 64 * (r / 262144);
      assert r / 64 % 64 == r / 64 - 64 * (r / 4096);
    }
  }

  lemma WellFormedPrefix(s: seq<byte>, rest: seq<byte>)
    requires WellFormed(s)
    ensures WellFormed(s + rest) && DecodeRune(s + rest) == DecodeRune(s)
  {
    assert forall i :: 0 <= i < |s| ==> (s + rest)[i] == s[i];
  }

  /** Encoding and decoding are inverse on every Unicode scalar value, whatever follows. */
  lemma EncodeDecode(r: nat, rest: seq<byte>)
    requires IsScalar(r)
    ensures DecodeRune(EncodeRune(r) + rest) == Rune(r, |EncodeRune(r)|)
  {
    EncodeWellFormed(r);
    EncodePayload(r);
    WellFormedPrefix(EncodeRune(r), rest);
  }

  /** The groups of six bits of the value of a well-formed sequence. */
  lemma PayloadBits(s: seq<byte>)
    requires WellFormed(s)
    ensures var n, r := Announced(s[0]), Payload(s);
            && (n >= 2 ==> r % 64 == s[n - 1] - 0x80)
            && (n == 2 ==> r / 64 == s[0] - 0xC0)
            && (n >= 3 ==> r / 64 % 64 == s[n - 2] - 0x80)
            && (n == 3 ==> r / 4096 == s[0] - 0xE0)
            && (n == 4 ==> r / 4096 % 64 == s[1] - 0x80 && r / 262144 == s[0] - 0xF0)
  {
    var n := Announced(s[0]);
    var r := Payload(s);
    if n == 3 {
      assert r / 64 == 64 * Bits(s[0], 0xE0) + Bits(s[1], 0x80);
    } else if n == 4 {
      assert r / 64 == 4096 * Bits(s[0], 0xF0) + 64 * Bits(s[1], 0x80) + Bits(s[2], 0x80);
      assert r / 4096 == 64 * Bits(s[0], 0xF0) + Bits(s[1], 0x80);
    }
  }

  /** A well-formed sequence denotes a Unicode scalar, and is its only encoding. */
  lemma DecodeEncode(s: seq<byte>)
    requires WellFormed(s)
    ensures IsScalar(DecodeRune(s).value) && EncodeRune(DecodeRune(s).value) == s[..DecodeRune(s).size]
  {
    PayloadBits(s);
  }

  /** The value of some scalar's encoding at the start of `s`. */
  predicate Begins(s: seq<byte>, r: nat) {
    IsScalar(r) && EncodeRune(r) <= s
  }

  /** Decoding reads the scalar whose encoding begins the slice, and otherwise, when no encoding
      does, the replacement character from one byte. */
  lemma DecodeIsExact(s: seq<byte>, r: nat)
    requires s != []
    ensures Begins(s, r) ==> DecodeRune(s) == Rune(r, |EncodeRune(r)|)
    ensures Begins(s, DecodeRune(s).value) || (!Begins(s, r) && DecodeRune(s) == Rune(RuneError, 1))
  {
    if Begins(s, r) {
      EncodeDecode(r, s[|EncodeRune(r)|..]);
      assert EncodeRune(r) + s[|EncodeRune(r)|..] == s;
    }
    if WellFormed(s) { DecodeEncode(s); }
  }

  // ----- Whole texts -----

  function RuneCount(d: seq<byte>): nat {
    if d == [] then 0 else 1 + RuneCount(d[DecodeRune(d).size..])
  }

  /** Every rune decoded, mapped and encoded again. */
  function Folded(fold: nat -> nat, d: seq<byte>): seq<byte> {
    if d == [] then [] else
      var r := DecodeRune(d);
      EncodeRune(fold(r.value)) + Folded(fold, d[r.size..])
  }

  /** The text of these scalars. */
  function Encoded(rs: seq<nat>): seq<byte> {
    if rs == [] then [] else EncodeRune(rs[0]) + Encoded(rs[1..])
  }

  /** A text is counted by its runes and folded rune by rune. */
  lemma {:induction false} EncodedText(fold: nat -> nat, rs: seq<nat>)
    requires forall r :: r in rs ==> IsScalar(r)
    ensures RuneCount(Encoded(rs)) == |rs|
    ensures Folded(fold, Encoded(rs)) == Encoded(seq(|rs|, i requires 0 <= i < |rs| => fold(rs[i])))
    decreases |rs|
  {
    var images := seq(|rs|, i requires 0 <= i < |rs| => fold(rs[i]));
    if rs != [] {
      var rest := Encoded(rs[1..]);
      assert rs[0] in rs && forall r :: r in rs[1..] ==> r in rs;
      EncodeDecode(rs[0], rest);
      assert (EncodeRune(rs[0]) + rest)[|EncodeRune(rs[0])|..] == rest;
      EncodedText(fold, rs[1..]);
      assert images[1..] == seq(|rs[1..]|, i requires 0 <= i < |rs[1..]| => fold(rs[1..][i]));
    }
  }

  // ----- Cutting a text -----

  /** incompleteUTF8SuffixLen: the length of a trailing sequence that later bytes may complete. */
  function IncompleteSuffix(d: seq<byte>): (k: nat)
    ensures k <= 3 && k <= |d|
    ensures k > 0 ==> !IsContinuation(d[|d| - k])
  {
    var n := |d|;
    if n == 0 then 0
    else if 0xC2 <= d[n - 1] <= 0xF4 then 1
    else if n >= 2 && IsContinuation(d[n - 1]) && 0xE0 <= d[n - 2] <= 0xF4 then 2
    else if n >= 3 && IsContinuation(d[n - 1]) && IsContinuation(d[n - 2]) && 0xF0 <= d[n - 3] <= 0xF4 then 3
    else 0
  }

  /** A text may be cut here: no sequence crosses. */
  predicate CleanCut(a: seq<byte>, b: seq<byte>) {
    IncompleteSuffix(a) == 0 || b == [] || !IsContinuation(b[0])
  }

  lemma CutStep(a: seq<byte>, b: seq<byte>)
    requires a != [] && CleanCut(a, b)
    ensures DecodeRune(a + b) == DecodeRune(a)
    ensures CleanCut(a[DecodeRune(a).size..], b)
  {
    var s := a + b;
    var n := Announced(a[0]);
    assert forall i :: 0 <= i < |a| ==> s[i] == a[i];
    assert WellFormed(s) && |a| < n ==> IsContinuation(s[|a|]);
    var rest := a[DecodeRune(a).size..];
    assert forall i :: 0 <= i < |rest| ==> rest[i] == a[DecodeRune(a).size + i];
  }

  /** Decoding a text cut cleanly in two is decoding the two parts. */
  lemma {:induction false} FoldedCut(fold: nat -> nat, a: seq<byte>, b: seq<byte>)
    requires CleanCut(a, b)
    ensures Folded(fold, a + b) == Folded(fold, a) + Folded(fold, b)
    ensures RuneCount(a + b) == RuneCount(a) + RuneCount(b)
    decreases |a|
  {
    if a == [] {
      assert a + b == b;
    } else {
      CutStep(a, b);
      var r := DecodeRune(a);
      assert (a + b)[r.size..] == a[r.size..] + b;
      FoldedCut(fold, a[r.size..], b);
      Assoc(EncodeRune(fold(r.value)), Folded(fold, a[r.size..]), Folded(fold, b));
    }
  }

  /** The undecoded bytes start a sequence that later bytes may complete, and nothing decoded does. */
  predicate Settled(done: seq<byte>, pending: seq<byte>) {
    CleanCut(done, pending) &&
    (pending == [] ==> IncompleteSuffix(done) == 0) && (pending != [] ==> !IsContinuation(pending[0]))
  }

  lemma SettledSuffix(done: seq<byte>, pending: seq<byte>, chunk: seq<byte>)
    requires Settled(done, pending)
    ensures var scratch := pending + chunk;
            var k := |scratch| - IncompleteSuffix(scratch);
            CleanCut(done, scratch[..k]) && Settled(done + scratch[..k], scratch[k..])
  {
    var scratch := pending + chunk;
    var inc := IncompleteSuffix(scratch);
    var k := |scratch| - inc;
    if inc == 0 {
      var all := done + scratch;
      assert scratch[..k] == scratch;
      assert forall i :: 0 <= i < |scratch| ==> all[|done| + i] == scratch[i];
      assert forall i :: 0 <= i < |done| ==> all[i] == done[i];
    }
  }

  /** What incompleteUTF8SuffixLen holds back cuts the rest off cleanly: the bytes decoded and the
      bytes held back make up the field, and later bytes cannot change what was decoded. */
  lemma SuffixCut(done: seq<byte>, pending: seq<byte>, chunk: seq<byte>)
    requires Settled(done, pending)
    ensures var scratch := pending + chunk;
            var k := |scratch| - IncompleteSuffix(scratch);
            && CleanCut(done, scratch[..k])
            && Settled(done + scratch[..k], scratch[k..])
            && (done + scratch[..k]) + scratch[k..] == (done + pending) + chunk
  {
    SettledSuffix(done, pending, chunk);
  }
}
