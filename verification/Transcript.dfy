/** The transcript-aware history coordinator (connector-support/acp/history_transcript.go).

    An agent session that already received a conversation prefix is sent only what follows it;
    a session whose prefix is unknown or was edited is sent the whole conversation. The digest
    of a prefix is represented by the exact bytes fed to SHA-256, which is what "no collisions"
    means: two digests are equal exactly when their inputs are.
 */
module Transcript {
  import opened Basics
  import opened Options

  datatype Part =
    | Text(text: string)
    | ImageRef(ref: string)
    | FileRef(ref: string, name: string)
    | OtherPart

  datatype Message = Message(role: string, parts: seq<Part>)

  const RoleUser := "user"

  /** `prefixHash` is None for the Go empty string, else the input of the digest. */
  datatype HistoryState = HistoryState(messageCount: nat, prefixHash: Option<string>)

  const Zero := HistoryState(0, None)

  datatype TranscriptResult = TranscriptResult(userMessage: string, history: HistoryState, resetNeeded: bool)

  // ----- Digest input -----

  function PartDigest(p: Part): string {
    match p
    case Text(t) => "text:" + t + "|"
    case ImageRef(r) => "img:" + r + "|"
    case FileRef(r, n) => "file:" + r + ":" + n + "|"
    case OtherPart => ""
  }

  function PartsDigest(ps: seq<Part>): string {
    if ps == [] then "" else PartsDigest(ps[..|ps| - 1]) + PartDigest(ps[|ps| - 1])
  }

  function MessageDigest(m: Message): string {
    m.role + "|" + PartsDigest(m.parts) + "\n"
  }

  /** The bytes hashed for a whole message list. */
  function DigestInput(ms: seq<Message>): string {
    if ms == [] then "" else DigestInput(ms[..|ms| - 1]) + MessageDigest(ms[|ms| - 1])
  }

  /** An end that is not positive, or lies past the list, stands for the whole list. */
  function EffectiveEnd(ms: seq<Message>, endExclusive: int): nat {
    if endExclusive <= 0 || endExclusive > |ms| then |ms| else endExclusive
  }

  function DigestPrefix(ms: seq<Message>, endExclusive: int): string {
    DigestInput(ms[..EffectiveEnd(ms, endExclusive)])
  }

  lemma PartsDigestSnoc(ps: seq<Part>, j: nat)
    requires j < |ps|
    ensures PartsDigest(ps[..j + 1]) == PartsDigest(ps[..j]) + PartDigest(ps[j])
  {
    assert ps[..j + 1][..j] == ps[..j];
  }

  lemma DigestInputSnoc(ms: seq<Message>, i: nat)
    requires i < |ms|
    ensures DigestInput(ms[..i + 1]) == DigestInput(ms[..i]) + MessageDigest(ms[i])
  {
    assert ms[..i + 1][..i] == ms[..i];
  }

  method HashParts(ps: seq<Part>) returns (h: string)
    ensures h == PartsDigest(ps)
  {
    h := "";
    for j := 0 to |ps|
      invariant h == PartsDigest(ps[..j])
    {
      PartsDigestSnoc(ps, j);
      h := h + PartDigest(ps[j]);
    }
    assert ps[..|ps|] == ps;
  }

  method HashMessagesPrefix(ms: seq<Message>, endExclusive: int) returns (h: string)
    ensures h == DigestPrefix(ms, endExclusive)
  {
    var end := if endExclusive <= 0 || endExclusive > |ms| then |ms| else endExclusive;
    h := "";
    for i := 0 to end
      invariant h == DigestInput(ms[..i])
    {
      var parts := HashParts(ms[i].parts);
      DigestInputSnoc(ms, i);
      h := h + (ms[i].role + "|" + parts + "\n");
    }
  }

  function NewHistoryState(ms: seq<Message>): HistoryState {
    HistoryState(|ms|, Some(DigestPrefix(ms, |ms|)))
  }

  lemma NewHistoryStateDescribes(ms: seq<Message>)
    ensures NewHistoryState(ms) == HistoryState(|ms|, Some(DigestInput(ms)))
  {
    assert ms[..|ms|] == ms;
  }

  // ----- Serialization -----

  function TrimLeft(s: string): string {
    if s != "" && IsSpace(s[0]) then TrimLeft(s[1..]) else s
  }

  function TrimRight(s: string): string {
    if s != "" && IsSpace(s[|s| - 1]) then TrimRight(s[..|s| - 1]) else s
  }

  function TrimSpace(s: string): string {
    TrimRight(TrimLeft(s))
  }

  function RoleLabel(role: string): string {
    match role
    case "user" => "User"
    case "assistant" => "Assistant"
    case "system" => "System"
    case "tool" => "Tool"
    case _ => role
  }

  function PartText(role: string, p: Part): string {
    var head := "**" + RoleLabel(role) + ":** ";
    match p
    case Text(t) => if TrimSpace(t) == "" then "" else head + t + "\n\n"
    case ImageRef(r) => head + "[image: " + r + "]\n\n"
    case FileRef(r, n) => head + "[file: " + (if n == "" then r else n) + "]\n\n"
    case OtherPart => ""
  }

  function PartsText(role: string, ps: seq<Part>): string {
    if ps == [] then "" else PartsText(role, ps[..|ps| - 1]) + PartText(role, ps[|ps| - 1])
  }

  /** Every message in order, untrimmed. */
  function Body(ms: seq<Message>): string {
    if ms == [] then ""
    else Body(ms[..|ms| - 1]) + PartsText(ms[|ms| - 1].role, ms[|ms| - 1].parts)
  }

  /** Index of the last user message, or -1. */
  function LastUser(ms: seq<Message>): (i: int)
    ensures -1 <= i < |ms|
    ensures i >= 0 ==> ms[i].role == RoleUser
    ensures forall j :: i < j < |ms| ==> ms[j].role != RoleUser
  {
    if ms == [] then -1
    else if ms[|ms| - 1].role == RoleUser then |ms| - 1
    else LastUser(ms[..|ms| - 1])
  }

  function SerializeTranscript(ms: seq<Message>): string {
    var u := LastUser(ms);
    if u <= 0 then TrimSpace(Body(ms))
    else TrimSpace("Previous Context:\n\n" + Body(ms[..u]) + "\n---\n\n" + Body(ms[u..]))
  }

  function SerializeTail(ms: seq<Message>, start: int): string {
    var from := if start < 0 then 0 else start;
    if from >= |ms| then "" else TrimSpace(Body(ms[from..]))
  }

  function JoinLines(xs: seq<string>): string {
    if xs == [] then "" else if |xs| == 1 then xs[0] else JoinLines(xs[..|xs| - 1]) + "\n" + xs[|xs| - 1]
  }

  function UserTexts(ps: seq<Part>): seq<string> {
    if ps == [] then []
    else
      var last := ps[|ps| - 1];
      UserTexts(ps[..|ps| - 1]) + (if last.Text? && TrimSpace(last.text) != "" then [last.text] else [])
  }

  function ExtractLastUserMessage(ms: seq<Message>): string {
    var u := LastUser(ms);
    if u < 0 then "" else JoinLines(UserTexts(ms[u].parts))
  }

  lemma PartsTextSnoc(role: string, ps: seq<Part>, j: nat)
    requires j < |ps|
    ensures PartsText(role, ps[..j + 1]) == PartsText(role, ps[..j]) + PartText(role, ps[j])
  {
    assert ps[..j + 1][..j] == ps[..j];
  }

  lemma BodySnoc(ms: seq<Message>, lo: nat, i: nat)
    requires lo <= i < |ms|
    ensures Body(ms[lo..i + 1]) == Body(ms[lo..i]) + PartsText(ms[i].role, ms[i].parts)
  {
    var t := ms[lo..i + 1];
    assert t != [] && t[|t| - 1] == ms[i];
    assert t[..|t| - 1] == ms[lo..i];
  }

  method AppendSerializedMessage(b: string, m: Message) returns (out: string)
    ensures out == b + PartsText(m.role, m.parts)
  {
    out := b;
    for j := 0 to |m.parts|
      invariant out == b + PartsText(m.role, m.parts[..j])
    {
      PartsTextSnoc(m.role, m.parts, j);
      Assoc(b, PartsText(m.role, m.parts[..j]), PartText(m.role, m.parts[j]));
      out := out + PartText(m.role, m.parts[j]);
    }
    assert m.parts[..|m.parts|] == m.parts;
  }

  /** The source's loops over a range of messages. */
  method AppendMessages(b: string, ms: seq<Message>, lo: nat, hi: nat) returns (out: string)
    requires lo <= hi <= |ms|
    ensures out == b + Body(ms[lo..hi])
  {
    out := b;
    for i := lo to hi
      invariant out == b + Body(ms[lo..i])
    {
      BodySnoc(ms, lo, i);
      Assoc(b, Body(ms[lo..i]), PartsText(ms[i].role, ms[i].parts));
      out := AppendSerializedMessage(out, ms[i]);
    }
  }

  method FindLastUser(ms: seq<Message>) returns (u: int)
    ensures u == LastUser(ms)
  {
    u := |ms| - 1;
    while u >= 0 && ms[u].role != RoleUser
      invariant -1 <= u < |ms|
      invariant forall j :: u < j < |ms| ==> ms[j].role != RoleUser
    {
      u := u - 1;
    }
  }

  method SerializeTranscriptLoop(ms: seq<Message>) returns (text: string)
    ensures text == SerializeTranscript(ms)
  {
    var u := FindLastUser(ms);
    if u <= 0 {
      text := AppendMessages("", ms, 0, |ms|);
      assert ms[0..|ms|] == ms;
      assert "" + Body(ms) == Body(ms);
    } else {
      var context := AppendMessages("Previous Context:\n\n", ms, 0, u);
      text := AppendMessages(context + "\n---\n\n", ms, u, |ms|);
      assert ms[0..u] == ms[..u] && ms[u..|ms|] == ms[u..];
    }
    text := TrimSpace(text);
  }

  // ----- The decision -----

  predicate Fresh(st: HistoryState) {
    st.messageCount == 0 || st.prefixHash.None?
  }

  function Min(a: int, b: int): int { if a < b then a else b }

  predicate Diverged(ms: seq<Message>, st: HistoryState) {
    DigestPrefix(ms, Min(st.messageCount, |ms|)) != st.prefixHash.GetOr("") || |ms| < st.messageCount
  }

  function ComputeHistoryAndUserMessage(ms: seq<Message>, st: HistoryState): TranscriptResult {
    if Fresh(st) then
      TranscriptResult(SerializeTranscript(ms), NewHistoryState(ms), false)
    else if Diverged(ms, st) then
      TranscriptResult(SerializeTranscript(ms), NewHistoryState(ms), true)
    else if |ms| == st.messageCount then
      TranscriptResult(ExtractLastUserMessage(ms), st, false)
    else
      var tail := SerializeTail(ms, st.messageCount);
      TranscriptResult(if TrimSpace(tail) == "" then ExtractLastUserMessage(ms) else tail, NewHistoryState(ms), false)
  }

  /** The prompt leaves out the first `st.messageCount` messages. */
  predicate Continues(ms: seq<Message>, st: HistoryState) {
    !Fresh(st) && !Diverged(ms, st)
  }

  predicate ResetNeeded(ms: seq<Message>, st: HistoryState) {
    !Fresh(st) && Diverged(ms, st)
  }

  /** The marker committed after the prompt was accepted. */
  function NextHistory(ms: seq<Message>, st: HistoryState): HistoryState {
    if Continues(ms, st) && |ms| == st.messageCount then st else NewHistoryState(ms)
  }

  lemma PrefixDigest(ms: seq<Message>, n: nat)
    requires 0 < n <= |ms|
    ensures DigestPrefix(ms, n) == DigestInput(ms[..n])
  {
  }

  /** A prompt leaves messages out exactly when the marker is a non-empty prefix of the
      conversation, compared by digest input. */
  lemma ContinuesExactly(ms: seq<Message>, st: HistoryState)
    ensures Continues(ms, st) <==>
              0 < st.messageCount <= |ms| && st.prefixHash == Some(DigestInput(ms[..st.messageCount]))
  {
    if 0 < st.messageCount <= |ms| { PrefixDigest(ms, st.messageCount); }
  }

  /** Only a non-empty marker that is no prefix resets; without one the whole transcript is sent,
      and with one that leaves something to say, only the rest. */
  lemma DecisionIsExact(ms: seq<Message>, st: HistoryState)
    ensures var r := ComputeHistoryAndUserMessage(ms, st);
            && (r.resetNeeded <==> !Fresh(st) && !Continues(ms, st))
            && r.history == NextHistory(ms, st)
            && (!Continues(ms, st) ==> r.userMessage == SerializeTranscript(ms))
            && (Continues(ms, st) && TrimSpace(SerializeTail(ms, st.messageCount)) != "" && |ms| > st.messageCount ==>
                  r.userMessage == SerializeTail(ms, st.messageCount))
  {
  }

  /** Whatever the branch, the committed marker describes exactly the conversation of the call. */
  lemma CommittedMarkerDescribesCall(ms: seq<Message>, st: HistoryState)
    ensures NextHistory(ms, st) == HistoryState(|ms|, Some(DigestInput(ms)))
  {
    NewHistoryStateDescribes(ms);
    ContinuesExactly(ms, st);
    assert ms[..|ms|] == ms;
  }

  /** After a turn committed a conversation, the next one resets exactly if it is shorter or its
      beginning was edited (up to the digest input); it is then replayed whole. An unchanged
      conversation sends its last user message alone. */
  lemma EditIsDetected(committed: seq<Message>, ms: seq<Message>)
    requires committed != []
    ensures var r := ComputeHistoryAndUserMessage(ms, NewHistoryState(committed));
            && (r.resetNeeded <==> |ms| < |committed| || DigestInput(ms[..|committed|]) != DigestInput(committed))
            && (r.resetNeeded ==> r.userMessage == SerializeTranscript(ms))
            && r.history == HistoryState(|ms|, Some(DigestInput(ms)))
            && (ms == committed ==> r.userMessage == ExtractLastUserMessage(ms))
  {
    var st := NewHistoryState(committed);
    NewHistoryStateDescribes(committed);
    ContinuesExactly(ms, st);
    DecisionIsExact(ms, st);
    CommittedMarkerDescribesCall(ms, st);
    assert committed[..|committed|] == committed;
  }

  lemma {:induction false} BodyAppend(a: seq<Message>, b: seq<Message>)
    ensures Body(a + b) == Body(a) + Body(b)
    decreases |b|
  {
    if b == [] {
      assert a + b == a;
    } else {
      var b' := b[..|b| - 1];
      assert (a + b)[..|a + b| - 1] == a + b';
      BodyAppend(a, b');
      Assoc(Body(a), Body(b'), PartsText(b[|b| - 1].role, b[|b| - 1].parts));
    }
  }

  /** Append-only conversations: after a turn that committed `old`, the next call with
      `old + more` never resets, and what it sends is the serialization of `more` (the last user
      message when `more` serializes to blank). Nothing of the conversation body falls between. */
  lemma AppendOnlySendsTheRest(old_: seq<Message>, more: seq<Message>)
    requires old_ != [] && more != []
    ensures var r := ComputeHistoryAndUserMessage(old_ + more, NewHistoryState(old_));
            && !r.resetNeeded
            && r.history == NewHistoryState(old_ + more)
            && r.userMessage ==
               (if TrimSpace(TrimSpace(Body(more))) == "" then ExtractLastUserMessage(old_ + more)
                else TrimSpace(Body(more)))
            && Body(old_ + more) == Body(old_) + Body(more)
  {
    var ms := old_ + more;
    assert ms[..|old_|] == old_ && ms[|old_|..] == more;
    assert old_[..|old_|] == old_;
    BodyAppend(old_, more);
  }
}
