/** What a serialized transcript contains: every part of every message, in order, on its side of the
    separator (connector-support/acp/history_transcript.go). */
module TranscriptContent {
  import opened Basics
  import opened Transcript

  predicate OccursAt(text: string, word: string, at: int) {
    0 <= at && at + |word| <= |text| && text[at..at + |word|] == word
  }

  /** Neither end of the word would be trimmed. */
  predicate Tight(word: string) {
    word != "" && !IsSpace(word[0]) && !IsSpace(word[|word| - 1])
  }

  function Speaker(role: string): string {
    if role == "user" then "User"
    else if role == "assistant" then "Assistant"
    else if role == "system" then "System"
    else if role == "tool" then "Tool"
    else role
  }

  /** A part a reader must find: blank texts and unknown kinds are left out. */
  predicate Shown(p: Part) {
    !p.OtherPart? && (p.Text? ==> exists k :: 0 <= k < |p.text| && !IsSpace(p.text[k]))
  }

  /** What a reader finds of it: who speaks, and the text up to its trailing space, or the name of the
      image or file. */
  function Entry(role: string, p: Part): string {
    Head(role) +
    match p
    case Text(t) => TrimRight(t)
    case ImageRef(r) => "[image: " + r + "]"
    case FileRef(r, n) => "[file: " + (if n != "" then n else r) + "]"
    case OtherPart => ""
  }

  predicate InRange(ms: seq<Message>, i: int, j: int) {
    0 <= i < |ms| && 0 <= j < |ms[i].parts| && Shown(ms[i].parts[j])
  }

  predicate Earlier(i: int, j: int, i': int, j': int) {
    i < i' || (i == i' && j < j')
  }

  // ----- Trimming -----

  lemma {:induction false} TrimRightIs(s: string)
    ensures TrimRight(s) <= s
    ensures forall k :: |TrimRight(s)| <= k < |s| ==> IsSpace(s[k])
    ensures TrimRight(s) != "" ==> !IsSpace(s[|TrimRight(s)| - 1])
  {
    if s != "" && IsSpace(s[|s| - 1]) { TrimRightIs(s[..|s| - 1]); }
  }

  lemma {:induction false} TrimLeftIs(s: string)
    ensures |TrimLeft(s)| <= |s| && TrimLeft(s) == s[|s| - |TrimLeft(s)|..]
    ensures forall k :: 0 <= k < |s| - |TrimLeft(s)| ==> IsSpace(s[k])
    ensures TrimLeft(s) != "" ==> !IsSpace(TrimLeft(s)[0])
  {
    if s != "" && IsSpace(s[0]) {
      var t := s[1..];
      TrimLeftIs(t);
      forall k | 0 <= k < |s| - |TrimLeft(s)| ensures IsSpace(s[k]) {
        if k > 0 { assert s[k] == t[k - 1]; }
      }
    }
  }

  /** How far trimming moves a word to the left. */
  function Lead(s: string): int {
    |s| - |TrimLeft(s)|
  }

  lemma LeftKeeps(s: string, word: string, at: int)
    requires OccursAt(s, word, at) && Tight(word)
    ensures OccursAt(TrimLeft(s), word, at - Lead(s))
  {
    TrimLeftIs(s);
    assert s[at] == word[0];
    assert Lead(s) <= at;
    assert TrimLeft(s)[at - Lead(s)..at - Lead(s) + |word|] == s[at..at + |word|];
  }

  lemma RightKeeps(s: string, word: string, at: int)
    requires OccursAt(s, word, at) && Tight(word)
    ensures OccursAt(TrimRight(s), word, at)
  {
    TrimRightIs(s);
    assert s[at + |word| - 1] == word[|word| - 1];
    assert at + |word| <= |TrimRight(s)|;
    assert TrimRight(s)[at..at + |word|] == s[at..at + |word|];
  }

  /** Trimming loses no word. */
  lemma TrimKeeps(s: string, word: string, at: int)
    requires OccursAt(s, word, at) && Tight(word)
    ensures OccursAt(TrimSpace(s), word, at - Lead(s))
  {
    LeftKeeps(s, word, at);
    RightKeeps(TrimLeft(s), word, at - Lead(s));
  }

  lemma BlankIsTrimmed(t: string)
    ensures TrimSpace(t) == "" <==> forall k :: 0 <= k < |t| ==> IsSpace(t[k])
  {
    TrimLeftIs(t);
    TrimRightIs(TrimLeft(t));
    if TrimSpace(t) == "" {
      assert TrimLeft(t) == "";
    }
  }

  // ----- One part, one message, a list of messages -----

  lemma SpeakerIsLabel(role: string)
    ensures Speaker(role) == RoleLabel(role)
  {
  }

  function Head(role: string): string {
    "**" + Speaker(role) + ":** "
  }

  /** A word that starts with a head and ends in `inner`, whatever blank follows it in the text. */
  lemma HeadLeads(head: string, inner: string, text: string)
    requires head != "" && inner != "" && !IsSpace(head[0]) && !IsSpace(inner[|inner| - 1]) && inner <= text
    ensures Tight(head + inner) && head + inner <= head + text
  {
    assert head + text == (head + inner) + text[|inner|..];
  }

  lemma Follows(a: string, b: string, c: string)
    requires a <= b
    ensures a <= b + c
  {
  }

  lemma TextIsWritten(role: string, t: string)
    requires Shown(Text(t))
    ensures PartText(role, Text(t)) == Head(role) + t + "\n\n" && TrimRight(t) != ""
  {
    SpeakerIsLabel(role);
    BlankIsTrimmed(t);
    TrimRightIs(t);
  }

  lemma WordLeads(head: string, inner: string, t: string, text: string)
    requires head != "" && inner != "" && !IsSpace(head[0]) && !IsSpace(inner[|inner| - 1]) && inner <= t
    requires text == head + t + "\n\n"
    ensures Tight(head + inner) && head + inner <= text
  {
    HeadLeads(head, inner, t);
    Follows(head + inner, head + t, "\n\n");
  }

  lemma TextLeads(role: string, t: string)
    requires TrimRight(t) != ""
    ensures Tight(Head(role) + TrimRight(t)) && Head(role) + TrimRight(t) <= Head(role) + t + "\n\n"
  {
    TrimRightIs(t);
    assert Head(role)[0] == '*';
    WordLeads(Head(role), TrimRight(t), t, Head(role) + t + "\n\n");
  }

  lemma NameLeads(role: string, open: string, name: string)
    ensures var word := Head(role) + (open + name + "]");
            Tight(word) && word <= Head(role) + open + name + "]\n\n"
  {
    var h, inner := Head(role), open + name + "]";
    assert h[0] == '*';
    HeadLeads(h, inner, inner);
    assert "]\n\n" == "]" + "\n\n";
    Assoc(h, open, name);
    Assoc(h, open + name, "]");
    Assoc(h + (open + name), "]", "\n\n");
    Follows(h + inner, h + inner, "\n\n");
  }

  lemma EntryLeads(role: string, p: Part)
    requires Shown(p)
    ensures Tight(Entry(role, p)) && Entry(role, p) <= PartText(role, p)
  {
    SpeakerIsLabel(role);
    match p
    case Text(t) => TextIsWritten(role, t); TextLeads(role, t);
    case ImageRef(r) => NameLeads(role, "[image: ", r);
    case FileRef(r, n) => NameLeads(role, "[file: ", if n != "" then n else r);
  }

  lemma {:induction false} PartsPrefix(role: string, ps: seq<Part>, j: nat)
    requires j <= |ps|
    ensures PartsText(role, ps[..j]) <= PartsText(role, ps)
    decreases |ps| - j
  {
    if j == |ps| {
      assert ps[..j] == ps;
    } else {
      PartsTextSnoc(role, ps, j);
      PartsPrefix(role, ps, j + 1);
    }
  }

  lemma {:induction false} BodyPrefix(ms: seq<Message>, i: nat)
    requires i <= |ms|
    ensures Body(ms[..i]) <= Body(ms)
    decreases |ms| - i
  {
    if i == |ms| {
      assert ms[..i] == ms;
    } else {
      BodyUpTo(ms, i);
      BodyPrefix(ms, i + 1);
    }
  }

  lemma BodyUpTo(ms: seq<Message>, i: nat)
    requires i < |ms|
    ensures Body(ms[..i + 1]) == Body(ms[..i]) + PartsText(ms[i].role, ms[i].parts)
  {
    BodySnoc(ms, 0, i);
    assert ms[0..i] == ms[..i] && ms[0..i + 1] == ms[..i + 1];
  }

  /** Where part `j` of message `i` starts. */
  function Pos(ms: seq<Message>, i: int, j: int): int {
    if 0 <= i < |ms| && 0 <= j <= |ms[i].parts| then |Body(ms[..i])| + |PartsText(ms[i].role, ms[i].parts[..j])| else 0
  }

  lemma PrefixOccurs(text: string, before: string, word: string)
    requires before + word <= text
    ensures OccursAt(text, word, |before|)
  {
    assert text[..|before + word|] == before + word;
    assert text[|before|..|before| + |word|] == (before + word)[|before|..];
  }

  lemma PrefixAdds(before: string, a: string, b: string, text: string)
    requires a <= b && before + b <= text
    ensures before + a <= text
  {
    assert b == a + b[|a|..];
    assert before + b == (before + a) + b[|a|..];
  }

  /** The text of the messages begins with that of the first ones and the first parts of the next. */
  lemma BodyReaches(ms: seq<Message>, i: nat, j: nat)
    requires i < |ms| && j <= |ms[i].parts|
    ensures Body(ms[..i]) + PartsText(ms[i].role, ms[i].parts[..j]) <= Body(ms)
    ensures Pos(ms, i, j) <= |Body(ms[..i + 1])|
  {
    PartsPrefix(ms[i].role, ms[i].parts, j);
    BodyUpTo(ms, i);
    BodyPrefix(ms, i + 1);
    PrefixAdds(Body(ms[..i]), PartsText(ms[i].role, ms[i].parts[..j]), PartsText(ms[i].role, ms[i].parts), Body(ms));
  }

  lemma WordInBody(ms: seq<Message>, i: nat, j: nat, word: string)
    requires i < |ms| && j < |ms[i].parts| && word <= PartText(ms[i].role, ms[i].parts[j])
    ensures OccursAt(Body(ms), word, Pos(ms, i, j))
    ensures Pos(ms, i, j) + |word| <= Pos(ms, i, j + 1)
  {
    var before, inner := Body(ms[..i]), PartsText(ms[i].role, ms[i].parts[..j]);
    var text := PartText(ms[i].role, ms[i].parts[j]);
    PartsTextSnoc(ms[i].role, ms[i].parts, j);
    BodyReaches(ms, i, j + 1);
    Assoc(before, inner, text);
    PrefixAdds(before + inner, word, text, Body(ms));
    PrefixOccurs(Body(ms), before + inner, word);
  }

  lemma EntryInBody(ms: seq<Message>, i: nat, j: nat)
    requires InRange(ms, i, j)
    ensures OccursAt(Body(ms), Entry(ms[i].role, ms[i].parts[j]), Pos(ms, i, j))
    ensures Pos(ms, i, j) + |Entry(ms[i].role, ms[i].parts[j])| <= Pos(ms, i, j + 1) <= |Body(ms[..i + 1])|
  {
    EntryLeads(ms[i].role, ms[i].parts[j]);
    WordInBody(ms, i, j, Entry(ms[i].role, ms[i].parts[j]));
    BodyReaches(ms, i, j + 1);
  }

  lemma BodyLenGrows(ms: seq<Message>, i: nat, i': nat)
    requires i <= i' <= |ms|
    ensures |Body(ms[..i])| <= |Body(ms[..i'])|
  {
    BodyPrefix(ms[..i'], i);
    assert ms[..i'][..i] == ms[..i];
  }

  lemma PartsLenGrows(role: string, ps: seq<Part>, j: nat, j': nat)
    requires j <= j' <= |ps|
    ensures |PartsText(role, ps[..j])| <= |PartsText(role, ps[..j'])|
  {
    PartsPrefix(role, ps[..j'], j);
    assert ps[..j'][..j] == ps[..j];
  }

  lemma PosGrows(ms: seq<Message>, i: nat, j: nat, i': nat, j': nat)
    requires i < |ms| && j < |ms[i].parts| && i' < |ms| && j' < |ms[i'].parts| && Earlier(i, j, i', j')
    ensures Pos(ms, i, j + 1) <= Pos(ms, i', j')
  {
    if i < i' {
      BodyReaches(ms, i, j + 1);
      BodyLenGrows(ms, i + 1, i');
    } else {
      PartsLenGrows(ms[i].role, ms[i].parts, j + 1, j');
    }
  }

  lemma EntriesInOrder(ms: seq<Message>, i: nat, j: nat, i': nat, j': nat)
    requires InRange(ms, i, j) && InRange(ms, i', j') && Earlier(i, j, i', j')
    ensures Pos(ms, i, j) + |Entry(ms[i].role, ms[i].parts[j])| <= Pos(ms, i', j')
  {
    EntryInBody(ms, i, j);
    PosGrows(ms, i, j, i', j');
  }

  // ----- Serialized transcripts -----

  /** Every part shown is found in the text at the place `at` gives it, in message order. */
  ghost predicate Carries(text: string, ms: seq<Message>, from: int, at: (int, int) -> int) {
    && (forall i, j :: InRange(ms, i, j) && from <= i ==> OccursAt(text, Entry(ms[i].role, ms[i].parts[j]), at(i, j)))
    && (forall i, j, i', j' :: InRange(ms, i, j) && InRange(ms, i', j') && from <= i && Earlier(i, j, i', j') ==>
          at(i, j) + |Entry(ms[i].role, ms[i].parts[j])| <= at(i', j'))
  }

  function TailAt(ms: seq<Message>, from: nat, i: int, j: int): int
    requires from <= |ms|
  {
    Pos(ms[from..], i - from, j) - Lead(Body(ms[from..]))
  }

  function TailPos(ms: seq<Message>, from: nat): (int, int) -> int
    requires from <= |ms|
  {
    (i: int, j: int) => TailAt(ms, from, i, j)
  }

  lemma TailFinds(ms: seq<Message>, from: nat, i: nat, j: nat)
    requires from <= i && InRange(ms, i, j)
    ensures OccursAt(TrimSpace(Body(ms[from..])), Entry(ms[i].role, ms[i].parts[j]), TailAt(ms, from, i, j))
  {
    var part := ms[from..];
    assert part[i - from] == ms[i];
    EntryInBody(part, i - from, j);
    EntryLeads(ms[i].role, ms[i].parts[j]);
    TrimKeeps(Body(part), Entry(ms[i].role, ms[i].parts[j]), Pos(part, i - from, j));
  }

  lemma TailGrows(ms: seq<Message>, from: nat, i: nat, j: nat, i': nat, j': nat)
    requires from <= i && InRange(ms, i, j) && InRange(ms, i', j') && Earlier(i, j, i', j')
    ensures TailAt(ms, from, i, j) + |Entry(ms[i].role, ms[i].parts[j])| <= TailAt(ms, from, i', j')
  {
    var part := ms[from..];
    assert part[i - from] == ms[i] && part[i' - from] == ms[i'];
    EntriesInOrder(part, i - from, j, i' - from, j');
  }

  /** The text of a list of messages alone. */
  lemma BodyCarries(ms: seq<Message>, from: nat)
    requires from <= |ms|
    ensures Carries(TrimSpace(Body(ms[from..])), ms, from, TailPos(ms, from))
  {
    var text, at := TrimSpace(Body(ms[from..])), TailPos(ms, from);
    forall i, j | InRange(ms, i, j) && from <= i
      ensures OccursAt(text, Entry(ms[i].role, ms[i].parts[j]), at(i, j))
    {
      TailFinds(ms, from, i, j);
    }
    forall i, j, i', j' | InRange(ms, i, j) && InRange(ms, i', j') && from <= i && Earlier(i, j, i', j')
      ensures at(i, j) + |Entry(ms[i].role, ms[i].parts[j])| <= at(i', j')
    {
      TailGrows(ms, from, i, j, i', j');
    }
  }

  /** An incremental prompt carries every part of every message from `start` on, in order. */
  lemma TailCarriesTheRest(ms: seq<Message>, start: int) returns (at: (int, int) -> int)
    ensures Carries(SerializeTail(ms, start), ms, start, at)
  {
    var from := if start < 0 then 0 else if start > |ms| then |ms| else start;
    BodyCarries(ms, from);
    at := TailPos(ms, from);
    if start >= |ms| { assert forall i, j :: !(InRange(ms, i, j) && start <= i); }
    else { assert TrimSpace(Body(ms[from..])) == SerializeTail(ms, start); }
  }

  const Heading := "Previous Context:"
  const Title := Heading + "\n\n"
  const Rule := "\n---\n\n"

  /** The text with everything before message `u` set off as context. */
  function Split(ms: seq<Message>, u: nat): string
    requires u <= |ms|
  {
    Title + Body(ms[..u]) + Rule + Body(ms[u..])
  }

  function SplitPos(ms: seq<Message>, u: nat, i: int, j: int): int
    requires u <= |ms|
  {
    if i < u then |Title| + Pos(ms[..u], i, j)
    else |Title| + |Body(ms[..u])| + |Rule| + Pos(ms[u..], i - u, j)
  }

  lemma OccursWithin(before: string, text: string, after: string, word: string, at: int)
    requires OccursAt(text, word, at)
    ensures OccursAt(before + text + after, word, |before| + at)
  {
    assert (before + text + after)[|before| + at..|before| + at + |word|] == text[at..at + |word|];
  }

  lemma WordBefore(ms: seq<Message>, u: nat, word: string, at: int)
    requires u <= |ms| && OccursAt(Body(ms[..u]), word, at)
    ensures OccursAt(Split(ms, u), word, |Title| + at)
  {
    OccursWithin(Title, Body(ms[..u]), Rule + Body(ms[u..]), word, at);
    Assoc(Title + Body(ms[..u]), Rule, Body(ms[u..]));
  }

  lemma WordAfter(ms: seq<Message>, u: nat, word: string, at: int)
    requires u <= |ms| && OccursAt(Body(ms[u..]), word, at)
    ensures OccursAt(Split(ms, u), word, |Title| + |Body(ms[..u])| + |Rule| + at)
  {
    var before := Title + Body(ms[..u]) + Rule;
    OccursWithin(before, Body(ms[u..]), "", word, at);
    assert before + Body(ms[u..]) + "" == Split(ms, u);
  }

  lemma EntryInSplit(ms: seq<Message>, u: nat, i: nat, j: nat)
    requires u <= |ms| && InRange(ms, i, j)
    ensures OccursAt(Split(ms, u), Entry(ms[i].role, ms[i].parts[j]), SplitPos(ms, u, i, j))
    ensures var end := SplitPos(ms, u, i, j) + |Entry(ms[i].role, ms[i].parts[j])|;
            if i < u then end <= |Title| + |Body(ms[..u])| else |Title| + |Body(ms[..u])| + |Rule| <= SplitPos(ms, u, i, j)
  {
    var word := Entry(ms[i].role, ms[i].parts[j]);
    if i < u {
      EntryInBody(ms[..u], i, j);
      BodyPrefix(ms[..u], i + 1);
      WordBefore(ms, u, word, Pos(ms[..u], i, j));
    } else {
      assert ms[u..][i - u] == ms[i];
      EntryInBody(ms[u..], i - u, j);
      WordAfter(ms, u, word, Pos(ms[u..], i - u, j));
    }
  }

  lemma SplitGrowsBefore(ms: seq<Message>, u: nat, i: nat, j: nat, i': nat, j': nat)
    requires i' < u <= |ms| && InRange(ms, i, j) && InRange(ms, i', j') && Earlier(i, j, i', j')
    ensures SplitPos(ms, u, i, j) + |Entry(ms[i].role, ms[i].parts[j])| <= SplitPos(ms, u, i', j')
  {
    EntriesInOrder(ms[..u], i, j, i', j');
  }

  lemma SplitGrowsAfter(ms: seq<Message>, u: nat, i: nat, j: nat, i': nat, j': nat)
    requires u <= i && InRange(ms, i, j) && InRange(ms, i', j') && Earlier(i, j, i', j')
    ensures SplitPos(ms, u, i, j) + |Entry(ms[i].role, ms[i].parts[j])| <= SplitPos(ms, u, i', j')
  {
    var part := ms[u..];
    assert part[i - u] == ms[i] && part[i' - u] == ms[i'];
    EntriesInOrder(part, i - u, j, i' - u, j');
  }

  lemma SplitGrows(ms: seq<Message>, u: nat, i: nat, j: nat, i': nat, j': nat)
    requires u <= |ms| && InRange(ms, i, j) && InRange(ms, i', j') && Earlier(i, j, i', j')
    ensures SplitPos(ms, u, i, j) + |Entry(ms[i].role, ms[i].parts[j])| <= SplitPos(ms, u, i', j')
  {
    if i' < u {
      SplitGrowsBefore(ms, u, i, j, i', j');
    } else if u <= i {
      SplitGrowsAfter(ms, u, i, j, i', j');
    } else {
      EntryInSplit(ms, u, i, j);
      EntryInSplit(ms, u, i', j');
    }
  }

  /** A full replay carries every part of every message, in order. If a user message follows other
      messages, the replay starts with a title, and a rule separates what came before the last user
      message from it and from what follows. */
  lemma ReplayCarriesEverything(ms: seq<Message>) returns (at: (int, int) -> int, rule: int)
    ensures Carries(SerializeTranscript(ms), ms, 0, at)
    ensures forall u :: 0 < u < |ms| && ms[u].role == "user" && (forall v :: u < v < |ms| ==> ms[v].role != "user") ==>
              && OccursAt(SerializeTranscript(ms), Heading, 0)
              && OccursAt(SerializeTranscript(ms), "---", rule)
              && forall i, j :: InRange(ms, i, j) ==>
                   if i < u then at(i, j) + |Entry(ms[i].role, ms[i].parts[j])| <= rule else rule + 3 <= at(i, j)
  {
    var u := LastUser(ms);
    if u <= 0 {
      BodyCarries(ms, 0);
      assert ms[0..] == ms;
      at := TailPos(ms, 0);
      rule := 0;
    } else {
      at, rule := SplitAt(ms, u), RulePos(ms, u);
      assert Title == "Previous Context:\n\n";
      SplitCarries(ms, u);
      TitleFound(ms, u);
      RuleFound(ms, u);
      forall i, j | InRange(ms, i, j)
        ensures if i < u then at(i, j) + |Entry(ms[i].role, ms[i].parts[j])| <= rule else rule + 3 <= at(i, j)
      {
        SplitFinds(ms, u, i, j);
      }
    }
  }

  function SplitAt(ms: seq<Message>, u: nat): (int, int) -> int
    requires u <= |ms|
  {
    var lead := Lead(Split(ms, u));
    (i: int, j: int) => SplitPos(ms, u, i, j) - lead
  }

  function RulePos(ms: seq<Message>, u: nat): int
    requires u <= |ms|
  {
    |Title| + |Body(ms[..u])| + 1 - Lead(Split(ms, u))
  }

  lemma SplitFinds(ms: seq<Message>, u: nat, i: nat, j: nat)
    requires u <= |ms| && InRange(ms, i, j)
    ensures OccursAt(TrimSpace(Split(ms, u)), Entry(ms[i].role, ms[i].parts[j]), SplitAt(ms, u)(i, j))
    ensures if i < u then SplitAt(ms, u)(i, j) + |Entry(ms[i].role, ms[i].parts[j])| <= RulePos(ms, u)
            else RulePos(ms, u) + 3 <= SplitAt(ms, u)(i, j)
  {
    EntryInSplit(ms, u, i, j);
    EntryLeads(ms[i].role, ms[i].parts[j]);
    TrimKeeps(Split(ms, u), Entry(ms[i].role, ms[i].parts[j]), SplitPos(ms, u, i, j));
  }

  lemma FrontFound(word: string, rest: string)
    requires Tight(word)
    ensures OccursAt(TrimSpace(word + rest), word, 0)
  {
    var text := word + rest;
    assert text[0..|word|] == word && text[0] == word[0];
    TrimLeftIs(text);
    TrimKeeps(text, word, 0);
  }

  lemma TitleFound(ms: seq<Message>, u: nat)
    requires u <= |ms|
    ensures OccursAt(TrimSpace(Split(ms, u)), Heading, 0)
  {
    var rest := Body(ms[..u]) + Rule + Body(ms[u..]);
    Assoc(Title, Body(ms[..u]), Rule);
    Assoc(Title, Body(ms[..u]) + Rule, Body(ms[u..]));
    Assoc(Heading, "\n\n", rest);
    FrontFound(Heading, "\n\n" + rest);
  }

  lemma RuleFound(ms: seq<Message>, u: nat)
    requires u <= |ms|
    ensures OccursAt(TrimSpace(Split(ms, u)), "---", RulePos(ms, u))
  {
    assert OccursAt(Rule, "---", 1);
    OccursWithin(Title + Body(ms[..u]), Rule, Body(ms[u..]), "---", 1);
    TrimKeeps(Split(ms, u), "---", |Title| + |Body(ms[..u])| + 1);
  }

  lemma SplitCarries(ms: seq<Message>, u: nat)
    requires u <= |ms|
    ensures Carries(TrimSpace(Split(ms, u)), ms, 0, SplitAt(ms, u))
  {
    var text, at := TrimSpace(Split(ms, u)), SplitAt(ms, u);
    forall i, j | InRange(ms, i, j) ensures OccursAt(text, Entry(ms[i].role, ms[i].parts[j]), at(i, j)) {
      SplitFinds(ms, u, i, j);
    }
    forall i, j, i', j' | InRange(ms, i, j) && InRange(ms, i', j') && Earlier(i, j, i', j')
      ensures at(i, j) + |Entry(ms[i].role, ms[i].parts[j])| <= at(i', j')
    {
      SplitGrows(ms, u, i, j, i', j');
    }
  }

  // ----- The last user message alone -----

  predicate Said(p: Part) {
    p.Text? && Shown(p)
  }

  function LinePos(ps: seq<Part>, j: int): int {
    if 0 < j <= |ps| && UserTexts(ps[..j]) != [] then |JoinLines(UserTexts(ps[..j]))| + 1 else 0
  }

  lemma JoinGrows(xs: seq<string>, x: string)
    ensures JoinLines(xs + [x]) == if xs == [] then x else JoinLines(xs) + "\n" + x
  {
    assert (xs + [x])[..|xs|] == xs;
  }

  lemma UserTextsGrow(ps: seq<Part>, j: nat)
    requires j < |ps|
    ensures UserTexts(ps[..j + 1]) == if Said(ps[j]) then UserTexts(ps[..j]) + [ps[j].text] else UserTexts(ps[..j])
  {
    assert ps[..j + 1][..j] == ps[..j];
    if ps[j].Text? { BlankIsTrimmed(ps[j].text); }
  }

  lemma {:induction false} LinesPrefix(ps: seq<Part>, j: nat)
    requires j <= |ps|
    ensures JoinLines(UserTexts(ps[..j])) <= JoinLines(UserTexts(ps))
    ensures UserTexts(ps[..j]) != [] ==> UserTexts(ps) != []
    decreases |ps| - j
  {
    if j == |ps| {
      assert ps[..j] == ps;
    } else {
      UserTextsGrow(ps, j);
      if Said(ps[j]) { JoinGrows(UserTexts(ps[..j]), ps[j].text); }
      LinesPrefix(ps, j + 1);
    }
  }

  lemma LineFound(ps: seq<Part>, j: nat)
    requires j < |ps| && Said(ps[j])
    ensures OccursAt(JoinLines(UserTexts(ps)), ps[j].text, LinePos(ps, j))
    ensures LinePos(ps, j) + |ps[j].text| < LinePos(ps, j + 1)
  {
    var before := UserTexts(ps[..j]);
    UserTextsGrow(ps, j);
    JoinGrows(before, ps[j].text);
    LinesPrefix(ps, j + 1);
    var front := if before == [] then "" else JoinLines(before) + "\n";
    assert j == 0 ==> ps[..j] == [];
    assert JoinLines(before + [ps[j].text]) == front + ps[j].text;
    PrefixOccurs(JoinLines(UserTexts(ps)), front, ps[j].text);
  }

  lemma {:induction false} LinePosGrows(ps: seq<Part>, j: nat, j': nat)
    requires j <= j' <= |ps|
    ensures LinePos(ps, j) <= LinePos(ps, j')
  {
    if 0 < j {
      LinesPrefix(ps[..j'], j);
      assert ps[..j'][..j] == ps[..j];
    }
  }

  /** What an unchanged conversation sends again: every text of its last user message, in order, and
      nothing if no user spoke. */
  lemma LastUserMessageIsWhole(ms: seq<Message>, u: nat) returns (at: int -> int)
    requires u < |ms| && ms[u].role == "user" && forall v :: u < v < |ms| ==> ms[v].role != "user"
    ensures forall j :: 0 <= j < |ms[u].parts| && Said(ms[u].parts[j]) ==>
              OccursAt(ExtractLastUserMessage(ms), ms[u].parts[j].text, at(j))
    ensures forall j, j' :: 0 <= j < j' < |ms[u].parts| && Said(ms[u].parts[j]) && Said(ms[u].parts[j']) ==>
              at(j) + |ms[u].parts[j].text| < at(j')
  {
    var ps := ms[u].parts;
    assert LastUser(ms) == u;
    at := (j: int) => LinePos(ps, j);
    forall j | 0 <= j < |ps| && Said(ps[j]) ensures OccursAt(ExtractLastUserMessage(ms), ps[j].text, at(j)) {
      LineFound(ps, j);
    }
    forall j, j' | 0 <= j < j' < |ps| && Said(ps[j]) && Said(ps[j']) ensures at(j) + |ps[j].text| < at(j') {
      LineFound(ps, j);
      LinePosGrows(ps, j + 1, j');
    }
  }
}
