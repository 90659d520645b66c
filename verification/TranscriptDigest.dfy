/** What the digest of a conversation depends on (connector-support/acp/history_transcript.go): any
    single edit of a role, a text, a reference or a name changes the bytes that are hashed. Edits
    that move a separator between two fields are not among them: separators are not escaped. */
module TranscriptDigest {
  import opened Basics
  import opened Options
  import opened Transcript

  /** One field of a part changed. */
  predicate PartEdited(p: Part, q: Part) {
    || (p.Text? && q.Text? && p.text != q.text)
    || (p.ImageRef? && q.ImageRef? && p.ref != q.ref)
    || (p.FileRef? && q.FileRef? && p.name == q.name && p.ref != q.ref)
    || (p.FileRef? && q.FileRef? && p.ref == q.ref && p.name != q.name)
  }

  /** The role, or one field of one part, changed. */
  predicate Edited(m: Message, n: Message) {
    || (m.parts == n.parts && m.role != n.role)
    || (m.role == n.role && |m.parts| == |n.parts| &&
        exists j :: 0 <= j < |m.parts| && PartEdited(m.parts[j], n.parts[j]) && n.parts == m.parts[j := n.parts[j]])
  }

  // ----- Cancelling -----

  lemma Cancels(before: string, a: string, b: string, after: string)
    requires before + a + after == before + b + after
    ensures a == b
  {
    var s := before + a + after;
    assert |a| == |b|;
    assert a == s[|before|..|before| + |a|];
    assert b == (before + b + after)[|before|..|before| + |b|];
  }

  lemma Differs(before: string, a: string, b: string, after: string)
    requires a != b
    ensures before + a + after != before + b + after
  {
    if before + a + after == before + b + after { Cancels(before, a, b, after); }
  }

  lemma {:induction false} PartsDigestAppend(ps: seq<Part>, qs: seq<Part>)
    ensures PartsDigest(ps + qs) == PartsDigest(ps) + PartsDigest(qs)
    decreases |qs|
  {
    if qs == [] {
      assert ps + qs == ps;
    } else {
      var front := qs[..|qs| - 1];
      assert (ps + qs)[..|ps + qs| - 1] == ps + front;
      PartsDigestAppend(ps, front);
      Assoc(PartsDigest(ps), PartsDigest(front), PartDigest(qs[|qs| - 1]));
    }
  }

  lemma {:induction false} DigestAppend(ms: seq<Message>, ns: seq<Message>)
    ensures DigestInput(ms + ns) == DigestInput(ms) + DigestInput(ns)
    decreases |ns|
  {
    if ns == [] {
      assert ms + ns == ms;
    } else {
      var front := ns[..|ns| - 1];
      assert (ms + ns)[..|ms + ns| - 1] == ms + front;
      DigestAppend(ms, front);
      Assoc(DigestInput(ms), DigestInput(front), MessageDigest(ns[|ns| - 1]));
    }
  }

  lemma PartsDigestOf(pre: seq<Part>, p: Part, post: seq<Part>)
    ensures PartsDigest(pre + [p] + post) == PartsDigest(pre) + PartDigest(p) + PartsDigest(post)
  {
    PartsDigestAppend(pre + [p], post);
    assert (pre + [p])[..|pre|] == pre;
  }

  lemma DigestOf(pre: seq<Message>, m: Message, post: seq<Message>)
    ensures DigestInput(pre + [m] + post) == DigestInput(pre) + MessageDigest(m) + DigestInput(post)
  {
    DigestAppend(pre + [m], post);
    assert (pre + [m])[..|pre|] == pre;
  }

  // ----- One edit -----

  lemma PartEditShows(p: Part, q: Part)
    requires PartEdited(p, q)
    ensures PartDigest(p) != PartDigest(q)
  {
    match p
    case Text(t) => Differs("text:", t, q.text, "|");
    case ImageRef(r) => Differs("img:", r, q.ref, "|");
    case FileRef(r, n) =>
      if r != q.ref {
        Differs("file:", r, q.ref, ":" + n + "|");
        Assoc("file:" + r, ":" + n, "|");
        Assoc("file:" + q.ref, ":" + n, "|");
        Assoc("file:" + r, ":", n);
        Assoc("file:" + q.ref, ":", n);
      } else {
        Differs("file:" + r + ":", n, q.name, "|");
      }
    case OtherPart =>
  }

  lemma PartsEditShows(ps: seq<Part>, j: nat, q: Part)
    requires j < |ps| && PartEdited(ps[j], q)
    ensures PartsDigest(ps) != PartsDigest(ps[j := q])
  {
    var pre, post := ps[..j], ps[j + 1..];
    assert ps == pre + [ps[j]] + post && ps[j := q] == pre + [q] + post;
    PartsDigestOf(pre, ps[j], post);
    PartsDigestOf(pre, q, post);
    PartEditShows(ps[j], q);
    Differs(PartsDigest(pre), PartDigest(ps[j]), PartDigest(q), PartsDigest(post));
  }

  lemma MessageEditShows(m: Message, n: Message)
    requires Edited(m, n)
    ensures MessageDigest(m) != MessageDigest(n)
  {
    if m.role != n.role {
      var rest := "|" + PartsDigest(m.parts) + "\n";
      Differs("", m.role, n.role, rest);
      assert "" + m.role + rest == MessageDigest(m);
      assert "" + n.role + rest == MessageDigest(n);
    } else {
      var j :| 0 <= j < |m.parts| && PartEdited(m.parts[j], n.parts[j]) && n.parts == m.parts[j := n.parts[j]];
      PartsEditShows(m.parts, j, n.parts[j]);
      Differs(m.role + "|", PartsDigest(m.parts), PartsDigest(n.parts), "\n");
    }
  }

  /** Conversations that differ in a single edit of one message have different digests. */
  lemma EditChangesDigest(ms: seq<Message>, i: nat, n: Message)
    requires i < |ms| && Edited(ms[i], n)
    ensures DigestInput(ms) != DigestInput(ms[i := n])
  {
    var pre, post := ms[..i], ms[i + 1..];
    assert ms == pre + [ms[i]] + post && ms[i := n] == pre + [n] + post;
    DigestOf(pre, ms[i], post);
    DigestOf(pre, n, post);
    MessageEditShows(ms[i], n);
    Differs(DigestInput(pre), MessageDigest(ms[i]), MessageDigest(n), DigestInput(post));
  }

  /** A single edit of one committed message, whatever is appended, makes the next call reset and
      replay the whole conversation. */
  lemma EditedMessageResets(committed: seq<Message>, i: nat, n: Message, more: seq<Message>)
    requires i < |committed| && Edited(committed[i], n)
    ensures var ms := committed[i := n] + more;
            var r := ComputeHistoryAndUserMessage(ms, NewHistoryState(committed));
            r.resetNeeded && r.userMessage == SerializeTranscript(ms)
  {
    var ms := committed[i := n] + more;
    assert ms[..|committed|] == committed[i := n];
    EditChangesDigest(committed, i, n);
    EditIsDetected(committed, ms);
  }

  /** The marker a turn commits lets the same conversation, however continued, go on from it. */
  lemma CommittedConversationContinues(committed: seq<Message>, more: seq<Message>, st: HistoryState)
    requires committed != []
    ensures Continues(committed + more, NextHistory(committed, st))
  {
    CommittedMarkerDescribesCall(committed, st);
    ContinuesExactly(committed + more, NextHistory(committed, st));
    assert (committed + more)[..|committed|] == committed;
  }
}
