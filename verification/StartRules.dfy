/** The ordered table of compaction start rules (internal/compactionfacts/rules.go). */
module StartRules {
  import opened Options
  import opened Utf8
  import opened Markers

  datatype RuleMode = Single | Series | CompletionOnly

  datatype Evidence = ProtocolStrict | SignatureStrict | HistoryHeuristic

  /** What a rule's Match asks for: an operation; or texts, every marker of `all` and, unless `any`
      is empty, one of `any`, in a request without tools if `noTools`. */
  datatype Needs =
    | OperationIs(op: string)
    | TextHas(all: seq<seq<byte>>, any: seq<seq<byte>>, noTools: bool)

  datatype StartRule = StartRule(id: string, mode: RuleMode, evidence: Evidence, needs: Needs)

  const OperationContextCompaction := "context.compaction"

  function Signature(id: string, mode: RuleMode, all: seq<seq<byte>>): StartRule {
    StartRule(id, mode, SignatureStrict, TextHas(all, [], false))
  }

  /** StartRules. */
  const Table: seq<StartRule> := [
    StartRule("protocol.context_compaction.v1", Single, ProtocolStrict, OperationIs(OperationContextCompaction)),
    Signature("codex.local_checkpoint.v1", Single, [Ascii("context checkpoint compaction")]),
    Signature("pi_openclaw.compaction_summary.v1", Series,
              [Ascii("<conversation>"), Ascii("summar"), Ascii("checkpoint")]),
    Signature("cline.agentic_compaction.v1", Single, [Ascii("continuation-note"), Ascii("summar")]),
    Signature("opencode.anchored_summary.v1", Single,
              [Ascii("<conversation>"), Ascii("summar"), Ascii("objective"), Ascii("work state")]),
    Signature("opencode.custom_compaction_history.v1", Single,
              [Ascii("the following is the conversation history:")]),
    Signature("kilocode.anchored_summary.v1", Single,
              [Ascii("objective"), Ascii("important details"), Ascii("work state"), Ascii("next move"),
               Ascii("relevant files")]),
    StartRule("claude_code_2026_03.compaction.v1", Single, SignatureStrict,
              TextHas([Ascii("text only"), Ascii("compaction"), Ascii("conversation")], [], true)),
    StartRule("gemini_cli.state_snapshot.v1", Series, SignatureStrict,
              TextHas([Ascii("state snapshot")], [Ascii("generate"), Ascii("verify")], false)),
    Signature("roo_code.condense.v1", Single, [Ascii("condense"), Ascii("summar"), Ascii("conversation")]),
    Signature("aider.chat_summary.v1", Series, [Ascii("# user"), Ascii("# assistant"), Ascii("summar")]),
    Signature("crush.session_summary.v1", Single,
              [Ascii("session summary"), Ascii("preserve"), Ascii("context")])]

  /** Match of one rule. */
  predicate Matches(rule: StartRule, op: string, toolCount: int, hasText: seq<byte> -> bool) {
    match rule.needs
    case OperationIs(wanted) => op == wanted
    case TextHas(all, any, noTools) =>
      && (noTools ==> toolCount == 0)
      && (forall m :: m in all ==> hasText(m))
      && (any == [] || exists m :: m in any && hasText(m))
  }

  /** The first rule of the table that matches. */
  function FirstMatch(rules: seq<StartRule>, op: string, toolCount: int, hasText: seq<byte> -> bool)
    : (r: Option<StartRule>)
    ensures r.None? ==> forall k :: 0 <= k < |rules| ==> !Matches(rules[k], op, toolCount, hasText)
    ensures r.Some? ==>
              exists k :: 0 <= k < |rules| && r.value == rules[k] && Matches(rules[k], op, toolCount, hasText) &&
                          forall j :: 0 <= j < k ==> !Matches(rules[j], op, toolCount, hasText)
  {
    if rules == [] then None else
      var front := rules[..|rules| - 1];
      var earlier := FirstMatch(front, op, toolCount, hasText);
      if earlier.Some? then earlier
      else if Matches(rules[|rules| - 1], op, toolCount, hasText) then Some(rules[|rules| - 1])
      else None
  }

  lemma FirstMatchPrefix(rules: seq<StartRule>, op: string, toolCount: int, hasText: seq<byte> -> bool, i: nat)
    requires i <= |rules| && FirstMatch(rules[..i], op, toolCount, hasText).Some?
    ensures FirstMatch(rules, op, toolCount, hasText) == FirstMatch(rules[..i], op, toolCount, hasText)
    decreases |rules|
  {
    if i == |rules| {
      assert rules[..i] == rules;
    } else {
      assert rules[..|rules| - 1][..i] == rules[..i];
      FirstMatchPrefix(rules[..|rules| - 1], op, toolCount, hasText, i);
    }
  }

  /** MatchStartRule. */
  method MatchStartRule(rules: seq<StartRule>, op: string, toolCount: int, hasText: seq<byte> -> bool)
    returns (r: Option<StartRule>)
    ensures r == FirstMatch(rules, op, toolCount, hasText)
  {
    for i := 0 to |rules|
      invariant FirstMatch(rules[..i], op, toolCount, hasText).None?
    {
      assert rules[..i + 1][..i] == rules[..i];
      if Matches(rules[i], op, toolCount, hasText) {
        FirstMatchPrefix(rules, op, toolCount, hasText, i + 1);
        return Some(rules[i]);
      }
    }
    assert rules[..|rules|] == rules;
    return None;
  }

  // ----- The rules ask for known markers -----

  /** Some text rule asks for the marker. */
  predicate Asks(rule: StartRule, m: seq<byte>) {
    rule.needs.TextHas? && (m in rule.needs.all || m in rule.needs.any)
  }

  predicate LowerText(s: string) {
    forall i :: 0 <= i < |s| ==> s[i] as int < 128 && !('A' <= s[i] <= 'Z')
  }

  predicate Lower(bs: seq<byte>) {
    forall b :: b in bs ==> b < 128 && !(0x41 <= b <= 0x5A)
  }

  /** What unicode.ToLower does to ASCII. */
  ghost predicate KeepsLower(fold: nat -> nat) {
    forall r: nat :: r < 128 && !(0x41 <= r <= 0x5A) ==> fold(r) == r
  }

  lemma {:induction false} LowerFolds(fold: nat -> nat, bs: seq<byte>)
    requires KeepsLower(fold) && Lower(bs)
    ensures Folded(fold, bs) == bs
    decreases |bs|
  {
    if bs != [] {
      assert bs[0] in bs;
      assert forall b :: b in bs[1..] ==> b in bs;
      LowerFolds(fold, bs[1..]);
      assert [bs[0]] + bs[1..] == bs;
    }
  }

  lemma Known(s: string, k: nat)
    requires k < |KnownStartMarkers| && KnownStartMarkers[k] == Ascii(s) && LowerText(s)
    ensures Ascii(s) in KnownStartMarkers && Lower(Ascii(s))
  {
  }

  predicate Served(m: seq<byte>) {
    m in KnownStartMarkers && Lower(m)
  }

  lemma SummaryKnown()
    ensures Served(Ascii("summar")) && Served(Ascii("checkpoint"))
  {
    Known("summar", 16);
    Known("checkpoint", 17);
  }

  lemma NoteKnown()
    ensures Served(Ascii("continuation-note")) && Served(Ascii("<conversation>"))
  {
    Known("continuation-note", 18);
    Known("<conversation>", 1);
  }

  lemma ObjectiveKnown()
    ensures Served(Ascii("objective")) && Served(Ascii("work state"))
  {
    Known("objective", 9);
    Known("work state", 11);
  }

  lemma DetailsKnown()
    ensures Served(Ascii("important details")) && Served(Ascii("next move"))
  {
    Known("important details", 10);
    Known("next move", 12);
  }

  lemma FilesKnown()
    ensures Served(Ascii("relevant files")) && Served(Ascii("text only"))
  {
    Known("relevant files", 13);
    Known("text only", 19);
  }

  lemma ConversationKnown()
    ensures Served(Ascii("compaction")) && Served(Ascii("conversation"))
  {
    Known("compaction", 20);
    Known("conversation", 21);
  }

  lemma SnapshotKnown()
    ensures Served(Ascii("state snapshot")) && Served(Ascii("generate"))
  {
    Known("state snapshot", 22);
    Known("generate", 23);
  }

  lemma VerifyKnown()
    ensures Served(Ascii("verify")) && Served(Ascii("condense"))
  {
    Known("verify", 24);
    Known("condense", 25);
  }

  lemma SessionKnown()
    ensures Served(Ascii("session summary")) && Served(Ascii("preserve"))
  {
    Known("session summary", 26);
    Known("preserve", 27);
  }

  lemma UserKnown()
    ensures Served(Ascii("context")) && Served(Ascii("# user"))
  {
    Known("context", 28);
    Known("# user", 14);
  }

  lemma AssistantKnown()
    ensures Served(Ascii("# assistant"))
  {
    Known("# assistant", 15);
  }

  lemma CodexKnown()
    ensures Served(Ascii("context checkpoint compaction"))
  {
    Known("context checkpoint compaction", 0);
  }

  lemma HistoryKnown()
    ensures Served(Ascii("the following is the conversation history:"))
  {
    Known("the following is the conversation history:", 6);
  }

  /** Every marker a rule asks for is in the matcher's table and is written as ToLower leaves it. */
  lemma RulesAskForKnownMarkers(k: nat, m: seq<byte>)
    requires k < |Table| && Asks(Table[k], m)
    ensures m in KnownStartMarkers && Lower(m)
  {
    assert Served(m) by {
      match k
      case 1 => CodexKnown();
      case 2 => SummaryKnown(); NoteKnown();
      case 3 => SummaryKnown(); NoteKnown();
      case 4 => SummaryKnown(); NoteKnown(); ObjectiveKnown();
      case 5 => HistoryKnown();
      case 6 => ObjectiveKnown(); DetailsKnown(); FilesKnown();
      case 7 => ConversationKnown(); FilesKnown();
      case 8 => SnapshotKnown(); VerifyKnown();
      case 9 => ConversationKnown(); SummaryKnown(); VerifyKnown();
      case 10 => UserKnown(); AssistantKnown(); SummaryKnown();
      case _ => SessionKnown(); UserKnown();
    }
  }
}
