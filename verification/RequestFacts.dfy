/** The bounded facts of a request (internal/compactionfacts/facts.go, builder.go): what they are
    computed from, and what they say of the call. SHA-256, item hashing and the order in which a
    call's texts are walked are inputs. */
module RequestFacts {
  import opened Basics
  import opened Options
  import opened Utf8
  import opened Markers
  import opened StartRules
  import opened TextMatching

  type Digest = bs: seq<byte> | |bs| == 32 witness seq(32, _ => 0)

  datatype Hash = Hash(bytes: Digest)

  datatype Facts = Facts(
    operation: string,
    toolCount: int,
    estimatedTokens: nat,
    itemCount: nat,
    itemHashes: seq<Hash>,
    tailHashes: seq<Hash>,
    prefixHash: Hash,
    prefixItems: nat,
    startRule: Option<StartRule>)

  const HeuristicTailItems: nat := 2
  const HeuristicPrefixItems: nat := 8

  /** What the facts depend on besides the call. */
  datatype Deps = Deps(
    fold: nat -> nat,
    markers: seq<seq<byte>>,
    rules: seq<StartRule>,
    sha256: seq<byte> -> Hash)
  {
    /** The program's tables, and a fold that leaves ASCII alone but for its capitals. */
    ghost predicate Program() {
      markers == KnownStartMarkers && rules == Table && KeepsLower(fold)
    }

    /** Every marker a rule asks for is matched, and means itself. */
    ghost predicate Sound() {
      Fits(markers) && forall r, m :: r in rules && Asks(r, m) ==> m in markers && Folded(fold, m) == m
    }
  }

  /** The program's rules ask only for what its matcher looks for. */
  lemma ProgramIsSound(deps: Deps)
    requires deps.Program()
    ensures deps.Sound()
  {
    KnownMarkersFit();
    forall r, m | r in deps.rules && Asks(r, m) ensures m in deps.markers && Folded(deps.fold, m) == m {
      var k :| 0 <= k < |Table| && Table[k] == r;
      RulesAskForKnownMarkers(k, m);
      LowerFolds(deps.fold, m);
    }
  }

  datatype Item = Item(hash: Hash, isToolCall: bool)

  /** `texts` are the texts of the call in walking order. */
  datatype Call = Call(operation: string, tools: nat, items: seq<Item>, texts: seq<seq<byte>>)

  // ----- How the facts are computed -----

  function Asker(fold: nat -> nat, found: set<seq<byte>>, tail: seq<byte>): seq<byte> -> bool {
    (m: seq<byte>) => Answers(fold, found, tail, m)
  }

  function Joined(hashes: seq<Hash>): seq<byte> {
    if hashes == [] then [] else Joined(hashes[..|hashes| - 1]) + hashes[|hashes| - 1].bytes
  }

  /** All that the facts of a request depend on; `text` is the decoded text. */
  datatype Request = Request(operation: string, tools: int, hashes: seq<Hash>, runes: nat, text: seq<byte>)

  function FactsOf(deps: Deps, r: Request): Facts {
    var tail := Least(|r.hashes|, HeuristicTailItems);
    var prefix := Least(|r.hashes|, HeuristicPrefixItems);
    Facts(r.operation, r.tools, r.runes / 4, |r.hashes|, r.hashes, r.hashes[|r.hashes| - tail..],
          deps.sha256(Joined(r.hashes[..prefix])), prefix,
          FirstMatch(deps.rules, r.operation, r.tools,
                     Asker(deps.fold, FoundIn(deps.markers, r.text), Tail(r.text))))
  }

  /** The request whose text is these ended fields and a last field `open`. */
  function Streamed(fold: nat -> nat, op: string, tools: int, hashes: seq<Hash>, fields: seq<seq<byte>>,
                    open: seq<byte>): Request {
    Request(op, tools, hashes, RunesOf(fields) + RuneCount(open), Stream(fold, fields) + Folded(fold, open))
  }

  lemma EndedRequest(fold: nat -> nat, op: string, tools: int, hashes: seq<Hash>, fields: seq<seq<byte>>)
    ensures Streamed(fold, op, tools, hashes, fields, []) ==
            Request(op, tools, hashes, RunesOf(fields), Stream(fold, fields))
  {
    assert RuneCount([]) == 0 && Folded(fold, []) == [];
    assert Stream(fold, fields) + [] == Stream(fold, fields);
  }

  function ToolCalls(items: seq<Item>): nat {
    if items == [] then 0
    else ToolCalls(items[..|items| - 1]) + if items[|items| - 1].isToolCall then 1 else 0
  }

  function Hashes(items: seq<Item>): (hs: seq<Hash>)
    ensures |hs| == |items|
  {
    seq(|items|, i requires 0 <= i < |items| => items[i].hash)
  }

  function NonEmpty(texts: seq<seq<byte>>): (r: seq<seq<byte>>)
  {
    if texts == [] then [] else
      var last := texts[|texts| - 1];
      NonEmpty(texts[..|texts| - 1]) + if last == [] then [] else [last]
  }

  function CallRequest(fold: nat -> nat, call: Call): Request {
    var fields := NonEmpty(call.texts);
    Request(call.operation, call.tools + ToolCalls(call.items), Hashes(call.items), RunesOf(fields),
            Stream(fold, fields))
  }

  /** The facts of a call, from its whole texts. */
  function CallFacts(deps: Deps, call: Call): Facts {
    FactsOf(deps, CallRequest(deps.fold, call))
  }

  // ----- What the facts say of the call -----

  function ToolCallItems(items: seq<Item>): set<nat> {
    set i: nat | i < |items| && items[i].isToolCall
  }

  /** EstimateTokens counts the runes of every text. */
  function TextRunes(texts: seq<seq<byte>>): nat {
    if texts == [] then 0 else RuneCount(texts[0]) + TextRunes(texts[1..])
  }

  /** One of the texts contains the marker, once its runes are folded. */
  predicate Says(fold: nat -> nat, texts: seq<seq<byte>>, m: seq<byte>) {
    exists k :: 0 <= k < |texts| && Contains(Folded(fold, texts[k]), m)
  }

  /** The bytes are those of the first hashes, 32 each. */
  predicate PrefixBytesOf(bytes: seq<byte>, items: seq<Item>, n: nat)
    requires n <= |items|
  {
    |bytes| == 32 * n && forall k :: 0 <= k < n ==> bytes[32 * k..32 * k + 32] == items[k].hash.bytes
  }

  /** Counts and fingerprints. */
  ghost predicate Counts(deps: Deps, call: Call, facts: Facts) {
    var n := |call.items|;
    && facts.operation == call.operation
    && facts.toolCount == call.tools + |ToolCallItems(call.items)|
    && 4 * facts.estimatedTokens <= TextRunes(call.texts) < 4 * facts.estimatedTokens + 4
    && facts.itemCount == n && |facts.itemHashes| == n
    && (forall k :: 0 <= k < n ==> facts.itemHashes[k] == call.items[k].hash)
    && |facts.tailHashes| == (if n < 2 then n else 2)
    && (forall k :: 0 <= k < |facts.tailHashes| ==>
          facts.tailHashes[k] == call.items[n - |facts.tailHashes| + k].hash)
    && facts.prefixItems == (if n < 8 then n else 8)
    && (exists bytes :: PrefixBytesOf(bytes, call.items, facts.prefixItems) && facts.prefixHash == deps.sha256(bytes))
  }

  /** The rule applies to the call: what it asks for is in the call's texts. */
  ghost predicate Applies(deps: Deps, call: Call, rule: StartRule) {
    match rule.needs
    case OperationIs(op) => call.operation == op
    case TextHas(all, any, noTools) =>
      && (noTools ==> call.tools == 0 && ToolCallItems(call.items) == {})
      && (forall m :: m in all ==> Says(deps.fold, call.texts, m))
      && (any == [] || exists m :: m in any && Says(deps.fold, call.texts, m))
  }

  /** The start rule is the first of the table that applies to the call. */
  ghost predicate FirstRule(deps: Deps, call: Call, startRule: Option<StartRule>) {
    && (startRule.None? ==> forall k :: 0 <= k < |deps.rules| ==> !Applies(deps, call, deps.rules[k]))
    && (startRule.Some? ==>
          exists k :: 0 <= k < |deps.rules| && startRule.value == deps.rules[k] &&
                      Applies(deps, call, deps.rules[k]) &&
                      forall j :: 0 <= j < k ==> !Applies(deps, call, deps.rules[j]))
  }

  lemma {:induction false} ToolCallsCounted(items: seq<Item>)
    ensures ToolCalls(items) == |ToolCallItems(items)|
    decreases |items|
  {
    if items != [] {
      var front, last := items[..|items| - 1], |items| - 1;
      ToolCallsCounted(front);
      assert ToolCallItems(items) == ToolCallItems(front) + if items[last].isToolCall then {last} else {};
    } else {
      assert ToolCallItems(items) == {};
    }
  }

  lemma {:induction false} TextRunesAppend(texts: seq<seq<byte>>, last: seq<byte>)
    ensures TextRunes(texts + [last]) == TextRunes(texts) + RuneCount(last)
    decreases |texts|
  {
    if texts == [] {
      assert texts + [last] == [last] && [last][1..] == [];
    } else {
      assert (texts + [last])[1..] == texts[1..] + [last];
      TextRunesAppend(texts[1..], last);
    }
  }

  lemma {:induction false} RunesCounted(texts: seq<seq<byte>>)
    ensures RunesOf(NonEmpty(texts)) == TextRunes(texts)
    decreases |texts|
  {
    if texts != [] {
      var front, last := texts[..|texts| - 1], texts[|texts| - 1];
      RunesCounted(front);
      TextRunesAppend(front, last);
      assert front + [last] == texts;
      var fields := NonEmpty(front);
      assert (fields + [last])[..|fields|] == fields;
      assert last == [] ==> fields + [] == fields && RuneCount(last) == 0;
    }
  }

  lemma {:induction false} JoinedPrefix(items: seq<Item>, n: nat)
    requires n <= |items|
    ensures PrefixBytesOf(Joined(Hashes(items)[..n]), items, n)
    decreases n
  {
    if n > 0 {
      var hs := Hashes(items);
      JoinedPrefix(items, n - 1);
      assert hs[..n][..n - 1] == hs[..n - 1];
      var before, last := Joined(hs[..n - 1]), items[n - 1].hash.bytes;
      assert Joined(hs[..n]) == before + last;
      forall k | 0 <= k < n ensures (before + last)[32 * k..32 * k + 32] == items[k].hash.bytes {
        if k < n - 1 { assert (before + last)[32 * k..32 * k + 32] == before[32 * k..32 * k + 32]; }
      }
    }
  }

  lemma {:induction false} NonEmptySays(fold: nat -> nat, texts: seq<seq<byte>>, m: seq<byte>)
    requires m != []
    ensures Says(fold, NonEmpty(texts), m) <==> Says(fold, texts, m)
    decreases |texts|
  {
    if texts != [] {
      var front, last := texts[..|texts| - 1], texts[|texts| - 1];
      NonEmptySays(fold, front, m);
      SaysAppend(fold, front, last, m);
      SaysAppend(fold, NonEmpty(front), last, m);
      assert front + [last] == texts;
      if last == [] {
        assert Folded(fold, last) == [] && !Contains([], m);
        assert NonEmpty(texts) == NonEmpty(front);
      }
    }
  }

  lemma SaysAppend(fold: nat -> nat, texts: seq<seq<byte>>, last: seq<byte>, m: seq<byte>)
    ensures Says(fold, texts + [last], m) <==> Says(fold, texts, m) || Contains(Folded(fold, last), m)
  {
    var all := texts + [last];
    assert all[|texts|] == last;
    assert forall k :: 0 <= k < |texts| ==> all[k] == texts[k];
  }

  /** What the matcher answers about a marker it looks for is whether one text of the call says it. */
  lemma AskedOfTexts(deps: Deps, call: Call, m: seq<byte>)
    requires deps.Sound() && m in deps.markers && Folded(deps.fold, m) == m
    ensures var text := CallRequest(deps.fold, call).text;
            Answers(deps.fold, FoundIn(deps.markers, text), Tail(text), m) <==> Says(deps.fold, call.texts, m)
  {
    var fields := NonEmpty(call.texts);
    AnswersExactly(deps.fold, deps.markers, Stream(deps.fold, fields), m);
    FoundInOneField(deps.fold, deps.markers, fields, m);
    NonEmptySays(deps.fold, call.texts, m);
  }

  lemma RuleMatches(deps: Deps, call: Call, rule: StartRule)
    requires deps.Sound() && rule in deps.rules
    ensures var r := CallRequest(deps.fold, call);
            Matches(rule, r.operation, r.tools, Asker(deps.fold, FoundIn(deps.markers, r.text), Tail(r.text))) <==>
            Applies(deps, call, rule)
  {
    ToolCallsCounted(call.items);
    var text := CallRequest(deps.fold, call).text;
    var asker := Asker(deps.fold, FoundIn(deps.markers, text), Tail(text));
    forall m | Asks(rule, m) ensures asker(m) <==> Says(deps.fold, call.texts, m) { AskedOfTexts(deps, call, m); }
    assert call.tools + ToolCalls(call.items) == 0 <==> call.tools == 0 && ToolCallItems(call.items) == {};
    match rule.needs
    case OperationIs(_) =>
    case TextHas(all, any, _) =>
      assert forall m :: m in all || m in any ==> Asks(rule, m);
  }

  /** The facts count the call's tools, items and runes, carry its item hashes, the last two and the
      digest of the first eight, and report the first rule of the table whose markers are all said by
      some text of the call. */
  lemma FactsDescribeCall(deps: Deps, call: Call)
    requires deps.Sound()
    ensures Counts(deps, call, CallFacts(deps, call))
    ensures FirstRule(deps, call, CallFacts(deps, call).startRule)
  {
    FactsCount(deps, call);
    forall k | 0 <= k < |deps.rules|
      ensures var r := CallRequest(deps.fold, call);
              Matches(deps.rules[k], r.operation, r.tools,
                      Asker(deps.fold, FoundIn(deps.markers, r.text), Tail(r.text))) <==>
              Applies(deps, call, deps.rules[k])
    {
      RuleMatches(deps, call, deps.rules[k]);
    }
  }

  lemma FactsCount(deps: Deps, call: Call)
    ensures Counts(deps, call, CallFacts(deps, call))
  {
    ToolCallsCounted(call.items);
    RunesCounted(call.texts);
    JoinedPrefix(call.items, Least(|call.items|, HeuristicPrefixItems));
  }
}
