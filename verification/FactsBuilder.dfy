/** The incremental facts builder and the batch extraction it must agree with
    (internal/compactionfacts/builder.go). */
module FactsBuilder {
  import opened Basics
  import opened Options
  import opened Utf8
  import opened Markers
  import opened StartRules
  import opened TextMatching
  import opened RequestFacts

  // ----- Facts from a finished matcher -----

  method TailHashes(hashes: seq<Hash>) returns (tail: seq<Hash>)
    ensures tail == hashes[|hashes| - Least(|hashes|, HeuristicTailItems)..]
  {
    var n := Least(|hashes|, HeuristicTailItems);
    tail := [];
    for i := 0 to n
      invariant tail == hashes[|hashes| - n..|hashes| - n + i]
    {
      tail := tail + [hashes[|hashes| - n + i]];
    }
  }

  method PrefixBytes(hashes: seq<Hash>) returns (prefix: seq<byte>)
    ensures prefix == Joined(hashes[..Least(|hashes|, HeuristicPrefixItems)])
  {
    var n := Least(|hashes|, HeuristicPrefixItems);
    prefix := [];
    for i := 0 to n
      invariant prefix == Joined(hashes[..i])
    {
      assert hashes[..i + 1][..i] == hashes[..i];
      prefix := prefix + hashes[i].bytes;
    }
  }

  method AssembleFacts(deps: Deps, op: string, tools: int, hashes: seq<Hash>, runes: nat, matcher: TextMatcher,
                       ghost r: Request)
    returns (facts: Facts)
    requires matcher.Scanned() && matcher.fold == deps.fold && matcher.markers == deps.markers
    requires r == Request(op, tools, hashes, runes, matcher.Text())
    ensures facts == FactsOf(deps, r)
  {
    var tail := TailHashes(hashes);
    var prefix := PrefixBytes(hashes);
    var asker := Asker(deps.fold, matcher.found, matcher.tailOverlap[..matcher.tailOverlapLen]);
    var rule := MatchStartRule(deps.rules, op, tools, asker);
    facts := Facts(op, tools, runes / 4, |hashes|, hashes, tail, deps.sha256(prefix),
                   Least(|hashes|, HeuristicPrefixItems), rule);
  }

  lemma ItemsGrow(items: seq<Item>, i: nat)
    requires i < |items|
    ensures ToolCalls(items[..i + 1]) == ToolCalls(items[..i]) + (if items[i].isToolCall then 1 else 0)
    ensures Hashes(items[..i + 1]) == Hashes(items[..i]) + [items[i].hash]
  {
    assert items[..i + 1][..i] == items[..i];
  }

  lemma TextsGrow(texts: seq<seq<byte>>, i: nat)
    requires i < |texts|
    ensures NonEmpty(texts[..i + 1]) ==
            (if texts[i] == [] then NonEmpty(texts[..i]) else NonEmpty(texts[..i]) + [texts[i]])
    ensures RunesOf(NonEmpty(texts[..i + 1])) == RunesOf(NonEmpty(texts[..i])) + RuneCount(texts[i])
  {
    assert texts[..i + 1][..i] == texts[..i];
    var before := NonEmpty(texts[..i]);
    assert (before + [texts[i]])[..|before|] == before;
  }

  method CountItems(call: Call) returns (toolCount: int, hashes: seq<Hash>)
    ensures toolCount == call.tools + ToolCalls(call.items) && hashes == Hashes(call.items)
  {
    toolCount, hashes := call.tools, [];
    for i := 0 to |call.items|
      invariant toolCount == call.tools + ToolCalls(call.items[..i]) && hashes == Hashes(call.items[..i])
    {
      ItemsGrow(call.items, i);
      if call.items[i].isToolCall { toolCount := toolCount + 1; }
      hashes := hashes + [call.items[i].hash];
    }
    assert call.items[..|call.items|] == call.items;
  }

  method WalkTexts(fold: nat -> nat, markers: seq<seq<byte>>, texts: seq<seq<byte>>)
    returns (matcher: TextMatcher, totalRunes: nat)
    requires Fits(markers)
    ensures fresh(matcher) && matcher.Scanned() && matcher.fold == fold && matcher.markers == markers
    ensures matcher.Text() == Stream(fold, NonEmpty(texts)) && totalRunes == RunesOf(NonEmpty(texts))
  {
    matcher := new TextMatcher(fold, markers);
    totalRunes := 0;
    for i := 0 to |texts|
      invariant fresh(matcher) && fresh(matcher.tailOverlap) && fresh(matcher.pendingUTF8)
      invariant matcher.Valid() && matcher.fold == fold && matcher.markers == markers
      invariant matcher.Field() == [] && matcher.fields == NonEmpty(texts[..i])
      invariant totalRunes == RunesOf(NonEmpty(texts[..i]))
    {
      TextsGrow(texts, i);
      if texts[i] != [] {
        totalRunes := totalRunes + RuneCount(texts[i]);
        var _ := matcher.FeedField(texts[i]);
      }
    }
    assert texts[..|texts|] == texts;
    assert matcher.done == [];
  }

  /** ExtractFactsFromCall. */
  method ExtractFactsFromCall(deps: Deps, call: Call) returns (facts: Facts)
    requires deps.Sound()
    ensures facts == CallFacts(deps, call)
    ensures Counts(deps, call, facts) && FirstRule(deps, call, facts.startRule)
  {
    FactsDescribeCall(deps, call);
    var toolCount, hashes := CountItems(call);
    var matcher, totalRunes := WalkTexts(deps.fold, deps.markers, call.texts);
    facts := AssembleFacts(deps, call.operation, toolCount, hashes, totalRunes, matcher, CallRequest(deps.fold, call));
  }

  // ----- Builder -----

  class Builder {
    const deps: Deps
    const op: string
    const maxItems: int
    const matcher: TextMatcher
    var toolCount: int
    var itemCount: nat
    var itemHashes: seq<Hash>
    var totalRunes: nat
    var failed: bool               // the sticky ErrFactBudgetExceeded

    ghost var offered: seq<Hash>   // every hash a caller tried to add

    constructor (deps: Deps, op: string, maxFactItems: int)
      requires Fits(deps.markers)
      ensures Valid() && this.deps == deps && this.op == op && maxItems == maxFactItems && fresh(Repr())
      ensures toolCount == 0 && offered == [] && matcher.fields == [] && matcher.Field() == []
    {
      this.deps := deps;
      this.op := op;
      maxItems := maxFactItems;
      toolCount := 0;
      itemCount := 0;
      itemHashes := [];
      totalRunes := 0;
      failed := false;
      offered := [];
      matcher := new TextMatcher(deps.fold, deps.markers);
    }

    ghost function Repr(): set<object>
    {
      {this, matcher, matcher.tailOverlap, matcher.pendingUTF8}
    }

    /** The error is set exactly if more items were offered than the budget allows; until then
        every item and every rune is accounted for. */
    ghost predicate Valid()
      reads Repr()
    {
      && matcher.Valid() && matcher.fold == deps.fold && matcher.markers == deps.markers
      && (failed <==> maxItems > 0 && |offered| > maxItems)
      && (!failed ==>
            itemHashes == offered && itemCount == |offered| &&
            totalRunes == RunesOf(matcher.fields) + RuneCount(matcher.done))
      && (failed ==> |itemHashes| == maxItems)
    }

    /** The request as fed so far. */
    ghost function Offered(): Request
      requires matcher.pendingUTF8Len <= matcher.pendingUTF8.Length
      reads this, matcher, matcher.pendingUTF8
    {
      Streamed(deps.fold, op, toolCount, offered, matcher.fields, matcher.Field())
    }

    method AddToolCount(n: int)
      requires Valid()
      modifies this`toolCount
      ensures Valid() && toolCount == (if failed then old(toolCount) else old(toolCount) + n)
    {
      if failed { return; }
      toolCount := toolCount + n;
    }

    method FeedTextChunk(chunk: seq<byte>)
      requires Valid()
      modifies Repr()
      ensures Valid() && failed == old(failed) && offered == old(offered) && toolCount == old(toolCount)
      ensures matcher.fields == old(matcher.fields)
      ensures matcher.Field() == (if failed then old(matcher.Field()) else old(matcher.Field()) + chunk)
    {
      if failed || chunk == [] {
        assert matcher.Field() + [] == matcher.Field();
        return;
      }
      var runes := matcher.Feed(chunk);
      totalRunes := totalRunes + runes;
    }

    method EndField()
      requires Valid()
      modifies Repr()
      ensures Valid() && failed == old(failed) && offered == old(offered) && toolCount == old(toolCount)
      ensures !failed ==> matcher.fields == old(matcher.fields) + [old(matcher.Field())] && matcher.Field() == []
      ensures failed ==> matcher.fields == old(matcher.fields) && matcher.Field() == old(matcher.Field())
    {
      if failed { return; }
      assert (matcher.fields + [matcher.Field()])[..|matcher.fields|] == matcher.fields;
      var runes := matcher.EndField();
      totalRunes := totalRunes + runes;
    }

    method AddItemHash(h: Hash) returns (ok: bool)
      requires Valid()
      modifies this
      ensures Valid() && offered == old(offered) + [h] && toolCount == old(toolCount)
      ensures ok <==> maxItems <= 0 || |offered| <= maxItems
    {
      offered := offered + [h];
      if failed { return false; }
      if maxItems > 0 && |itemHashes| >= maxItems {
        failed := true;
        return false;
      }
      itemHashes := itemHashes + [h];
      itemCount := itemCount + 1;
      return true;
    }

    /** Build succeeds exactly if the budget was never exceeded; the facts then depend only on the
        texts, hashes and tools fed, not on how the texts were cut. */
    method Build() returns (ok: bool, facts: Option<Facts>)
      requires Valid()
      modifies Repr()
      ensures offered == old(offered) && (ok <==> maxItems <= 0 || |offered| <= maxItems)
      ensures ok ==> facts == Some(FactsOf(deps, old(Offered())))
      ensures !ok ==> facts == None
    {
      if failed { return false, None; }
      var runes := matcher.FlushPending();
      totalRunes := totalRunes + runes;
      var built := AssembleFacts(deps, op, toolCount, itemHashes, totalRunes, matcher, old(Offered()));
      return true, Some(built);
    }
  }

  // ----- Streaming equals batch -----

  /** `cuts[i]` cuts the i-th text of the call into chunks. */
  predicate Cuts(cuts: seq<seq<seq<byte>>>, texts: seq<seq<byte>>) {
    |cuts| == |texts| && forall i :: 0 <= i < |texts| ==> Concat(cuts[i]) == texts[i]
  }

  method FeedChunks(b: Builder, chunks: seq<seq<byte>>)
    requires b.Valid() && !b.failed && b.matcher.Field() == []
    modifies b.Repr()
    ensures b.Valid() && !b.failed && b.offered == old(b.offered) && b.toolCount == old(b.toolCount)
    ensures b.matcher.fields == old(b.matcher.fields) + [Concat(chunks)] && b.matcher.Field() == []
  {
    for i := 0 to |chunks|
      invariant b.Valid() && !b.failed && b.offered == old(b.offered) && b.toolCount == old(b.toolCount)
      invariant b.matcher.fields == old(b.matcher.fields) && b.matcher.Field() == Concat(chunks[..i])
    {
      assert chunks[..i + 1][..i] == chunks[..i];
      b.FeedTextChunk(chunks[i]);
    }
    assert chunks[..|chunks|] == chunks;
    b.EndField();
  }

  method FeedTexts(b: Builder, texts: seq<seq<byte>>, cuts: seq<seq<seq<byte>>>)
    requires b.Valid() && !b.failed && b.matcher.Field() == [] && b.matcher.fields == [] && Cuts(cuts, texts)
    modifies b.Repr()
    ensures b.Valid() && !b.failed && b.offered == old(b.offered) && b.toolCount == old(b.toolCount)
    ensures b.matcher.fields == NonEmpty(texts) && b.matcher.Field() == []
  {
    for i := 0 to |texts|
      invariant b.Valid() && !b.failed && b.offered == old(b.offered) && b.toolCount == old(b.toolCount)
      invariant b.matcher.fields == NonEmpty(texts[..i]) && b.matcher.Field() == []
    {
      TextsGrow(texts, i);
      if texts[i] != [] { FeedChunks(b, cuts[i]); }
    }
    assert texts[..|texts|] == texts;
  }

  method FeedItems(b: Builder, items: seq<Item>)
    requires b.Valid() && b.offered == []
    modifies b
    ensures b.Valid() && b.offered == Hashes(items)
    ensures !b.failed ==> b.toolCount == old(b.toolCount) + ToolCalls(items)
  {
    for i := 0 to |items|
      invariant b.Valid() && b.offered == Hashes(items[..i])
      invariant !b.failed ==> b.toolCount == old(b.toolCount) + ToolCalls(items[..i])
    {
      ItemsGrow(items, i);
      var ok := b.AddItemHash(items[i].hash);
      if items[i].isToolCall { b.AddToolCount(1); }
    }
    assert items[..|items|] == items;
  }

  method FeedCall(deps: Deps, call: Call, cuts: seq<seq<seq<byte>>>, maxItems: int) returns (b: Builder)
    requires Cuts(cuts, call.texts) && Fits(deps.markers)
    ensures fresh(b.Repr()) && b.Valid() && b.deps == deps && b.op == call.operation && b.maxItems == maxItems
    ensures b.offered == Hashes(call.items) && b.matcher.fields == NonEmpty(call.texts) && b.matcher.Field() == []
    ensures !b.failed ==> b.toolCount == call.tools + ToolCalls(call.items)
  {
    b := new Builder(deps, call.operation, maxItems);
    b.AddToolCount(call.tools);
    assert !b.failed;
    FeedTexts(b, call.texts, cuts);
    FeedItems(b, call.items);
  }

  /** A builder fed the texts of a call in any chunking, and its items and tools, succeeds exactly
      if the items fit the budget, and then has the facts of ExtractFactsFromCall. */
  method StreamCall(deps: Deps, call: Call, cuts: seq<seq<seq<byte>>>, maxItems: int)
    returns (ok: bool, facts: Option<Facts>)
    requires Cuts(cuts, call.texts) && deps.Sound()
    ensures ok <==> maxItems <= 0 || |call.items| <= maxItems
    ensures ok ==> facts == Some(CallFacts(deps, call))
    ensures ok ==> Counts(deps, call, facts.value) && FirstRule(deps, call, facts.value.startRule)
    ensures !ok ==> facts == None
  {
    FactsDescribeCall(deps, call);
    var b := FeedCall(deps, call, cuts, maxItems);
    ghost var request := b.Offered();
    EndedRequest(deps.fold, call.operation, b.toolCount, Hashes(call.items), NonEmpty(call.texts));
    assert !b.failed ==> request == CallRequest(deps.fold, call);
    ok, facts := b.Build();
  }
}
