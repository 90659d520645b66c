/** The cache-retention planner (scripts/prune-go-caches.py). A key is given by what its pattern
    captured; the textual patterns themselves are not modelled. */
module CacheRetention {
  import opened Options

  datatype Os = Linux | Windows | MacOS
  datatype Family = Ci | Qa | BackendPlugin | Acp | Cost

  datatype Key =
    | Snapshot(family: Family, os: Os, arch: string, job: string)
    | Legacy(family: Family, os: Os)
    | BuildV3(lane: string, os: Os, arch: string)
    | ModuleV3(lane: string, os: Os)
    | ModuleShared
    | SetupGo(os: Os)
    | Linter(version: string)
    | Unknown

  /** `pr` is the number of a pull-request merge ref. */
  datatype Ref = Ref(name: string, pr: Option<nat>)

  /** `accessed` is the last access, or the creation time where the entry has none. */
  datatype Cache = Cache(id: nat, key: Key, ref: Ref, created: int, accessed: int, size: nat)

  // ----- Specification of the supersession phases -----

  predicate Owned(c: Cache) {
    !c.key.Linter? && !c.key.Unknown?
  }

  predicate Open(openPrs: set<nat>, r: Ref) {
    r.pr.Some? ==> r.pr.value in openPrs
  }

  datatype GroupFamily = Combined(family: Family) | Builds | Modules | SharedModules

  datatype Group = Group(family: GroupFamily, os: Option<Os>, arch: string, job: string, ref: Ref)

  function GroupOf(c: Cache): Option<Group> {
    match c.key
    case Snapshot(family, os, arch, job) => Some(Group(Combined(family), Some(os), arch, job, c.ref))
    case BuildV3(lane, os, arch) => Some(Group(Builds, Some(os), arch, lane, c.ref))
    case ModuleV3(lane, os) => Some(Group(Modules, Some(os), "any", lane, c.ref))
    case ModuleShared => Some(Group(SharedModules, None, "any", "modules", c.ref))
    case _ => None
  }

  /** The newest snapshot is the one created last; ties go to the greater id. */
  predicate Newer(a: Cache, b: Cache) {
    a.created > b.created || (a.created == b.created && a.id > b.id)
  }

  function FamilyName(f: Family): string {
    match f
    case Ci => "ci"
    case Qa => "qa"
    case BackendPlugin => "backend-plugin"
    case Acp => "acp"
    case Cost => "cost"
  }

  function FamilyOfLane(lane: string): string {
    if lane == "ci-unit" || lane == "ci-db" then "ci" else lane
  }

  /** A producer that replaces legacy snapshots of this family, OS and ref. */
  predicate Replaces(c: Cache, family: Family, os: Os, ref: Ref) {
    c.ref == ref &&
    match c.key
    case Snapshot(f, o, _, _) => f == family && o == os
    case BuildV3(lane, o, _) => FamilyOfLane(lane) == FamilyName(family) && o == os
    case ModuleV3(lane, o) => FamilyOfLane(lane) == FamilyName(family) && o == os
    case _ => false
  }

  predicate BuildsLane(c: Cache, family: Family, os: Os, ref: Ref) {
    c.ref == ref && c.key.BuildV3? && FamilyOfLane(c.key.lane) == FamilyName(family) && c.key.os == os
  }

  predicate Outdated(caches: set<Cache>, openPrs: set<nat>, c: Cache) {
    GroupOf(c).Some? && exists d :: d in caches && Open(openPrs, d.ref) && GroupOf(d) == GroupOf(c) && Newer(d, c)
  }

  predicate Retired(caches: set<Cache>, c: Cache) {
    match c.key
    case Legacy(family, os) => exists d :: d in caches && Replaces(d, family, os, c.ref)
    case ModuleV3(_, _) => exists d :: d in caches && d.key.ModuleShared? && d.ref == c.ref
    case SetupGo(os) => exists d :: d in caches && d.key.BuildV3? && d.key.os == os && d.ref == c.ref
    case Snapshot(family, os, _, _) => exists d :: d in caches && BuildsLane(d, family, os, c.ref)
    case _ => false
  }

  predicate OldLinter(caches: set<Cache>, c: Cache) {
    c.key.Linter? && exists d :: d in caches && d.key == c.key && Newer(d, c)
  }

  /** What the phases before the budget give up. */
  predicate Superseded(caches: set<Cache>, openPrs: set<nat>, c: Cache) {
    || (Owned(c) && (!Open(openPrs, c.ref) || Outdated(caches, openPrs, c) || Retired(caches, c)))
    || OldLinter(caches, c)
  }

  // ----- Every live ref keeps a snapshot -----

  /** Every non-empty set of caches has a newest one. */
  lemma {:induction false} NewestExists(caches: set<Cache>) returns (n: Cache)
    requires caches != {} && UniqueIds(caches)
    ensures n in caches && forall d :: d in caches ==> !Newer(d, n)
    decreases |caches|
  {
    var c :| c in caches;
    if caches == {c} {
      return c;
    }
    var rest := caches - {c};
    assert rest != {};
    var m := NewestExists(rest);
    n := if Newer(c, m) then c else m;
    forall d | d in caches ensures !Newer(d, n) {
      assert d != c ==> !Newer(d, m);
    }
  }

  predicate UniqueIds(caches: set<Cache>) {
    forall c, d :: c in caches && d in caches && c.id == d.id ==> c == d
  }

  /** In a group of an open ref, one snapshot is not outdated. */
  lemma GroupKeepsNewest(caches: set<Cache>, openPrs: set<nat>, c: Cache) returns (n: Cache)
    requires UniqueIds(caches) && c in caches && Open(openPrs, c.ref) && GroupOf(c).Some?
    ensures n in caches && GroupOf(n) == GroupOf(c) && n.ref == c.ref && !Outdated(caches, openPrs, n)
  {
    var group := set d | d in caches && Open(openPrs, d.ref) && GroupOf(d) == GroupOf(c);
    assert c in group;
    n := NewestExists(group);
  }

  predicate HasBuild(caches: set<Cache>, r: Ref) {
    exists d :: d in caches && d.ref == r && d.key.BuildV3?
  }

  predicate HasShared(caches: set<Cache>, r: Ref) {
    exists d :: d in caches && d.ref == r && d.key.ModuleShared?
  }

  predicate HasProducer(caches: set<Cache>, r: Ref) {
    exists d :: d in caches && d.ref == r && (d.key.BuildV3? || d.key.ModuleV3? || d.key.Snapshot?)
  }

  predicate Survives(caches: set<Cache>, openPrs: set<nat>, c: Cache) {
    c in caches && Owned(c) && !Superseded(caches, openPrs, c)
  }

  /** Every ref that is no closed pull request and owns a snapshot keeps one: each retirement rule
      asks for a replacement on the same ref that no rule gives up. */
  lemma EveryOpenRefKeepsOne(caches: set<Cache>, openPrs: set<nat>, c: Cache) returns (kept: Cache)
    requires UniqueIds(caches) && c in caches && Owned(c) && Open(openPrs, c.ref)
    ensures Survives(caches, openPrs, kept) && kept.ref == c.ref
  {
    var r := c.ref;
    if HasBuild(caches, r) {
      var d :| d in caches && d.ref == r && d.key.BuildV3?;
      kept := GroupKeepsNewest(caches, openPrs, d);
    } else if HasShared(caches, r) {
      var d :| d in caches && d.ref == r && d.key.ModuleShared?;
      kept := GroupKeepsNewest(caches, openPrs, d);
    } else if HasProducer(caches, r) {
      var d :| d in caches && d.ref == r && (d.key.BuildV3? || d.key.ModuleV3? || d.key.Snapshot?);
      kept := GroupKeepsNewest(caches, openPrs, d);
    } else {
      kept := c;
    }
  }

  // ----- The budget phase -----

  const MainRef := "refs/heads/main"

  function OsOf(c: Cache): Option<Os> {
    match c.key
    case Snapshot(_, os, _, _) => Some(os)
    case Legacy(_, os) => Some(os)
    case BuildV3(_, os, _) => Some(os)
    case ModuleV3(_, os) => Some(os)
    case SetupGo(os) => Some(os)
    case _ => None
  }

  /** Branch caches yield first, then main baselines of other platforms. */
  function Tier(c: Cache): nat {
    if c.ref.name != MainRef then (if OsOf(c) == None || OsOf(c) == Some(Linux) then 1 else 0)
    else if OsOf(c) == None || OsOf(c) == Some(Linux) then 3 else 2
  }

  /** The eviction order: tier, then least recent access, then id. */
  predicate Before(a: Cache, b: Cache) {
    Tier(a) < Tier(b) ||
    (Tier(a) == Tier(b) && (a.accessed < b.accessed || (a.accessed == b.accessed && a.id <= b.id)))
  }

  predicate Sorted(s: seq<Cache>) {
    forall i, j :: 0 <= i < j < |s| ==> Before(s[i], s[j])
  }

  function Total(s: seq<Cache>): nat {
    if s == [] then 0 else s[0].size + Total(s[1..])
  }

  function Insert(s: seq<Cache>, c: Cache): seq<Cache> {
    if s == [] || Before(c, s[0]) then [c] + s else [s[0]] + Insert(s[1..], c)
  }

  lemma {:induction false} InsertAdds(s: seq<Cache>, c: Cache)
    ensures multiset(Insert(s, c)) == multiset(s) + multiset{c}
  {
    if s == [] || Before(c, s[0]) {
    } else {
      InsertAdds(s[1..], c);
      assert s == [s[0]] + s[1..];
    }
  }

  lemma {:induction false} InsertSorts(s: seq<Cache>, c: Cache)
    requires Sorted(s)
    ensures Sorted(Insert(s, c))
  {
    if s == [] || Before(c, s[0]) {
    } else {
      InsertSorts(s[1..], c);
      InsertAdds(s[1..], c);
      var t := Insert(s[1..], c);
      forall j | 0 <= j < |t| ensures Before(s[0], t[j]) {
        assert t[j] in multiset(t);
        assert t[j] in s[1..] || t[j] == c;
      }
    }
  }

  method SortForEviction(survivors: seq<Cache>) returns (sorted: seq<Cache>)
    ensures Sorted(sorted) && multiset(sorted) == multiset(survivors)
  {
    sorted := [];
    for i := 0 to |survivors|
      invariant Sorted(sorted) && multiset(sorted) == multiset(survivors[..i])
    {
      InsertSorts(sorted, survivors[i]);
      InsertAdds(sorted, survivors[i]);
      assert survivors[..i + 1] == survivors[..i] + [survivors[i]];
      sorted := Insert(sorted, survivors[i]);
    }
    assert survivors[..|survivors|] == survivors;
  }

  /** Evicts from the front while the rest is over budget: the shortest prefix that brings the
      total within the budget, or everything if none does. */
  method EvictToBudget(sorted: seq<Cache>, byteBudget: int) returns (k: nat)
    ensures k <= |sorted|
    ensures Total(sorted[k..]) <= byteBudget || k == |sorted|
    ensures forall j :: 0 <= j < k ==> Total(sorted[j..]) > byteBudget
  {
    var total := Total(sorted);
    k := 0;
    assert sorted[0..] == sorted;
    while k < |sorted| && total > byteBudget
      invariant k <= |sorted| && total == Total(sorted[k..])
      invariant forall j :: 0 <= j < k ==> Total(sorted[j..]) > byteBudget
    {
      assert sorted[k..][1..] == sorted[k + 1..];
      total := total - sorted[k].size;
      k := k + 1;
    }
  }

  // ----- The whole plan -----

  function AsSet(caches: seq<Cache>): set<Cache> {
    set c | c in caches
  }

  function Ids(caches: set<Cache>): set<nat> {
    set c | c in caches :: c.id
  }

  predicate InGroup<K(==)>(caches: seq<Cache>, keyOf: Cache -> Option<K>, g: K, c: Cache) {
    c in caches && keyOf(c) == Some(g)
  }

  /** Buckets the caches that have a group. */
  method CollectGroups<K(==)>(caches: seq<Cache>, keyOf: Cache -> Option<K>) returns (groups: map<K, seq<Cache>>)
    ensures forall g, c :: g in groups ==> (c in groups[g] <==> InGroup(caches, keyOf, g, c))
    ensures forall g, c :: InGroup(caches, keyOf, g, c) ==> g in groups
  {
    groups := map[];
    for i := 0 to |caches|
      invariant forall g, c :: g in groups ==> (c in groups[g] <==> InGroup(caches[..i], keyOf, g, c))
      invariant forall g, c :: InGroup(caches[..i], keyOf, g, c) ==> g in groups
    {
      var c := caches[i];
      ghost var front, next := caches[..i], caches[..i + 1];
      assert next == front + [c];
      forall g, x
        ensures InGroup(next, keyOf, g, x) <==> InGroup(front, keyOf, g, x) || (x == c && InGroup([c], keyOf, g, x))
      {
      }
      ghost var before := groups;
      if keyOf(c).Some? {
        var g := keyOf(c).value;
        groups := groups[g := (if g in groups then groups[g] else []) + [c]];
      }
      forall g, x | g in groups ensures x in groups[g] <==> InGroup(next, keyOf, g, x) {
        assert g in before ==> (x in before[g] <==> InGroup(front, keyOf, g, x));
        assert InGroup(front, keyOf, g, x) ==> g in before;
      }
    }
    assert caches[..|caches|] == caches;
  }

  /** All but the newest entry of a group. */
  method Older(entries: seq<Cache>) returns (older: set<Cache>)
    requires UniqueIds(AsSet(entries))
    ensures forall c :: c in older <==> c in entries && exists d :: d in entries && Newer(d, c)
  {
    older := {};
    if entries == [] {
      return;
    }
    var newest := entries[0];
    for i := 1 to |entries|
      invariant newest in entries[..i]
      invariant forall c :: c in entries[..i] ==> !Newer(c, newest)
    {
      assert entries[..i + 1] == entries[..i] + [entries[i]];
      var was := newest;
      if Newer(entries[i], newest) { newest := entries[i]; }
      forall c | c in entries[..i + 1] ensures !Newer(c, newest) {
        assert c in entries[..i] ==> !Newer(c, was);
      }
    }
    assert entries[..|entries|] == entries;
    older := set c | c in entries && c != newest;
    forall c | c in older ensures Newer(newest, c) {
      assert c in AsSet(entries) && newest in AsSet(entries) && !Newer(c, newest);
    }
  }

  /** The caches that have a newer one in their group, except for the groups in `keys`. */
  function OlderThan<K(==)>(caches: seq<Cache>, keyOf: Cache -> Option<K>, keys: set<K>): set<Cache> {
    set c | c in caches && keyOf(c).Some? && keyOf(c).value !in keys &&
            exists d :: d in caches && keyOf(d) == keyOf(c) && Newer(d, c)
  }

  lemma OneGroup<K>(caches: seq<Cache>, keyOf: Cache -> Option<K>, g: K, entries: seq<Cache>, older: set<Cache>,
                    keys: set<K>)
    requires forall c :: c in entries <==> InGroup(caches, keyOf, g, c)
    requires forall c :: c in older <==> c in entries && exists d :: d in entries && Newer(d, c)
    requires g in keys
    ensures OlderThan(caches, keyOf, keys - {g}) == OlderThan(caches, keyOf, keys) + older
  {
    forall c | c in caches && keyOf(c) == Some(g)
      ensures c in older <==> exists d :: d in caches && keyOf(d) == keyOf(c) && Newer(d, c)
    {
      assert InGroup(caches, keyOf, g, c);
      if d :| d in caches && keyOf(d) == keyOf(c) && Newer(d, c) {
        assert InGroup(caches, keyOf, g, d);
      }
    }
    forall c | c in older ensures InGroup(caches, keyOf, g, c) {}
  }

  /** Groups the caches and gives up all but the newest of each group. */
  method OlderOnes<K(==)>(caches: seq<Cache>, keyOf: Cache -> Option<K>) returns (older: set<Cache>)
    requires UniqueIds(AsSet(caches))
    ensures older == OlderThan(caches, keyOf, {})
  {
    var groups := CollectGroups(caches, keyOf);
    older := {};
    var keys := groups.Keys;
    forall c | c in OlderThan(caches, keyOf, keys) ensures false {
      assert InGroup(caches, keyOf, keyOf(c).value, c);
    }
    while keys != {}
      invariant keys <= groups.Keys
      invariant older == OlderThan(caches, keyOf, keys)
    {
      var g :| g in keys;
      assert forall c :: c in groups[g] ==> InGroup(caches, keyOf, g, c);
      assert forall c :: c in AsSet(groups[g]) ==> c in AsSet(caches);
      var entries := Older(groups[g]);
      OneGroup(caches, keyOf, g, groups[g], entries, keys);
      older := older + entries;
      keys := keys - {g};
    }
  }

  // ----- Replacement lanes -----

  datatype Lane = Lane(family: string, os: Os, ref: Ref)

  /** The lane a snapshot produces for. */
  function LaneOf(c: Cache): Option<Lane> {
    match c.key
    case Snapshot(family, os, _, _) => Some(Lane(FamilyName(family), os, c.ref))
    case BuildV3(lane, os, _) => Some(Lane(FamilyOfLane(lane), os, c.ref))
    case ModuleV3(lane, os) => Some(Lane(FamilyOfLane(lane), os, c.ref))
    case _ => None
  }

  lemma FamilyNamesDiffer(f: Family, g: Family)
    ensures FamilyName(f) == FamilyName(g) <==> f == g
  {
    if f != g {
      assert |FamilyName(f)| != |FamilyName(g)| || FamilyName(f)[0] != FamilyName(g)[0];
    }
  }

  /** The lanes that open refs have a producer for. */
  method Replacements(caches: seq<Cache>, openPrs: set<nat>) returns (lanes: set<Lane>)
    ensures lanes == set c | c in caches && Open(openPrs, c.ref) && LaneOf(c).Some? :: LaneOf(c).value
  {
    lanes := {};
    for i := 0 to |caches|
      invariant lanes == set c | c in caches[..i] && Open(openPrs, c.ref) && LaneOf(c).Some? :: LaneOf(c).value
    {
      assert caches[..i + 1] == caches[..i] + [caches[i]];
      if Open(openPrs, caches[i].ref) && LaneOf(caches[i]).Some? {
        lanes := lanes + {LaneOf(caches[i]).value};
      }
    }
    assert caches[..|caches|] == caches;
  }

  /** The lanes with a bounded compiler producer. */
  method V3Lanes(caches: seq<Cache>) returns (lanes: set<Lane>)
    ensures lanes == set c | c in caches && c.key.BuildV3? :: LaneOf(c).value
  {
    lanes := {};
    for i := 0 to |caches|
      invariant lanes == set c | c in caches[..i] && c.key.BuildV3? :: LaneOf(c).value
    {
      assert caches[..i + 1] == caches[..i] + [caches[i]];
      if caches[i].key.BuildV3? {
        lanes := lanes + {LaneOf(caches[i]).value};
      }
    }
    assert caches[..|caches|] == caches;
  }

  /** What the collected lanes and refs say of one snapshot. */
  predicate Replaced(c: Cache, replacements: set<Lane>, v3: set<Lane>, sharedRefs: set<Ref>) {
    match c.key
    case Legacy(family, os) => Lane(FamilyName(family), os, c.ref) in replacements
    case ModuleV3(_, _) => c.ref in sharedRefs
    case SetupGo(os) => exists l :: l in v3 && l.os == os && l.ref == c.ref
    case Snapshot(family, os, _, _) => Lane(FamilyName(family), os, c.ref) in v3
    case _ => false
  }

  lemma ReplacesIsLane(d: Cache, family: Family, os: Os, ref: Ref)
    ensures Replaces(d, family, os, ref) <==> LaneOf(d) == Some(Lane(FamilyName(family), os, ref))
    ensures BuildsLane(d, family, os, ref) <==> d.key.BuildV3? && LaneOf(d) == Some(Lane(FamilyName(family), os, ref))
  {
    if d.key.Snapshot? { FamilyNamesDiffer(d.key.family, family); }
  }

  lemma ReplacedIsRetired(caches: seq<Cache>, openPrs: set<nat>, c: Cache, replacements: set<Lane>, v3: set<Lane>,
                          sharedRefs: set<Ref>)
    requires Open(openPrs, c.ref)
    requires replacements == set d | d in caches && Open(openPrs, d.ref) && LaneOf(d).Some? :: LaneOf(d).value
    requires v3 == set d | d in caches && d.key.BuildV3? :: LaneOf(d).value
    requires sharedRefs == set d | d in caches && d.key.ModuleShared? :: d.ref
    ensures Replaced(c, replacements, v3, sharedRefs) <==> Retired(AsSet(caches), c)
  {
    match c.key
    case Legacy(family, os) =>
      forall d | d in caches
        ensures Replaces(d, family, os, c.ref) <==> LaneOf(d) == Some(Lane(FamilyName(family), os, c.ref))
      {
        ReplacesIsLane(d, family, os, c.ref);
      }
    case Snapshot(family, os, _, _) =>
      forall d | d in caches
        ensures BuildsLane(d, family, os, c.ref) <==>
                  d.key.BuildV3? && LaneOf(d) == Some(Lane(FamilyName(family), os, c.ref))
      {
        ReplacesIsLane(d, family, os, c.ref);
      }
    case SetupGo(os) =>
      forall d | d in caches && d.key.BuildV3? ensures LaneOf(d).value in v3 {}
    case _ =>
  }

  /** Retires what a producer on the same ref replaced, and everything of closed pull requests. */
  method RetiredOnes(caches: seq<Cache>, openPrs: set<nat>) returns (retired: set<Cache>)
    ensures retired == set c | c in caches && Owned(c) && (!Open(openPrs, c.ref) || Retired(AsSet(caches), c))
  {
    var replacements := Replacements(caches, openPrs);
    var v3 := V3Lanes(caches);
    var sharedRefs := set c | c in caches && c.key.ModuleShared? :: c.ref;
    retired := {};
    for i := 0 to |caches|
      invariant retired == set c | c in caches[..i] && Owned(c) && (!Open(openPrs, c.ref) || Retired(AsSet(caches), c))
    {
      var c := caches[i];
      assert caches[..i + 1] == caches[..i] + [c];
      if Open(openPrs, c.ref) { ReplacedIsRetired(caches, openPrs, c, replacements, v3, sharedRefs); }
      if Owned(c) && (!Open(openPrs, c.ref) || Replaced(c, replacements, v3, sharedRefs)) {
        retired := retired + {c};
      }
    }
    assert caches[..|caches|] == caches;
  }

  predicate Distinct(caches: seq<Cache>) {
    forall i, j :: 0 <= i < j < |caches| ==> caches[i].id != caches[j].id
  }

  method Survivors(caches: seq<Cache>, obsolete: set<nat>) returns (survivors: seq<Cache>)
    requires Distinct(caches)
    ensures Distinct(survivors) && forall c :: c in survivors <==> c in caches && Owned(c) && c.id !in obsolete
  {
    survivors := [];
    for i := 0 to |caches|
      invariant Distinct(survivors)
      invariant forall c :: c in survivors <==> c in caches[..i] && Owned(c) && c.id !in obsolete
    {
      assert caches[..i + 1] == caches[..i] + [caches[i]];
      if Owned(caches[i]) && caches[i].id !in obsolete {
        forall k | 0 <= k < |survivors| ensures survivors[k].id != caches[i].id {
          assert survivors[k] in caches[..i];
        }
        survivors := survivors + [caches[i]];
      }
    }
    assert caches[..|caches|] == caches;
  }

  lemma DistinctIsUnique(caches: seq<Cache>)
    requires Distinct(caches)
    ensures UniqueIds(AsSet(caches))
  {
  }

  /** The groups of snapshots of open refs, and of linter caches. */
  function SnapshotGroup(openPrs: set<nat>): Cache -> Option<Group> {
    (c: Cache) => if Open(openPrs, c.ref) then GroupOf(c) else None
  }

  function LinterGroup(): Cache -> Option<string> {
    (c: Cache) => if c.key.Linter? then Some(c.key.version) else None
  }

  lemma ById(caches: set<Cache>, gone: set<Cache>, c: Cache)
    requires UniqueIds(caches) && gone <= caches && c in caches
    ensures c.id in Ids(gone) <==> c in gone
  {
    if c.id in Ids(gone) {
      var d :| d in gone && d.id == c.id;
      assert d in caches && d == c;
    }
  }

  /** Everything the phases before the budget give up, by id. */
  method SupersededIds(caches: seq<Cache>, openPrs: set<nat>) returns (obsolete: set<nat>)
    requires Distinct(caches)
    ensures forall c :: c in caches ==> (c.id in obsolete <==> Superseded(AsSet(caches), openPrs, c))
  {
    DistinctIsUnique(caches);
    var outdated := OlderOnes(caches, SnapshotGroup(openPrs));
    var retired := RetiredOnes(caches, openPrs);
    var linters := OlderOnes(caches, LinterGroup());
    var gone := outdated + retired + linters;
    obsolete := Ids(gone);
    forall c | c in caches ensures c.id in obsolete <==> Superseded(AsSet(caches), openPrs, c) {
      GoneIsSuperseded(caches, openPrs, c);
      ById(AsSet(caches), gone, c);
    }
  }

  lemma OutdatedIsOlder(caches: seq<Cache>, openPrs: set<nat>, c: Cache)
    requires c in caches && Open(openPrs, c.ref)
    ensures c in OlderThan(caches, SnapshotGroup(openPrs), {}) <==> Outdated(AsSet(caches), openPrs, c)
  {
    var keyOf := SnapshotGroup(openPrs);
    forall d | d in caches
      ensures keyOf(d) == keyOf(c) && keyOf(c).Some? <==>
                Open(openPrs, d.ref) && GroupOf(d) == GroupOf(c) && GroupOf(c).Some?
    {
    }
  }

  lemma LinterIsOlder(caches: seq<Cache>, c: Cache)
    requires c in caches
    ensures c in OlderThan(caches, LinterGroup(), {}) <==> OldLinter(AsSet(caches), c)
  {
    var keyOf := LinterGroup();
    forall d | d in caches ensures keyOf(d) == keyOf(c) && keyOf(c).Some? <==> d.key == c.key && c.key.Linter? {}
  }

  lemma GoneIsSuperseded(caches: seq<Cache>, openPrs: set<nat>, c: Cache)
    requires c in caches
    ensures Superseded(AsSet(caches), openPrs, c) <==>
              || c in OlderThan(caches, SnapshotGroup(openPrs), {})
              || (Owned(c) && (!Open(openPrs, c.ref) || Retired(AsSet(caches), c)))
              || c in OlderThan(caches, LinterGroup(), {})
  {
    assert GroupOf(c).Some? ==> Owned(c);
    LinterIsOlder(caches, c);
    if Open(openPrs, c.ref) { OutdatedIsOlder(caches, openPrs, c); }
  }

  // ----- What the plan promises of single caches -----

  /** A key whose entries are copies of one another on the same ref. */
  predicate Repeats(key: Key) {
    !key.Legacy? && !key.SetupGo? && !key.Unknown?
  }

  predicate OlderCopy(c: Cache, d: Cache) {
    d.key == c.key && d.ref == c.ref && Repeats(c.key) && d.created > c.created
  }

  /** An older copy is superseded. */
  lemma OlderCopyGoes(caches: set<Cache>, openPrs: set<nat>, c: Cache, d: Cache)
    requires c in caches && d in caches && OlderCopy(c, d)
    ensures Superseded(caches, openPrs, c)
  {
    assert Newer(d, c) && GroupOf(d) == GroupOf(c);
  }

  /** `d` makes `c` superfluous on their ref: a snapshot or bounded cache of its family and platform
      for a legacy one, a shared module cache for a lane's, a bounded build cache for one of setup-go
      or for a combined snapshot of its family. */
  predicate Supplants(d: Cache, c: Cache) {
    d.ref == c.ref &&
    match c.key
    case Legacy(family, os) =>
      || (d.key.Snapshot? && d.key.family == family && d.key.os == os)
      || (d.key.BuildV3? && FamilyOfLane(d.key.lane) == FamilyName(family) && d.key.os == os)
      || (d.key.ModuleV3? && FamilyOfLane(d.key.lane) == FamilyName(family) && d.key.os == os)
    case ModuleV3(_, _) => d.key.ModuleShared?
    case SetupGo(os) => d.key.BuildV3? && d.key.os == os
    case Snapshot(family, os, _, _) =>
      d.key.BuildV3? && FamilyOfLane(d.key.lane) == FamilyName(family) && d.key.os == os
    case _ => false
  }

  /** The planner's own caches go exactly if their pull request is closed, a newer one of their group
      is kept on an open ref, or another cache of their ref supplants them. */
  lemma SupersessionIsExact(caches: set<Cache>, openPrs: set<nat>, c: Cache)
    requires c in caches && Owned(c)
    ensures Superseded(caches, openPrs, c) <==>
              || (c.ref.pr.Some? && c.ref.pr.value !in openPrs)
              || Outdated(caches, openPrs, c)
              || (exists d :: d in caches && Supplants(d, c))
  {
    match c.key
    case Legacy(family, os) =>
      assert forall d :: d in caches ==> (Supplants(d, c) <==> Replaces(d, family, os, c.ref));
    case Snapshot(family, os, _, _) =>
      assert forall d :: d in caches ==> (Supplants(d, c) <==> BuildsLane(d, family, os, c.ref));
    case _ =>
  }

  /** The last linter cache of its version stays, whatever its ref, and so does what the planner does
      not know. */
  lemma StrangersStay(caches: set<Cache>, openPrs: set<nat>, c: Cache)
    requires c.key.Unknown? || c.key.Linter?
    requires forall d :: d in caches && d.key == c.key && d != c ==> d.created < c.created
    ensures !Superseded(caches, openPrs, c)
  {
  }

  predicate OnMain(c: Cache) {
    c.ref.name == "refs/heads/main"
  }

  /** A cache for Linux, or for every platform. */
  predicate ForLinux(c: Cache) {
    OsOf(c).None? || OsOf(c).value.Linux?
  }

  /** Main yields last, and there Linux and portable caches do; otherwise the least recently used goes
      first. */
  predicate YieldsFirst(c: Cache, kept: Cache) {
    && (OnMain(c) ==> OnMain(kept))
    && (OnMain(c) && ForLinux(c) ==> ForLinux(kept))
    && (OnMain(c) == OnMain(kept) && ForLinux(c) == ForLinux(kept) ==> c.accessed <= kept.accessed)
  }

  lemma EvictionOrder(c: Cache, kept: Cache)
    requires Before(c, kept)
    ensures YieldsFirst(c, kept)
  {
  }

  /** obsolete_snapshots: what is superseded, and then the shortest prefix of the rest, in eviction
      order, that brings its total within the budget; nothing is evicted while something that yields
      before it is kept. */
  method ObsoleteSnapshots(caches: seq<Cache>, openPrs: set<nat>, byteBudget: int)
    returns (obsolete: set<nat>, order: seq<Cache>, k: nat)
    requires Distinct(caches)
    ensures Sorted(order) && forall c :: c in order <==> Survives(AsSet(caches), openPrs, c)
    ensures k <= |order| && (Total(order[k..]) <= byteBudget || k == |order|)
    ensures forall j :: 0 <= j < k ==> Total(order[j..]) > byteBudget
    ensures forall c :: c in caches ==> (c.id in obsolete <==> Superseded(AsSet(caches), openPrs, c) || c in order[..k])
    ensures forall c, d :: c in order && d in order && c.id in obsolete && d.id !in obsolete ==>
              Before(c, d) && YieldsFirst(c, d)
    ensures forall c, d :: c in caches && d in caches && OlderCopy(c, d) ==> c.id in obsolete
    ensures forall c :: c in caches && c.key.Unknown? ==> c.id !in obsolete
  {
    var superseded := SupersededIds(caches, openPrs);
    var survivors := Survivors(caches, superseded);
    order := SortForEviction(survivors);
    k := EvictToBudget(order, byteBudget);
    obsolete := superseded + Ids(AsSet(order[..k]));
    forall c ensures c in order <==> c in survivors {
      assert c in order <==> c in multiset(order);
      assert c in survivors <==> c in multiset(survivors);
    }
    DistinctIsUnique(caches);
    forall c | c in caches ensures c.id in obsolete <==> Superseded(AsSet(caches), openPrs, c) || c in order[..k] {
      if c.id in Ids(AsSet(order[..k])) {
        var d :| d in AsSet(order[..k]) && d.id == c.id;
        assert d in order && d in AsSet(caches) && c in AsSet(caches);
      }
      if c in order[..k] { assert c in AsSet(order[..k]); }
    }
    forall c, d | c in order && d in order && c.id in obsolete && d.id !in obsolete
      ensures Before(c, d) && YieldsFirst(c, d)
    {
      assert c in order[..k] && d !in order[..k];
      EvictionOrder(c, d);
    }
    forall c, d | c in caches && d in caches && OlderCopy(c, d) ensures c.id in obsolete {
      OlderCopyGoes(AsSet(caches), openPrs, c, d);
    }
  }
}
