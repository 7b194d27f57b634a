/**
 * The `scan` command's own computations: the `--threshold` filter and the
 * per-category rollup saved as the new scan snapshot.
 */
module CliScan {
  import opened Wrappers
  import opened Folds
  import opened Scanner
  import opened ScanCache
  import opened CliGroups
  import Config

  /** The key `filterByThreshold` keeps a target by. */
  function AtLeast(threshold: int): Target -> bool {
    (t: Target) => t.size >= threshold
  }

  /** `filterByThreshold`: the targets of at least `threshold` bytes, in their order. */
  method FilterByThreshold(targets: seq<Target>, threshold: int) returns (filtered: seq<Target>)
    ensures filtered == Select(targets, AtLeast(threshold), true)
  {
    filtered := [];
    for i := 0 to |targets|
      invariant filtered == Select(targets[..i], AtLeast(threshold), true)
    {
      assert targets[..i + 1] == targets[..i] + [targets[i]];
      SelectSnoc(targets[..i], targets[i], AtLeast(threshold), true);
      if targets[i].size >= threshold {
        filtered := filtered + [targets[i]];
      }
    }
    assert targets[..|targets|] == targets;
  }

  /** A target is kept exactly when it is one of the targets and reaches the threshold; the order is kept. */
  lemma ThresholdKeeps(targets: seq<Target>, threshold: int, t: Target)
    ensures var kept := Select(targets, AtLeast(threshold), true);
            && (t in kept <==> t in targets && t.size >= threshold)
            && IsSubseq(kept, targets)
  {
    SelectIsSubseq(targets, AtLeast(threshold), true);
    if t in targets {
      var i :| 0 <= i < |targets| && targets[i] == t;
    }
  }

  /** With no negative sizes, a zero threshold keeps every target. */
  lemma ZeroThresholdKeepsAll(targets: seq<Target>)
    requires forall i :: 0 <= i < |targets| ==> targets[i].size >= 0
    ensures Select(targets, AtLeast(0), true) == targets
  {
    forall i | 0 <= i < |targets|
      ensures AtLeast(0)(targets[i])
    {
      AtLeastApply(0, targets[i]);
    }
    SelectAll(targets, AtLeast(0), true);
  }

  lemma AtLeastApply(threshold: int, t: Target)
    ensures AtLeast(threshold)(t) == (t.size >= threshold)
  {
  }

  /**
   * The `--threshold` step: no threshold leaves the targets alone, a
   * threshold that does not parse is an error, and any other keeps the
   * targets of at least that many bytes.
   */
  method ApplyThreshold(targets: seq<Target>, threshold: string) returns (r: Result<seq<Target>, Config.SizeError>)
    ensures threshold == "" ==> r == Ok(targets)
    ensures threshold != "" && Config.SizeValue(threshold).Err? ==> r == Err(Config.SizeValue(threshold).error)
    ensures threshold != "" && Config.SizeValue(threshold).Ok? ==>
              r == Ok(Select(targets, AtLeast(Config.SizeValue(threshold).value), true))
  {
    if threshold == "" {
      return Ok(targets);
    }
    var bytes := Config.ParseSize(threshold);
    if bytes.Err? {
      return Err(bytes.error);
    }
    var filtered := FilterByThreshold(targets, bytes.value);
    return Ok(filtered);
  }

  // ---------------------------------------------------------------------------
  // The snapshot rollup
  // ---------------------------------------------------------------------------

  /** The snapshot entry of category `c`: its bytes and its number of targets. */
  function RollupOf(ts: seq<Target>, c: string): CategorySnapshot {
    CategorySnapshot(c, SumWhere(ts, TargetCategory, c, TargetSize), |Select(ts, TargetCategory, c)|)
  }

  /** At category `c`, `grouped` is the rollup of `ts`. */
  ghost predicate RollsUpAt(ts: seq<Target>, grouped: map<string, CategorySnapshot>, c: string) {
    && (c in grouped <==> Select(ts, TargetCategory, c) != [])
    && (c in grouped ==> grouped[c] == RollupOf(ts, c))
  }

  /** `grouped` maps each occurring category, and only those, to its rollup. */
  ghost predicate RollsUp(ts: seq<Target>, grouped: map<string, CategorySnapshot>) {
    forall c :: RollsUpAt(ts, grouped, c)
  }

  /** One step of the rollup loop: a missing entry starts at zero, then the target is added. */
  function AddTarget(grouped: map<string, CategorySnapshot>, t: Target): map<string, CategorySnapshot> {
    var cs := if t.category in grouped then grouped[t.category] else CategorySnapshot(t.category, 0, 0);
    grouped[t.category := CategorySnapshot(cs.name, cs.size + t.size, cs.items + 1)]
  }

  lemma RollupStep(front: seq<Target>, t: Target, grouped: map<string, CategorySnapshot>)
    requires RollsUp(front, grouped)
    ensures RollsUp(front + [t], AddTarget(grouped, t))
  {
    forall c
      ensures RollsUpAt(front + [t], AddTarget(grouped, t), c)
    {
      RollupStepAt(front, t, grouped, c);
    }
  }

  lemma RollupStepAt(front: seq<Target>, t: Target, grouped: map<string, CategorySnapshot>, c: string)
    requires RollsUpAt(front, grouped, c)
    ensures RollsUpAt(front + [t], AddTarget(grouped, t), c)
  {
    SelectSnoc(front, t, TargetCategory, c);
    SumWhereSnoc(front, t, TargetCategory, c, TargetSize);
  }

  /** The first loop of the rollup: the map from category to its entry. */
  method GroupSizes(targets: seq<Target>) returns (grouped: map<string, CategorySnapshot>)
    ensures RollsUp(targets, grouped)
  {
    grouped := map[];
    for i := 0 to |targets|
      invariant RollsUp(targets[..i], grouped)
    {
      var t := targets[i];
      assert targets[..i + 1] == targets[..i] + [t];
      RollupStep(targets[..i], t, grouped);
      var cs := if t.category in grouped then grouped[t.category] else CategorySnapshot(t.category, 0, 0);
      grouped := grouped[t.category := CategorySnapshot(cs.name, cs.size + t.size, cs.items + 1)];
    }
    assert targets[..|targets|] == targets;
  }

  /** A list of category entries that rolls up `ts`: one entry per occurring category. */
  ghost predicate RolledUp(ts: seq<Target>, cats: seq<CategorySnapshot>) {
    && DistinctNames(cats)
    && (forall c :: c in Names(cats) <==> Select(ts, TargetCategory, c) != [])
    && (forall i :: 0 <= i < |cats| ==> cats[i] == RollupOf(ts, cats[i].name))
  }

  /**
   * The rollup in `scanCmd`: per-category sizes and counts (in the
   * unspecified order of the map), the total of all sizes, and `now` as
   * its time.
   */
  method Rollup(targets: seq<Target>, now: int) returns (curr: Snapshot)
    ensures curr.timestamp == now
    ensures curr.totalSize == Sum(targets, TargetSize)
    ensures RolledUp(targets, curr.categories)
  {
    var grouped := GroupSizes(targets);
    var names := KeysInSomeOrder(grouped);
    var cats: seq<CategorySnapshot> := [];
    for j := 0 to |names|
      invariant |cats| == j
      invariant forall k :: 0 <= k < j ==> cats[k] == grouped[names[k]] && cats[k].name == names[k]
    {
      assert RollsUpAt(targets, grouped, names[j]);
      cats := cats + [grouped[names[j]]];
    }
    RolledUpFromKeys(targets, grouped, names, cats);
    var totalSize := SumSizes(targets);
    curr := Snapshot(now, cats, totalSize);
  }

  lemma RolledUpFromKeys(ts: seq<Target>, grouped: map<string, CategorySnapshot>, names: seq<string>, cats: seq<CategorySnapshot>)
    requires RollsUp(ts, grouped)
    requires Distinct(names) && forall k :: k in names <==> k in grouped
    requires |cats| == |names|
    requires forall k :: 0 <= k < |names| ==> cats[k] == grouped[names[k]] && cats[k].name == names[k]
    ensures RolledUp(ts, cats)
  {
    assert DistinctNames(cats) by {
      forall i, j | 0 <= i < j < |cats|
        ensures cats[i].name != cats[j].name
      {
        assert names[i] != names[j];
      }
    }
    forall i | 0 <= i < |cats|
      ensures cats[i] == RollupOf(ts, cats[i].name)
    {
      assert RollsUpAt(ts, grouped, names[i]);
    }
    forall c
      ensures c in Names(cats) <==> Select(ts, TargetCategory, c) != []
    {
      NamesFromKeys(ts, grouped, names, cats, c);
    }
  }

  lemma NamesFromKeys(ts: seq<Target>, grouped: map<string, CategorySnapshot>, names: seq<string>, cats: seq<CategorySnapshot>, c: string)
    requires RollsUpAt(ts, grouped, c)
    requires forall k :: k in names <==> k in grouped
    requires |cats| == |names|
    requires forall k :: 0 <= k < |names| ==> cats[k].name == names[k]
    ensures c in Names(cats) <==> Select(ts, TargetCategory, c) != []
  {
    if c in grouped {
      var k :| 0 <= k < |names| && names[k] == c;
      assert cats[k] in cats;
    }
    if c in Names(cats) {
      var x :| x in cats && x.name == c;
      var k :| 0 <= k < |cats| && cats[k] == x;
      assert names[k] == c;
    }
  }

  function CategorySize(c: CategorySnapshot): int { c.size }
  function CategoryItems(c: CategorySnapshot): int { c.items }
  function CategoryName(c: CategorySnapshot): string { c.name }

  /** The per-category sizes add up to the snapshot's total, and the counts to the number of targets. */
  lemma RollupTotals(ts: seq<Target>, cats: seq<CategorySnapshot>)
    requires RolledUp(ts, cats)
    ensures Sum(cats, CategorySize) == Sum(ts, TargetSize)
    ensures Sum(cats, CategoryItems) == |ts|
  {
    var names := Map(cats, CategoryName);
    RollupSumsAsGroups(ts, cats);
    assert Distinct(names);
    forall i | 0 <= i < |ts|
      ensures TargetCategory(ts[i]) in names
    {
      assert ts[i] in Select(ts, TargetCategory, ts[i].category);
      assert ts[i].category in Names(cats);
      var c :| c in cats && c.name == ts[i].category;
      var k :| 0 <= k < |cats| && cats[k] == c;
      assert names[k] == c.name;
    }
    SumGroupsTotal(names, ts, TargetCategory, TargetSize);
    SumGroupsCount(names, ts, TargetCategory);
  }

  lemma {:induction false} RollupSumsAsGroups(ts: seq<Target>, cats: seq<CategorySnapshot>)
    requires forall i :: 0 <= i < |cats| ==> cats[i] == RollupOf(ts, cats[i].name)
    ensures Sum(cats, CategorySize) == SumGroups(Map(cats, CategoryName), ts, TargetCategory, TargetSize)
    ensures Sum(cats, CategoryItems) == SumGroups(Map(cats, CategoryName), ts, TargetCategory, One)
  {
    if cats != [] {
      var front := cats[..|cats| - 1];
      var last := cats[|cats| - 1];
      RollupSumsAsGroups(ts, front);
      assert Map(cats, CategoryName)[..|cats| - 1] == Map(front, CategoryName);
      SumOneIsLength(Select(ts, TargetCategory, last.name));
    }
  }
}
