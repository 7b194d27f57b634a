/**
 * The JSON documents of the `scan`, `dupes` and `uninstall` commands, as the
 * values handed to the encoder. The encoding itself is not modelled; the
 * build version and the current time are parameters.
 */
module CliJson {
  import opened Wrappers
  import opened Folds
  import opened Scanner
  import opened ScanCache
  import opened CliGroups
  import opened CliRisk
  import Dupes

  datatype TargetJson = TargetJson(path: string, size: int, risk: string)

  datatype ScanCategoryJson = ScanCategoryJson(
    name: string,
    size: int,
    items: int,
    risk: string,
    targets: seq<TargetJson>)

  datatype RiskJson = RiskJson(safe: int, moderate: int, risky: int)

  datatype DiffJson = DiffJson(previousTimestamp: int, totalDelta: int, categories: map<string, CategoryDiff>)

  /** `diff` is absent from the document exactly when there is no diff. */
  datatype ScanJson = ScanJson(
    version: string,
    timestamp: int,
    categories: seq<ScanCategoryJson>,
    totalSize: int,
    totalItems: int,
    riskSummary: RiskJson,
    diff: Option<DiffJson>)

  function ToTargetJson(t: Target): TargetJson {
    TargetJson(t.path, t.size, RiskString(t.risk))
  }

  function JsonSize(t: TargetJson): int { t.size }
  function JsonCategoryName(c: ScanCategoryJson): string { c.name }
  function JsonCategorySize(c: ScanCategoryJson): int { c.size }
  function JsonCategoryItems(c: ScanCategoryJson): int { c.items }

  /**
   * The dominant risk of a category: the largest risk of its targets, or the
   * zero level when none exceeds it (the loop starts from the zero value).
   */
  function MaxRisk(ts: seq<Target>): (m: RiskLevel)
    ensures m >= Safe
    ensures forall i :: 0 <= i < |ts| ==> ts[i].risk <= m
    ensures m == Safe || exists i :: 0 <= i < |ts| && ts[i].risk == m
  {
    if ts == [] then Safe
    else
      var front := ts[..|ts| - 1];
      var last := ts[|ts| - 1];
      var m := MaxRisk(front);
      assert forall i :: 0 <= i < |front| ==> front[i] == ts[i];
      if last.risk > m then last.risk else m
  }

  lemma MaxRiskStep(ts: seq<Target>, i: nat)
    requires i < |ts|
    ensures MaxRisk(ts[..i + 1]) == if ts[i].risk > MaxRisk(ts[..i]) then ts[i].risk else MaxRisk(ts[..i])
  {
    assert ts[..i + 1][..i] == ts[..i];
  }

  /** The JSON entry of category `c`: name, total bytes, count, dominant risk and targets in scan order. */
  function CategoryJsonOf(ts: seq<Target>, c: string): ScanCategoryJson {
    var items := Select(ts, TargetCategory, c);
    ScanCategoryJson(c, Sum(items, TargetSize), |items|, RiskString(MaxRisk(items)), Map(items, ToTargetJson))
  }

  /** One entry per occurring category, each as `CategoryJsonOf` describes it. */
  ghost predicate JsonCategories(ts: seq<Target>, cats: seq<ScanCategoryJson>) {
    && Distinct(Map(cats, JsonCategoryName))
    && (forall c :: c in Map(cats, JsonCategoryName) <==> Select(ts, TargetCategory, c) != [])
    && (forall i :: 0 <= i < |cats| ==> cats[i] == CategoryJsonOf(ts, cats[i].name))
  }

  /** The inner loop of `buildScanJSON` over `items`, the targets of category `name`. */
  method CategoryJson(targets: seq<Target>, name: string, items: seq<Target>) returns (cj: ScanCategoryJson)
    requires items == Select(targets, TargetCategory, name)
    ensures cj == CategoryJsonOf(targets, name)
  {
    var catSize := 0;
    var catTargets: seq<TargetJson> := [];
    var maxRisk: RiskLevel := Safe;
    for i := 0 to |items|
      invariant catSize == Sum(items[..i], TargetSize)
      invariant catTargets == Map(items[..i], ToTargetJson)
      invariant maxRisk == MaxRisk(items[..i])
    {
      var item := items[i];
      SumStep(items, i, TargetSize);
      MapStep(items, i, ToTargetJson);
      MaxRiskStep(items, i);
      catSize := catSize + item.size;
      catTargets := catTargets + [ToTargetJson(item)];
      if item.risk > maxRisk {
        maxRisk := item.risk;
      }
    }
    assert items[..|items|] == items;
    cj := ScanCategoryJson(name, catSize, |items|, RiskString(maxRisk), catTargets);
  }

  /** The outer loop of `buildScanJSON`: one entry per key of the grouped map, in the map's order. */
  method CategoriesJson(targets: seq<Target>, grouped: map<string, seq<Target>>, names: seq<string>)
    returns (cats: seq<ScanCategoryJson>)
    requires GroupsTargets(targets, grouped)
    requires forall k :: k in names <==> k in grouped
    ensures |cats| == |names|
    ensures forall k :: 0 <= k < |names| ==> cats[k] == CategoryJsonOf(targets, names[k])
  {
    ghost var entries := seq(|names|, k requires 0 <= k < |names| => CategoryJsonOf(targets, names[k]));
    cats := [];
    for j := 0 to |names|
      invariant cats == entries[..j]
    {
      GroupedIsSelect(targets, grouped, names[j]);
      var cj := CategoryJson(targets, names[j], grouped[names[j]]);
      PrefixSnoc(entries, j, cj);
      cats := cats + [cj];
    }
    assert entries[..|names|] == entries;
  }

  lemma PrefixSnoc<T>(xs: seq<T>, j: int, x: T)
    requires 0 <= j < |xs| && x == xs[j]
    ensures xs[..j + 1] == xs[..j] + [x]
  {
  }

  lemma CategoriesFromKeys(ts: seq<Target>, grouped: map<string, seq<Target>>, names: seq<string>, cats: seq<ScanCategoryJson>)
    requires GroupsTargets(ts, grouped)
    requires Distinct(names) && forall k :: k in names <==> k in grouped
    requires |cats| == |names| && forall k :: 0 <= k < |names| ==> cats[k] == CategoryJsonOf(ts, names[k])
    ensures JsonCategories(ts, cats)
  {
    assert Map(cats, JsonCategoryName) == names;
  }

  /**
   * `buildScanJSON`: the categories as above, the totals and the risk
   * breakdown of all targets, and the diff's three fields copied when there
   * is a diff.
   */
  method BuildScanJson(targets: seq<Target>, diff: Option<DiffResult>, version: string, now: int)
    returns (r: ScanJson)
    ensures r.version == version && r.timestamp == now
    ensures JsonCategories(targets, r.categories)
    ensures r.totalSize == Sum(targets, TargetSize)
    ensures r.totalItems == |targets|
    ensures r.riskSummary == RiskJson(LevelBytes(targets, Safe), LevelBytes(targets, Moderate), LevelBytes(targets, Risky))
    ensures r.diff.None? <==> diff.None?
    ensures diff.Some? ==>
              r.diff == Some(DiffJson(diff.value.previousTimestamp, diff.value.totalDelta, diff.value.categories))
  {
    var grouped := GroupByCategory(targets);
    var names := KeysInSomeOrder(grouped);
    var cats := CategoriesJson(targets, grouped, names);
    CategoriesFromKeys(targets, grouped, names, cats);
    var rb := RiskSummary(targets);
    r := ScanJson(version, now, cats, rb.total, |targets|, RiskJson(rb.safe, rb.moderate, rb.risky), None);
    if diff.Some? {
      r := r.(diff := Some(DiffJson(diff.value.previousTimestamp, diff.value.totalDelta, diff.value.categories)));
    }
  }

  /** The category sizes add up to the document's total size, and the counts to its total items. */
  lemma ScanJsonTotals(ts: seq<Target>, cats: seq<ScanCategoryJson>)
    requires JsonCategories(ts, cats)
    ensures Sum(cats, JsonCategorySize) == Sum(ts, TargetSize)
    ensures Sum(cats, JsonCategoryItems) == |ts|
  {
    var names := Map(cats, JsonCategoryName);
    assert forall i :: 0 <= i < |cats| ==> CountsCategory(ts, cats[i]);
    CategorySumsAsGroups(ts, cats);
    forall i | 0 <= i < |ts|
      ensures TargetCategory(ts[i]) in names
    {
      CategoryListed(ts, cats, i);
    }
    SumGroupsTotal(names, ts, TargetCategory, TargetSize);
    SumGroupsCount(names, ts, TargetCategory);
  }

  /** The size and count of an entry are those of its category's targets. */
  predicate CountsCategory(ts: seq<Target>, cj: ScanCategoryJson) {
    var items := Select(ts, TargetCategory, cj.name);
    cj.size == Sum(items, TargetSize) && cj.items == |items|
  }

  lemma CategoryListed(ts: seq<Target>, cats: seq<ScanCategoryJson>, i: int)
    requires JsonCategories(ts, cats) && 0 <= i < |ts|
    ensures ts[i].category in Map(cats, JsonCategoryName)
  {
    assert ts[i] in Select(ts, TargetCategory, ts[i].category);
  }

  lemma {:induction false} CategorySumsAsGroups(ts: seq<Target>, cats: seq<ScanCategoryJson>)
    requires forall i :: 0 <= i < |cats| ==> CountsCategory(ts, cats[i])
    ensures Sum(cats, JsonCategorySize) == SumGroups(Map(cats, JsonCategoryName), ts, TargetCategory, TargetSize)
    ensures Sum(cats, JsonCategoryItems) == SumGroups(Map(cats, JsonCategoryName), ts, TargetCategory, One)
  {
    if cats != [] {
      var front := cats[..|cats| - 1];
      var last := cats[|cats| - 1];
      CategorySumsAsGroups(ts, front);
      assert Map(cats, JsonCategoryName)[..|cats| - 1] == Map(front, JsonCategoryName);
      SumOneIsLength(Select(ts, TargetCategory, last.name));
    }
  }

  /** No target of a category is riskier than the risk its JSON entry reports. */
  lemma CategoryRiskDominates(ts: seq<Target>, c: string, t: Target)
    requires t in ts && t.category == c
    ensures t.risk <= MaxRisk(Select(ts, TargetCategory, c))
  {
    var items := Select(ts, TargetCategory, c);
    var i :| 0 <= i < |ts| && ts[i] == t;
    assert t in items;
    var k :| 0 <= k < |items| && items[k] == t;
  }

  /** Within a document, each category's size is the sum of the sizes of the targets it lists. */
  lemma {:induction false} TargetJsonSizes(ts: seq<Target>)
    ensures Sum(Map(ts, ToTargetJson), JsonSize) == Sum(ts, TargetSize)
  {
    if ts != [] {
      var front := ts[..|ts| - 1];
      TargetJsonSizes(front);
      assert Map(ts, ToTargetJson)[..|ts| - 1] == Map(front, ToTargetJson);
    }
  }

  // ---------------------------------------------------------------------------
  // dupes
  // ---------------------------------------------------------------------------

  datatype DupeGroupJson = DupeGroupJson(size: int, hash: string, files: seq<string>)

  datatype DupesJson = DupesJson(
    version: string,
    timestamp: int,
    groups: seq<DupeGroupJson>,
    totalFiles: int,
    totalWaste: int)

  function ToDupeGroupJson(g: Dupes.Group): DupeGroupJson {
    DupeGroupJson(g.size, g.hash, g.files)
  }

  function FileCount(g: Dupes.Group): int { |g.files| }

  /** `buildDupesJSON`: the groups in their order, all their files counted, and the bytes all but one copy waste. */
  method BuildDupesJson(groups: seq<Dupes.Group>, version: string, now: int) returns (r: DupesJson)
    ensures r.version == version && r.timestamp == now
    ensures r.groups == Map(groups, ToDupeGroupJson)
    ensures r.totalFiles == Sum(groups, FileCount)
    ensures r.totalWaste == Sum(groups, Dupes.Waste)
  {
    var jsonGroups: seq<DupeGroupJson> := [];
    var totalFiles := 0;
    var totalWaste := 0;
    for i := 0 to |groups|
      invariant jsonGroups == Map(groups[..i], ToDupeGroupJson)
      invariant totalFiles == Sum(groups[..i], FileCount)
      invariant totalWaste == Sum(groups[..i], Dupes.Waste)
    {
      var g := groups[i];
      assert groups[..i + 1] == groups[..i] + [g];
      MapSnoc(groups[..i], g, ToDupeGroupJson);
      SumSnoc(groups[..i], g, FileCount);
      SumSnoc(groups[..i], g, Dupes.Waste);
      jsonGroups := jsonGroups + [ToDupeGroupJson(g)];
      totalFiles := totalFiles + |g.files|;
      totalWaste := totalWaste + g.size * (|g.files| - 1);
    }
    assert groups[..|groups|] == groups;
    r := DupesJson(version, now, jsonGroups, totalFiles, totalWaste);
  }

  /**
   * For real duplicate groups (two or more files, no negative size) every
   * group lists at least two files and the waste is never negative; the
   * waste and one copy per group make up all the bytes of the groups.
   */
  lemma {:induction false} DupesTotalsBounds(groups: seq<Dupes.Group>)
    requires forall i :: 0 <= i < |groups| ==> |groups[i].files| >= 2 && groups[i].size >= 0
    ensures Sum(groups, FileCount) >= 2 * |groups|
    ensures Sum(groups, Dupes.Waste) >= 0
    ensures Sum(groups, Dupes.Waste) + Sum(groups, DupeSize) == Sum(groups, GroupBytes)
  {
    if groups != [] {
      var front := groups[..|groups| - 1];
      var g := groups[|groups| - 1];
      DupesTotalsBounds(front);
      assert g.size * (|g.files| - 1) >= 0 by {
        assert |g.files| - 1 >= 1;
      }
      assert g.size * (|g.files| - 1) + g.size == g.size * |g.files|;
    }
  }

  function DupeSize(g: Dupes.Group): int { g.size }

  /** All the bytes of a group's files. */
  function GroupBytes(g: Dupes.Group): int { g.size * |g.files| }

  // ---------------------------------------------------------------------------
  // uninstall
  // ---------------------------------------------------------------------------

  datatype UninstallJson = UninstallJson(
    version: string,
    timestamp: int,
    appName: string,
    items: int,
    totalSize: int,
    targets: seq<TargetJson>)

  /** `buildUninstallJSON`: the targets in their order, their count and their total size. */
  method BuildUninstallJson(appName: string, targets: seq<Target>, version: string, now: int) returns (r: UninstallJson)
    ensures r.version == version && r.timestamp == now && r.appName == appName
    ensures r.items == |targets|
    ensures r.totalSize == Sum(targets, TargetSize)
    ensures r.targets == Map(targets, ToTargetJson)
  {
    var totalSize := 0;
    var jsonTargets: seq<TargetJson> := [];
    for i := 0 to |targets|
      invariant totalSize == Sum(targets[..i], TargetSize)
      invariant jsonTargets == Map(targets[..i], ToTargetJson)
    {
      var t := targets[i];
      assert targets[..i + 1] == targets[..i] + [t];
      SumSnoc(targets[..i], t, TargetSize);
      MapSnoc(targets[..i], t, ToTargetJson);
      totalSize := totalSize + t.size;
      jsonTargets := jsonTargets + [ToTargetJson(t)];
    }
    assert targets[..|targets|] == targets;
    r := UninstallJson(version, now, appName, |targets|, totalSize, jsonTargets);
  }

  /** The uninstall document agrees with itself: its count is its list's length and its total the sum of the listed sizes. */
  lemma UninstallJsonConsistent(appName: string, targets: seq<Target>, version: string, now: int)
    ensures var r := UninstallJson(version, now, appName, |targets|, Sum(targets, TargetSize), Map(targets, ToTargetJson));
            r.items == |r.targets| && r.totalSize == Sum(r.targets, JsonSize)
  {
    TargetJsonSizes(targets);
  }
}
