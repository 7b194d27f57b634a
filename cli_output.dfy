/**
 * Text-report helpers: path truncation, the per-category change indicator,
 * and the order in which the scan report lists categories and targets.
 * Styling and size formatting are not modelled; an indicator is the case it
 * selects together with the byte count it would format.
 */
module CliOutput {
  import opened Wrappers
  import opened Folds
  import opened Sorting
  import opened Scanner
  import opened ScanCache
  import opened CliGroups

  /**
   * `truncatePath`: a path that fits is returned as is; a longer one becomes
   * "..." and its last `maxLen - 3` characters. Go slices out of range (a
   * panic) for a long path when `maxLen < 3`, so that is excluded.
   */
  function TruncatePath(path: string, maxLen: int): (r: string)
    requires |path| <= maxLen || maxLen >= 3
    ensures |path| <= maxLen ==> r == path
    ensures |path| > maxLen ==> |r| == maxLen && r[..3] == "..." && r[3..] == path[|path| - (maxLen - 3)..]
  {
    if |path| <= maxLen then path else "..." + path[|path| - maxLen + 3..]
  }

  /** The result is never longer than the limit, and a shortened path keeps its end. */
  lemma TruncateFits(path: string, maxLen: int)
    requires maxLen >= 3
    ensures |TruncatePath(path, maxLen)| <= maxLen
    ensures |path| > maxLen ==> HasTail(path, TruncatePath(path, maxLen)[3..])
  {
  }

  /** `tail` is how `path` ends. */
  predicate HasTail(path: string, tail: string) {
    |tail| <= |path| && path[|path| - |tail|..] == tail
  }

  /** What `diffIndicator` shows for a category. */
  datatype Indicator = NoIndicator | NewIndicator | Unchanged | Grew(bytes: int) | Shrank(bytes: int)

  /**
   * `diffIndicator`: nothing without a diff or for a category the diff does
   * not list; "(new)" takes precedence; otherwise the sign of the delta
   * picks "unchanged", "+size" or "-size".
   */
  function DiffIndicator(name: string, diff: Option<DiffResult>): (r: Indicator)
    ensures r == NoIndicator <==> diff.None? || name !in diff.value.categories
    ensures r == NewIndicator <==> diff.Some? && name in diff.value.categories && diff.value.categories[name].isNew
    ensures r.Grew? ==> r.bytes > 0 && r.bytes == diff.value.categories[name].delta
    ensures r.Shrank? ==> r.bytes > 0 && r.bytes == -diff.value.categories[name].delta
    ensures r == Unchanged ==> diff.value.categories[name].delta == 0 && !diff.value.categories[name].isNew
  {
    if diff.None? then NoIndicator
    else if name !in diff.value.categories then NoIndicator
    else
      var cd := diff.value.categories[name];
      if cd.isNew then NewIndicator
      else if cd.delta == 0 then Unchanged
      else if cd.delta > 0 then Grew(cd.delta)
      else Shrank(-cd.delta)
  }

  /**
   * Against the entry `Diff` records for a category of the current snapshot:
   * comparing a snapshot with itself shows "unchanged", and a category the
   * previous snapshot lacked shows "(new)".
   */
  lemma IndicatorOfSelfDiff(s: Snapshot, d: DiffResult, n: string)
    requires DistinctNames(s.categories) && n in Names(s.categories)
    requires n in d.categories && d.categories[n] == CurrentEntry(SizeIndex(s.categories), s.categories, n)
    ensures DiffIndicator(n, Some(d)) == Unchanged
  {
    SelfDiffUnchanged(s, n);
  }

  lemma IndicatorOfNewCategory(prev: Snapshot, curr: Snapshot, d: DiffResult, n: string)
    requires DistinctNames(curr.categories) && n in Names(curr.categories) && n !in Names(prev.categories)
    requires n in d.categories && d.categories[n] == CurrentEntry(SizeIndex(prev.categories), curr.categories, n)
    ensures DiffIndicator(n, Some(d)) == NewIndicator
  {
    NewIffAbsent(prev, curr, n);
  }

  // ---------------------------------------------------------------------------
  // The order of the scan report
  // ---------------------------------------------------------------------------

  datatype CategoryGroup = CategoryGroup(name: string, targets: seq<Target>, totalSize: int)

  function GroupTotal(g: CategoryGroup): int { g.totalSize }
  function GroupName(g: CategoryGroup): string { g.name }

  /** The group of category `c`: its targets largest first, and their total size. */
  function GroupOf(ts: seq<Target>, c: string): (g: CategoryGroup)
    ensures g.name == c
    ensures SortedDesc(g.targets, TargetSize)
    ensures multiset(g.targets) == multiset(Select(ts, TargetCategory, c))
    ensures g.totalSize == SumWhere(ts, TargetCategory, c, TargetSize)
  {
    CategoryGroup(c, SortDesc(Select(ts, TargetCategory, c), TargetSize), SumWhere(ts, TargetCategory, c, TargetSize))
  }

  /** The groups of a report: one per occurring category, each as `GroupOf` builds it. */
  ghost predicate ReportGroups(ts: seq<Target>, groups: seq<CategoryGroup>) {
    && Distinct(Map(groups, GroupName))
    && (forall c :: c in Map(groups, GroupName) <==> Select(ts, TargetCategory, c) != [])
    && (forall g :: g in groups ==> g == GroupOf(ts, g.name))
  }

  /**
   * The grouping and sorting of `printScanResults`: no groups for no targets;
   * otherwise one group per category, largest total first, each holding its
   * targets largest first.
   */
  method ReportOrder(targets: seq<Target>) returns (groups: seq<CategoryGroup>)
    ensures targets == [] ==> groups == []
    ensures ReportGroups(targets, groups)
    ensures SortedDesc(groups, GroupTotal)
  {
    if targets == [] {
      return [];
    }
    var grouped := GroupByCategory(targets);
    var names := KeysInSomeOrder(grouped);
    var unsorted := BuildGroups(targets, grouped, names);
    UnsortedGroups(targets, grouped, names, unsorted);
    groups := SortDesc(unsorted, GroupTotal);
    SortedGroups(targets, unsorted, groups);
  }

  /** The loop over the grouped map: each category's size, and its targets sorted largest first. */
  method BuildGroups(targets: seq<Target>, grouped: map<string, seq<Target>>, names: seq<string>)
    returns (unsorted: seq<CategoryGroup>)
    requires GroupsTargets(targets, grouped)
    requires forall k :: k in names <==> k in grouped
    ensures |unsorted| == |names|
    ensures forall k :: 0 <= k < |names| ==> unsorted[k] == GroupOf(targets, names[k])
  {
    unsorted := [];
    for j := 0 to |names|
      invariant |unsorted| == j
      invariant forall k :: 0 <= k < j ==> unsorted[k] == GroupOf(targets, names[k])
    {
      var items := grouped[names[j]];
      var catSize := SumSizes(items);
      var g := CategoryGroup(names[j], SortDesc(items, TargetSize), catSize);
      GroupFromMap(targets, grouped, names[j], g);
      AppendPointwise(unsorted, g, j);
      unsorted := unsorted + [g];
    }
  }

  lemma AppendPointwise(gs: seq<CategoryGroup>, g: CategoryGroup, j: nat)
    requires |gs| == j
    ensures forall k :: 0 <= k < j ==> (gs + [g])[k] == gs[k]
    ensures (gs + [g])[j] == g
  {
  }

  lemma GroupFromMap(ts: seq<Target>, grouped: map<string, seq<Target>>, c: string, g: CategoryGroup)
    requires GroupsTargets(ts, grouped) && c in grouped
    requires g == CategoryGroup(c, SortDesc(grouped[c], TargetSize), Sum(grouped[c], TargetSize))
    ensures g == GroupOf(ts, c)
  {
    assert grouped[c] == Select(ts, TargetCategory, c);
  }

  lemma UnsortedGroups(ts: seq<Target>, grouped: map<string, seq<Target>>, names: seq<string>, gs: seq<CategoryGroup>)
    requires GroupsTargets(ts, grouped)
    requires Distinct(names) && forall k :: k in names <==> k in grouped
    requires |gs| == |names| && forall k :: 0 <= k < |names| ==> gs[k] == GroupOf(ts, names[k])
    ensures ReportGroups(ts, gs)
  {
    var gn := Map(gs, GroupName);
    assert gn == names;
  }

  lemma SortedGroups(ts: seq<Target>, unsorted: seq<CategoryGroup>, groups: seq<CategoryGroup>)
    requires ReportGroups(ts, unsorted) && multiset(groups) == multiset(unsorted)
    ensures ReportGroups(ts, groups)
  {
    forall g | g in groups
      ensures g == GroupOf(ts, g.name)
    {
      assert g in multiset(unsorted);
    }
    SortedNamesDistinct(ts, unsorted, groups);
    forall c
      ensures c in Map(groups, GroupName) <==> c in Map(unsorted, GroupName)
    {
      PermutedName(unsorted, groups, c);
      PermutedName(groups, unsorted, c);
    }
  }

  lemma PermutedName(xs: seq<CategoryGroup>, ys: seq<CategoryGroup>, c: string)
    requires multiset(xs) == multiset(ys)
    ensures c in Map(xs, GroupName) ==> c in Map(ys, GroupName)
  {
    var xn := Map(xs, GroupName);
    if c in xn {
      var i :| 0 <= i < |xn| && xn[i] == c;
      assert xs[i] in multiset(ys);
      var k :| 0 <= k < |ys| && ys[k] == xs[i];
      assert Map(ys, GroupName)[k] == c;
    }
  }

  lemma SortedNamesDistinct(ts: seq<Target>, unsorted: seq<CategoryGroup>, groups: seq<CategoryGroup>)
    requires Distinct(Map(unsorted, GroupName))
    requires forall g :: g in groups ==> g == GroupOf(ts, g.name)
    requires multiset(groups) == multiset(unsorted)
    ensures Distinct(Map(groups, GroupName))
  {
    var un := Map(unsorted, GroupName);
    assert Distinct(unsorted) by {
      forall i, j | 0 <= i < j < |unsorted|
        ensures unsorted[i] != unsorted[j]
      {
        assert un[i] != un[j];
      }
    }
    DistinctPermuted(unsorted, groups);
    var gn := Map(groups, GroupName);
    forall i, j | 0 <= i < j < |gn|
      ensures gn[i] != gn[j]
    {
      assert groups[i] in groups && groups[j] in groups;
    }
  }

  /** The report's total adds up the group totals, which is the size of all targets. */
  lemma ReportTotal(ts: seq<Target>, groups: seq<CategoryGroup>)
    requires ReportGroups(ts, groups)
    ensures Sum(groups, GroupTotal) == Sum(ts, TargetSize)
  {
    var names := Map(groups, GroupName);
    GroupTotalsAsGroups(ts, groups);
    forall i | 0 <= i < |ts|
      ensures TargetCategory(ts[i]) in names
    {
      assert ts[i] in Select(ts, TargetCategory, ts[i].category);
    }
    SumGroupsTotal(names, ts, TargetCategory, TargetSize);
  }

  lemma {:induction false} GroupTotalsAsGroups(ts: seq<Target>, groups: seq<CategoryGroup>)
    requires forall g :: g in groups ==> g == GroupOf(ts, g.name)
    ensures Sum(groups, GroupTotal) == SumGroups(Map(groups, GroupName), ts, TargetCategory, TargetSize)
  {
    if groups != [] {
      var front := groups[..|groups| - 1];
      var last := groups[|groups| - 1];
      var names := Map(groups, GroupName);
      assert forall g :: g in front ==> g in groups;
      GroupTotalsAsGroups(ts, front);
      assert names[..|names| - 1] == Map(front, GroupName);
      assert names[|names| - 1] == last.name;
      assert last in groups;
      assert GroupTotal(last) == SumWhere(ts, TargetCategory, last.name, TargetSize);
      assert Sum(groups, GroupTotal) == Sum(front, GroupTotal) + GroupTotal(last);
    }
  }
}
