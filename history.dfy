/**
 * The cleanup history: a log of cleanup operations kept in one file, and the
 * aggregate statistics computed from it (totals, per-category sums and the
 * five most recent entries).
 *
 * The file is a field whose value says whether it is missing, unreadable,
 * holds malformed JSON or holds a list of entries; whether a write succeeds
 * is a parameter. Timestamps are integers (nanoseconds), so "after" is `>`.
 */
module History {
  import opened Wrappers
  import opened Folds
  import opened Sorting

  /** One cleanup operation; `disposal` is "trash" or "permanent". */
  datatype Entry = Entry(timestamp: int, category: string, items: int, bytesFreed: int, disposal: string)

  function Timestamp(e: Entry): int { e.timestamp }
  function Category(e: Entry): string { e.category }
  function Freed(e: Entry): int { e.bytesFreed }

  datatype CategoryStats = CategoryStats(bytesFreed: int, cleanups: int)

  datatype HistoryStats = HistoryStats(
    totalFreed: int,
    totalCleanups: int,
    byCategory: map<string, CategoryStats>,
    recent: seq<Entry>)

  /** What `Stats` reports when there is nothing to aggregate. */
  const NoStats := HistoryStats(0, 0, map[], [])

  /** How many entries the `recent` list holds at most. */
  const RecentLimit: nat := 5

  datatype HistoryFile = Missing | Unreadable | Malformed | Stored(entries: seq<Entry>)

  datatype LoadError = NotExist | ReadFailed | ParseFailed

  datatype RecordError = WriteFailed

  /** `Load`: a missing file is reported as such, so callers can tell it apart. */
  function Load(f: HistoryFile): (r: Result<seq<Entry>, LoadError>)
    ensures r.Ok? <==> f.Stored?
    ensures r.Ok? ==> r.value == f.entries
    ensures r == Err(NotExist) <==> f.Missing?
  {
    match f
    case Missing => Err(NotExist)
    case Unreadable => Err(ReadFailed)
    case Malformed => Err(ParseFailed)
    case Stored(es) => Ok(es)
  }

  /** The entries `Record` starts from: every load failure starts from empty. */
  function Loaded(f: HistoryFile): seq<Entry> {
    match Load(f)
    case Ok(es) => es
    case Err(_) => []
  }

  // ---------------------------------------------------------------------------
  // The per-category map
  // ---------------------------------------------------------------------------

  /** The map the `Stats` loop builds, one entry at a time. */
  function CategoryMap(es: seq<Entry>): map<string, CategoryStats> {
    if es == [] then map[]
    else
      var m := CategoryMap(es[..|es| - 1]);
      var e := es[|es| - 1];
      var cs := if e.category in m then m[e.category] else CategoryStats(0, 0);
      m[e.category := CategoryStats(cs.bytesFreed + e.bytesFreed, cs.cleanups + 1)]
  }

  /**
   * At category `c`, `m` is the per-category map of `es`: `c` is a key
   * exactly when it occurs, and its entry sums the bytes freed and counts
   * the cleanups of that category.
   */
  predicate MapsCategory(es: seq<Entry>, m: map<string, CategoryStats>, c: string) {
    && (c in m <==> Select(es, Category, c) != [])
    && (c in m ==> m[c] == CategoryStats(SumWhere(es, Category, c, Freed), |Select(es, Category, c)|))
  }

  lemma {:induction false} CategoryMapMeaning(es: seq<Entry>)
    ensures forall c :: MapsCategory(es, CategoryMap(es), c)
  {
    if es != [] {
      var front := es[..|es| - 1];
      var e := es[|es| - 1];
      assert es == front + [e];
      CategoryMapMeaning(front);
      forall c
        ensures MapsCategory(es, CategoryMap(es), c)
      {
        CategoryStep(front, e, c);
      }
    }
  }

  lemma CategoryStep(front: seq<Entry>, e: Entry, c: string)
    requires MapsCategory(front, CategoryMap(front), c)
    ensures MapsCategory(front + [e], CategoryMap(front + [e]), c)
  {
    assert (front + [e])[..|front|] == front;
    SelectSnoc(front, e, Category, c);
    SumWhereSnoc(front, e, Category, c, Freed);
  }

  /** The bytes freed of the categories `ks`, read from the map. */
  function FreedOver(ks: seq<string>, m: map<string, CategoryStats>): int
    requires forall k :: k in ks ==> k in m
  {
    if ks == [] then 0 else FreedOver(ks[..|ks| - 1], m) + m[ks[|ks| - 1]].bytesFreed
  }

  /** The cleanups of the categories `ks`, read from the map. */
  function CleanupsOver(ks: seq<string>, m: map<string, CategoryStats>): int
    requires forall k :: k in ks ==> k in m
  {
    if ks == [] then 0 else CleanupsOver(ks[..|ks| - 1], m) + m[ks[|ks| - 1]].cleanups
  }

  lemma {:induction false} OverAgree(ks: seq<string>, es: seq<Entry>)
    requires forall k :: k in ks ==> k in CategoryMap(es)
    ensures FreedOver(ks, CategoryMap(es)) == SumGroups(ks, es, Category, Freed)
    ensures CleanupsOver(ks, CategoryMap(es)) == SumGroups(ks, es, Category, One)
  {
    if ks != [] {
      var k := ks[|ks| - 1];
      OverAgree(ks[..|ks| - 1], es);
      CategoryMapMeaning(es);
      assert MapsCategory(es, CategoryMap(es), k);
      SumOneIsLength(Select(es, Category, k));
    }
  }

  /**
   * Added up over all categories (listed once each, in any order), the
   * per-category sums give the total bytes freed and the number of entries.
   */
  lemma ByCategoryTotals(es: seq<Entry>, ks: seq<string>)
    requires Distinct(ks)
    requires forall k :: k in ks <==> k in CategoryMap(es)
    ensures FreedOver(ks, CategoryMap(es)) == Sum(es, Freed)
    ensures CleanupsOver(ks, CategoryMap(es)) == |es|
  {
    OverAgree(ks, es);
    CategoryMapMeaning(es);
    forall i | 0 <= i < |es|
      ensures Category(es[i]) in ks
    {
      assert es[i] in Select(es, Category, Category(es[i]));
      assert MapsCategory(es, CategoryMap(es), Category(es[i]));
    }
    SumGroupsTotal(ks, es, Category, Freed);
    SumGroupsCount(ks, es, Category);
  }

  // ---------------------------------------------------------------------------
  // Statistics
  // ---------------------------------------------------------------------------

  function Min(a: int, b: int): int { if a < b then a else b }

  /** The first `RecentLimit` entries of a copy sorted newest first. */
  function Recent(es: seq<Entry>): seq<Entry> {
    var sorted := SortDesc(es, Timestamp);
    sorted[..Min(RecentLimit, |sorted|)]
  }

  /**
   * `Recent` holds the newest `min(5, n)` entries, newest first: they are
   * entries of the history, and none of the entries left out is newer than
   * any of them.
   */
  lemma RecentNewest(es: seq<Entry>)
    ensures var r := Recent(es);
            && |r| == Min(RecentLimit, |es|)
            && SortedDesc(r, Timestamp)
            && multiset(r) <= multiset(es)
            && forall x, y :: x in r && y in multiset(es) - multiset(r) ==> x.timestamp >= y.timestamp
  {
    TopK(es, SortDesc(es, Timestamp), Min(RecentLimit, |es|), Timestamp);
  }

  /** The first `k` of a sorted copy of `s` are sorted, come from `s` and outrank the rest of `s`. */
  lemma TopK<T>(s: seq<T>, sorted: seq<T>, k: nat, key: T -> int)
    requires SortedDesc(sorted, key) && multiset(sorted) == multiset(s) && k <= |sorted|
    ensures var r := sorted[..k];
            && SortedDesc(r, key)
            && multiset(r) <= multiset(s)
            && forall x, y :: x in r && y in multiset(s) - multiset(r) ==> key(x) >= key(y)
  {
    var r := sorted[..k];
    var rest := sorted[k..];
    assert sorted == r + rest;
    assert multiset(s) - multiset(r) == multiset(rest);
    PrefixNewest(sorted, k, key);
  }

  /** In a list sorted by a key, largest first, a prefix outranks the rest. */
  lemma PrefixNewest<T>(sorted: seq<T>, k: nat, key: T -> int)
    requires SortedDesc(sorted, key) && k <= |sorted|
    ensures forall x, y :: x in sorted[..k] && y in multiset(sorted[k..]) ==> key(x) >= key(y)
  {
    forall x, y | x in sorted[..k] && y in multiset(sorted[k..])
      ensures key(x) >= key(y)
    {
      assert y in sorted[k..];
      var i :| 0 <= i < k && sorted[..k][i] == x;
      var j :| 0 <= j < |sorted| - k && sorted[k..][j] == y;
      assert sorted[i] == x && sorted[k + j] == y;
    }
  }

  /** The statistics of a non-empty list of entries. */
  function StatsOf(es: seq<Entry>): HistoryStats {
    HistoryStats(Sum(es, Freed), |es|, CategoryMap(es), Recent(es))
  }

  /** What `Stats` reports for the file: nothing on a load error or an empty history. */
  function StatsFromFile(f: HistoryFile): HistoryStats {
    match Load(f)
    case Err(_) => NoStats
    case Ok(es) => if es == [] then NoStats else StatsOf(es)
  }

  /**
   * The early return for an empty history gives what the general case
   * would, so the statistics of a file are those of the entries it yields.
   */
  lemma StatsOfLoaded(f: HistoryFile)
    ensures StatsFromFile(f) == StatsOf(Loaded(f))
  {
    assert SortDesc([], Timestamp) == [];
    if f.Stored? && f.entries == [] {
      assert StatsOf([]) == NoStats;
    }
  }

  /**
   * Recording an entry adds one cleanup and its bytes to the totals and to
   * its category, and leaves the other categories as they were.
   */
  lemma StatsAfterRecord(f: HistoryFile, e: Entry)
    ensures var before := StatsFromFile(f);
            var after := StatsFromFile(Stored(Loaded(f) + [e]));
            && after.totalCleanups == before.totalCleanups + 1
            && after.totalFreed == before.totalFreed + e.bytesFreed
            && e.category in after.byCategory
            && after.byCategory[e.category].cleanups
               == (if e.category in before.byCategory then before.byCategory[e.category].cleanups else 0) + 1
            && after.byCategory[e.category].bytesFreed
               == (if e.category in before.byCategory then before.byCategory[e.category].bytesFreed else 0) + e.bytesFreed
            && forall c :: c != e.category ==>
                 (c in after.byCategory <==> c in before.byCategory)
                 && (c in before.byCategory ==> after.byCategory[c] == before.byCategory[c])
  {
    var es := Loaded(f);
    StatsOfLoaded(f);
    StatsOfLoaded(Stored(es + [e]));
    SumSnoc(es, e, Freed);
    assert (es + [e])[..|es|] == es;
  }

  /** The history file of one user. */
  class HistoryLog {
    var file: HistoryFile

    constructor(file: HistoryFile)
      ensures this.file == file
    {
      this.file := file;
    }

    /**
     * `Record`: load (a failure of any kind starts from empty), append the
     * entry after the existing ones and write the file back. A failed write
     * leaves the file as it was.
     */
    method Record(e: Entry, saveOk: bool) returns (err: Option<RecordError>)
      modifies this
      ensures saveOk ==> err == None && file == Stored(Loaded(old(file)) + [e])
      ensures !saveOk ==> err == Some(WriteFailed) && file == old(file)
    {
      var entries: seq<Entry>;
      var loaded := Load(file);
      if loaded.Err? {
        entries := [];
      } else {
        entries := loaded.value;
      }
      entries := entries + [e];
      if !saveOk {
        return Some(WriteFailed);
      }
      file := Stored(entries);
      return None;
    }

    /**
     * `Stats`: the totals and the per-category map are accumulated entry by
     * entry; the recent list is cut from a sorted copy, so the file is not
     * touched.
     */
    method Stats() returns (s: HistoryStats)
      ensures s == StatsFromFile(file)
    {
      var loaded := Load(file);
      if loaded.Err? || loaded.value == [] {
        return NoStats;
      }
      var es := loaded.value;
      var totalFreed := 0;
      var byCategory: map<string, CategoryStats> := map[];
      for i := 0 to |es|
        invariant totalFreed == Sum(es[..i], Freed)
        invariant byCategory == CategoryMap(es[..i])
      {
        assert es[..i + 1] == es[..i] + [es[i]];
        assert (es[..i + 1])[..i] == es[..i];
        SumSnoc(es[..i], es[i], Freed);
        var e := es[i];
        totalFreed := totalFreed + e.bytesFreed;
        var cs := if e.category in byCategory then byCategory[e.category] else CategoryStats(0, 0);
        byCategory := byCategory[e.category := CategoryStats(cs.bytesFreed + e.bytesFreed, cs.cleanups + 1)];
      }
      assert es[..|es|] == es;
      var sorted := SortDesc(es, Timestamp);
      var limit := RecentLimit;
      if |sorted| < limit {
        limit := |sorted|;
      }
      s := HistoryStats(totalFreed, |es|, byCategory, sorted[..limit]);
    }
  }
}
