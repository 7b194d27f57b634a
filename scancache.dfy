/**
 * Scan snapshots and the per-category difference between two of them.
 * Timestamps are Unix times in seconds and are carried through unchanged.
 */
module ScanCache {

  datatype CategorySnapshot = CategorySnapshot(name: string, size: int, items: int)

  datatype Snapshot = Snapshot(timestamp: int, categories: seq<CategorySnapshot>, totalSize: int)

  datatype CategoryDiff = CategoryDiff(previousSize: int, currentSize: int, delta: int, isNew: bool)

  datatype DiffResult = DiffResult(previousTimestamp: int, totalDelta: int, categories: map<string, CategoryDiff>)

  function Names(cs: seq<CategorySnapshot>): set<string> {
    set c | c in cs :: c.name
  }

  predicate DistinctNames(cs: seq<CategorySnapshot>) {
    forall i, j :: 0 <= i < j < |cs| ==> cs[i].name != cs[j].name
  }

  /** How many entries of `cs` are named `n`. */
  function CountName(cs: seq<CategorySnapshot>, n: string): nat {
    if cs == [] then 0
    else CountName(cs[..|cs| - 1], n) + (if cs[|cs| - 1].name == n then 1 else 0)
  }

  /** The last entry of `cs` named `n`: the one a map keyed by name retains. */
  function Latest(cs: seq<CategorySnapshot>, n: string): (c: CategorySnapshot)
    requires n in Names(cs)
    ensures c in cs && c.name == n
  {
    var last := cs[|cs| - 1];
    if last.name == n then last
    else
      assert cs == cs[..|cs| - 1] + [last];
      Latest(cs[..|cs| - 1], n)
  }

  /** Sizes by name; a later entry replaces an earlier one of the same name. */
  function SizeIndex(cs: seq<CategorySnapshot>): (m: map<string, int>)
    ensures m.Keys == Names(cs)
    ensures forall n :: n in m ==> m[n] == Latest(cs, n).size
  {
    if cs == [] then map[]
    else
      assert cs == cs[..|cs| - 1] + [cs[|cs| - 1]];
      SizeIndex(cs[..|cs| - 1])[cs[|cs| - 1].name := cs[|cs| - 1].size]
  }

  /**
   * What the difference records for a category present in the current
   * snapshot: it counts as existing before only if the previous snapshot had
   * it and the current snapshot names it once.
   */
  function CurrentEntry(prev: map<string, int>, cs: seq<CategorySnapshot>, n: string): CategoryDiff
    requires n in Names(cs)
  {
    var existed := n in prev && CountName(cs, n) == 1;
    var p := if existed then prev[n] else 0;
    CategoryDiff(p, Latest(cs, n).size, Latest(cs, n).size - p, !existed)
  }

  /** What the difference records for a category that disappeared. */
  function RemovedEntry(prevSize: int): CategoryDiff {
    CategoryDiff(prevSize, 0, -prevSize, false)
  }

  lemma CountNameZero(cs: seq<CategorySnapshot>, n: string)
    ensures CountName(cs, n) == 0 <==> n !in Names(cs)
  {
    if cs != [] {
      CountNameZero(cs[..|cs| - 1], n);
      assert cs == cs[..|cs| - 1] + [cs[|cs| - 1]];
    }
  }

  lemma CountNameDistinct(cs: seq<CategorySnapshot>, n: string)
    requires DistinctNames(cs) && n in Names(cs)
    ensures CountName(cs, n) == 1
  {
    var front := cs[..|cs| - 1];
    assert cs == front + [cs[|cs| - 1]];
    if cs[|cs| - 1].name == n {
      assert n !in Names(front);
      CountNameZero(front, n);
    } else {
      CountNameDistinct(front, n);
    }
  }

  /** Builds the name-to-size index of `cs` (the `prevMap` of `Diff`). */
  method IndexSizes(cs: seq<CategorySnapshot>) returns (m: map<string, int>)
    ensures m == SizeIndex(cs)
  {
    m := map[];
    var i := 0;
    while i < |cs|
      invariant 0 <= i <= |cs|
      invariant m == SizeIndex(cs[..i])
    {
      assert cs[..i + 1][..i] == cs[..i];
      m := m[cs[i].name := cs[i].size];
      i := i + 1;
    }
    assert cs[..i] == cs;
  }

  /** The entry `Diff` writes for `c` while `remaining` is still unconsumed. */
  function StepEntry(remaining: map<string, int>, c: CategorySnapshot): CategoryDiff {
    var existed := c.name in remaining;
    var p := if existed then remaining[c.name] else 0;
    CategoryDiff(p, c.size, c.size - p, !existed)
  }

  /** One step of the pass over the current categories. */
  lemma CurrentEntryStep(index: map<string, int>, xs: seq<CategorySnapshot>, c: CategorySnapshot, n: string)
    requires n in Names(xs + [c])
    ensures n == c.name ==> CurrentEntry(index, xs + [c], n) == StepEntry(index - Names(xs), c)
    ensures n != c.name ==> n in Names(xs) && CurrentEntry(index, xs + [c], n) == CurrentEntry(index, xs, n)
  {
    var ys := xs + [c];
    assert ys[..|ys| - 1] == xs;
    CountNameZero(xs, n);
  }

  lemma NamesSnoc(xs: seq<CategorySnapshot>, c: CategorySnapshot)
    ensures Names(xs + [c]) == Names(xs) + {c.name}
  {
    assert forall d :: d in xs + [c] <==> d in xs || d == c;
  }

  /** The entries recorded for all of `cs`. */
  function CurrentEntries(index: map<string, int>, cs: seq<CategorySnapshot>): (m: map<string, CategoryDiff>)
    ensures m.Keys == Names(cs)
    ensures forall n :: n in m ==> m[n] == CurrentEntry(index, cs, n)
  {
    map n | n in Names(cs) :: CurrentEntry(index, cs, n)
  }

  lemma CurrentEntriesStep(index: map<string, int>, xs: seq<CategorySnapshot>, c: CategorySnapshot)
    ensures CurrentEntries(index, xs + [c]) == CurrentEntries(index, xs)[c.name := StepEntry(index - Names(xs), c)]
  {
    var ys := xs + [c];
    NamesSnoc(xs, c);
    forall n | n in Names(ys) {
      CurrentEntryStep(index, xs, c, n);
    }
  }

  lemma DiffCurrentStep(index: map<string, int>, xs: seq<CategorySnapshot>, c: CategorySnapshot,
                        cats: map<string, CategoryDiff>, remaining: map<string, int>)
    requires remaining == index - Names(xs) && cats == CurrentEntries(index, xs)
    ensures cats[c.name := StepEntry(remaining, c)] == CurrentEntries(index, xs + [c])
    ensures remaining - {c.name} == index - Names(xs + [c])
  {
    CurrentEntriesStep(index, xs, c);
    NamesSnoc(xs, c);
  }

  /** `DiffCurrentStep` for the prefix of length `i` of `cs`. */
  lemma PrefixStep(index: map<string, int>, cs: seq<CategorySnapshot>, i: nat,
                   cats: map<string, CategoryDiff>, remaining: map<string, int>)
    requires i < |cs| && remaining == index - Names(cs[..i]) && cats == CurrentEntries(index, cs[..i])
    ensures cats[cs[i].name := StepEntry(remaining, cs[i])] == CurrentEntries(index, cs[..i + 1])
    ensures remaining - {cs[i].name} == index - Names(cs[..i + 1])
  {
    assert cs[..i + 1] == cs[..i] + [cs[i]];
    DiffCurrentStep(index, cs[..i], cs[i], cats, remaining);
  }

  /**
   * The pass over the current categories: the entries it records and the
   * previous categories it leaves unconsumed.
   */
  method DiffCurrent(index: map<string, int>, cs: seq<CategorySnapshot>)
    returns (cats: map<string, CategoryDiff>, remaining: map<string, int>)
    ensures remaining == index - Names(cs)
    ensures cats == CurrentEntries(index, cs)
  {
    cats := map[];
    remaining := index;
    var i := 0;
    while i < |cs|
      invariant 0 <= i <= |cs|
      invariant remaining == index - Names(cs[..i])
      invariant cats == CurrentEntries(index, cs[..i])
    {
      var c := cs[i];
      PrefixStep(index, cs, i, cats, remaining);
      var existed := c.name in remaining;
      var prevSize := if existed then remaining[c.name] else 0;
      assert CategoryDiff(prevSize, c.size, c.size - prevSize, !existed) == StepEntry(remaining, c);
      cats := cats[c.name := CategoryDiff(prevSize, c.size, c.size - prevSize, !existed)];
      remaining := remaining - {c.name};
      i := i + 1;
    }
    assert cs[..i] == cs;
  }

  /** The pass over the previous categories left unconsumed: each one is recorded as removed. */
  method AddRemoved(cats0: map<string, CategoryDiff>, remaining: map<string, int>)
    returns (cats: map<string, CategoryDiff>)
    ensures cats.Keys == cats0.Keys + remaining.Keys
    ensures forall n :: n in remaining ==> cats[n] == RemovedEntry(remaining[n])
    ensures forall n :: n in cats0 && n !in remaining ==> cats[n] == cats0[n]
  {
    cats := cats0;
    var rest := remaining.Keys;
    while rest != {}
      invariant rest <= remaining.Keys
      invariant cats.Keys == cats0.Keys + (remaining.Keys - rest)
      invariant forall n :: n in remaining.Keys - rest ==> cats[n] == RemovedEntry(remaining[n])
      invariant forall n :: n in cats0 && n !in remaining.Keys - rest ==> cats[n] == cats0[n]
      decreases rest
    {
      var name :| name in rest;
      cats := cats[name := RemovedEntry(remaining[name])];
      rest := rest - {name};
    }
  }

  /** The two passes together record every category of either snapshot, the current ones first. */
  lemma Assembled(index: map<string, int>, cs: seq<CategorySnapshot>, current: map<string, CategoryDiff>,
                  remaining: map<string, int>, cats: map<string, CategoryDiff>)
    requires current == CurrentEntries(index, cs) && remaining == index - Names(cs)
    requires cats.Keys == current.Keys + remaining.Keys
    requires forall n :: n in remaining ==> cats[n] == RemovedEntry(remaining[n])
    requires forall n :: n in current && n !in remaining ==> cats[n] == current[n]
    ensures cats.Keys == index.Keys + Names(cs)
    ensures forall n :: n in cats ==> cats[n].delta == cats[n].currentSize - cats[n].previousSize
    ensures forall n :: n in Names(cs) ==> cats[n] == CurrentEntry(index, cs, n)
    ensures forall n :: n in index && n !in Names(cs) ==> cats[n] == RemovedEntry(index[n])
  {
  }

  /** `Diff(prev, curr)`: the per-category change from `prev` to `curr`. */
  method Diff(prev: Snapshot, curr: Snapshot) returns (result: DiffResult)
    ensures result.previousTimestamp == prev.timestamp
    ensures result.totalDelta == curr.totalSize - prev.totalSize
    ensures result.categories.Keys == Names(prev.categories) + Names(curr.categories)
    ensures forall n :: n in result.categories ==>
      result.categories[n].delta == result.categories[n].currentSize - result.categories[n].previousSize
    ensures forall n :: n in Names(curr.categories) ==>
      result.categories[n] == CurrentEntry(SizeIndex(prev.categories), curr.categories, n)
    ensures forall n :: n in Names(prev.categories) && n !in Names(curr.categories) ==>
      result.categories[n] == RemovedEntry(SizeIndex(prev.categories)[n])
  {
    var prevMap := IndexSizes(prev.categories);
    var current, remaining := DiffCurrent(prevMap, curr.categories);
    var cats := AddRemoved(current, remaining);
    Assembled(prevMap, curr.categories, current, remaining, cats);
    result := DiffResult(prev.timestamp, curr.totalSize - prev.totalSize, cats);
  }

  /** With distinct names, a category is new exactly when `prev` lacks it. */
  lemma NewIffAbsent(prev: Snapshot, curr: Snapshot, n: string)
    requires DistinctNames(curr.categories) && n in Names(curr.categories)
    ensures CurrentEntry(SizeIndex(prev.categories), curr.categories, n).isNew <==> n !in Names(prev.categories)
    ensures n in Names(prev.categories) ==>
      CurrentEntry(SizeIndex(prev.categories), curr.categories, n).previousSize == Latest(prev.categories, n).size
  {
    CountNameDistinct(curr.categories, n);
  }

  /**
   * A repeated name in `curr` is reported as new from its second occurrence
   * on, since the first one consumed the previous entry.
   */
  lemma RepeatedNameIsNew(prev: map<string, int>, cs: seq<CategorySnapshot>, n: string)
    requires n in Names(cs) && !DistinctNamesFor(cs, n)
    ensures CurrentEntry(prev, cs, n).isNew && CurrentEntry(prev, cs, n).previousSize == 0
  {
    RepeatedCount(cs, n);
  }

  predicate DistinctNamesFor(cs: seq<CategorySnapshot>, n: string) {
    forall i, j :: 0 <= i < j < |cs| && cs[i].name == n ==> cs[j].name != n
  }

  lemma RepeatedCount(cs: seq<CategorySnapshot>, n: string)
    requires !DistinctNamesFor(cs, n)
    ensures CountName(cs, n) >= 2
  {
    var front := cs[..|cs| - 1];
    assert cs == front + [cs[|cs| - 1]];
    if DistinctNamesFor(front, n) {
      var i, j :| 0 <= i < j < |cs| && cs[i].name == n && cs[j].name == n;
      assert j == |cs| - 1;
      assert n in Names(front) by { assert front[i] == cs[i]; }
      CountNameZero(front, n);
    } else {
      RepeatedCount(front, n);
    }
  }

  /**
   * Comparing a snapshot with itself (distinct names) reports no change: no
   * category is new or removed and every delta is zero.
   */
  lemma SelfDiffUnchanged(s: Snapshot, n: string)
    requires DistinctNames(s.categories) && n in Names(s.categories)
    ensures CurrentEntry(SizeIndex(s.categories), s.categories, n) == CategoryDiff(Latest(s.categories, n).size, Latest(s.categories, n).size, 0, false)
  {
    CountNameDistinct(s.categories, n);
  }
}
