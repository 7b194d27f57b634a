/**
 * The interactive terminal interface: the main menu's cursor, the scroll
 * window of a list, and the duplicate-files screen (the flat list of groups
 * and files it shows, the selection of copies to remove, and the clean that
 * moves the selected files to the Trash). A Go `map[string]bool` whose values
 * are only ever `true` is a set of keys here. Rendering, the spinner and the
 * message plumbing of the Bubble Tea framework are not modelled.
 */
module Tui {
  import opened Wrappers
  import opened StrUtil
  import opened Folds
  import Dupes
  import CliOutput

  // ---------------------------------------------------------------------------
  // Small string helpers
  // ---------------------------------------------------------------------------

  /**
   * `truncPath`: a path that fits is unchanged; a longer one becomes "..."
   * followed by its last `maxLen - 3` characters. Go slices out of range for
   * a long path when `maxLen < 3`, so that is excluded.
   */
  function TruncPath(path: string, maxLen: int): (r: string)
    requires |path| <= maxLen || maxLen >= 3
    ensures |path| <= maxLen ==> r == path
    ensures |path| > maxLen ==> |r| == maxLen && HasPrefix(r, "...") && CliOutput.HasTail(path, r[3..])
  {
    CliOutput.TruncatePath(path, maxLen)
  }

  /** `lastSlash`: the index of the last '/' of `s`, or -1 when there is none. */
  method LastSlash(s: string) returns (idx: int)
    ensures -1 <= idx < |s|
    ensures idx >= 0 ==> s[idx] == '/'
    ensures forall j :: idx < j < |s| ==> s[j] != '/'
  {
    var i := |s| - 1;
    while i >= 0
      invariant -1 <= i < |s|
      invariant forall j :: i < j < |s| ==> s[j] != '/'
    {
      if s[i] == '/' {
        return i;
      }
      i := i - 1;
    }
    return -1;
  }

  /**
   * What `LastSlash` finds: -1 exactly for a string without '/', and
   * otherwise the separator before the last piece of `Split(s, '/')`.
   */
  lemma LastSlashSplits(s: string, idx: int)
    requires -1 <= idx < |s|
    requires idx >= 0 ==> s[idx] == '/'
    requires forall j :: idx < j < |s| ==> s[j] != '/'
    ensures idx == -1 <==> '/' !in s
    ensures idx >= 0 ==> Split(s, '/') == Split(s[..idx], '/') + [s[idx + 1..]]
  {
    if idx >= 0 {
      var tail := s[idx + 1..];
      assert s == s[..idx] + ['/'] + tail;
      assert forall j :: 0 <= j < |tail| ==> tail[j] == s[idx + 1 + j];
      SplitSnoc(s[..idx], '/', tail);
    } else {
      assert forall j :: 0 <= j < |s| ==> s[j] != '/';
    }
  }

  /** Three or more names joined by ", ". */
  function CommaList(names: seq<string>): string
    requires names != []
  {
    if |names| == 1 then names[0] else CommaList(names[..|names| - 1]) + ", " + names[|names| - 1]
  }

  /**
   * `joinNames`: no names give "", one name itself, two are joined by
   * " and ", and more are separated by ", ".
   */
  method JoinNames(names: seq<string>) returns (s: string)
    ensures |names| == 0 ==> s == ""
    ensures |names| == 1 ==> s == names[0]
    ensures |names| == 2 ==> s == names[0] + " and " + names[1]
    ensures |names| >= 3 ==> s == CommaList(names)
  {
    if |names| == 0 {
      return "";
    } else if |names| == 1 {
      return names[0];
    } else if |names| == 2 {
      return names[0] + " and " + names[1];
    }
    s := "";
    for i := 0 to |names|
      invariant i == 0 ==> s == ""
      invariant i > 0 ==> s == CommaList(names[..i])
    {
      assert names[..i + 1][..i] == names[..i];
      if i > 0 {
        s := s + ", ";
      }
      s := s + names[i];
    }
    assert names[..|names|] == names;
  }

  lemma PiecesSnoc(names: seq<string>, p: seq<string>, q: seq<string>)
    requires |names| > 1 && |p| == |names| - 1 && p[0] == names[0]
    requires forall i :: 1 <= i < |p| ==> p[i] == " " + names[i]
    requires q == p + [" " + names[|names| - 1]]
    ensures |q| == |names| && q[0] == names[0]
    ensures forall i :: 1 <= i < |names| ==> q[i] == " " + names[i]
  {
  }

  /**
   * The list of names can be read back: when no name holds a comma, splitting
   * the joined text at the commas gives the first name and then each further
   * name after its separating space.
   */
  lemma {:induction false} CommaListSplits(names: seq<string>)
    requires names != []
    requires forall i :: 0 <= i < |names| ==> ',' !in names[i]
    ensures |Split(CommaList(names), ',')| == |names|
    ensures Split(CommaList(names), ',')[0] == names[0]
    ensures forall i :: 1 <= i < |names| ==> Split(CommaList(names), ',')[i] == " " + names[i]
  {
    if |names| > 1 {
      var front := names[..|names| - 1];
      var last := names[|names| - 1];
      assert forall i :: 0 <= i < |front| ==> front[i] == names[i];
      CommaListSplits(front);
      assert ", " + last == [','] + (" " + last);
      assert CommaList(names) == CommaList(front) + [','] + (" " + last);
      SplitSnoc(CommaList(front), ',', " " + last);
      var p := Split(CommaList(front), ',');
      PiecesSnoc(names, p, Split(CommaList(names), ','));
    }
  }

  // ---------------------------------------------------------------------------
  // Menu and scrolling
  // ---------------------------------------------------------------------------

  datatype MenuItem = MenuItem(name: string, description: string)

  const MenuItems: seq<MenuItem> := [
    MenuItem("Clean", "Scan and remove junk files"),
    MenuItem("Space Lens", "Visualize disk space usage"),
    MenuItem("Maintenance", "Run system maintenance tasks"),
    MenuItem("Duplicates", "Find and remove duplicate files"),
    MenuItem("Uninstall", "Remove apps and all related files")
  ]

  predicate IsUp(key: string) { key == "up" || key == "k" }

  predicate IsDown(key: string) { key == "down" || key == "j" }

  /**
   * The menu cursor after a key: up and down move one item and stop at the
   * first and the last item; other keys leave it where it is.
   */
  function MenuMove(cursor: int, key: string): (c: int)
    ensures 0 <= cursor < |MenuItems| ==> 0 <= c < |MenuItems|
    ensures c == cursor || c == cursor - 1 || c == cursor + 1
    ensures c < cursor ==> IsUp(key)
    ensures c > cursor ==> IsDown(key)
  {
    if IsUp(key) then (if cursor > 0 then cursor - 1 else cursor)
    else if IsDown(key) then (if cursor < |MenuItems| - 1 then cursor + 1 else cursor)
    else cursor
  }

  /** Down then up comes back to where it started, except from the last item. */
  lemma MenuDownUp(cursor: int)
    requires 0 <= cursor < |MenuItems| - 1
    ensures MenuMove(MenuMove(cursor, "down"), "up") == cursor
    ensures MenuMove(MenuMove(cursor + 1, "up"), "down") == cursor + 1
  {
  }

  /**
   * `visibleItemCount`: the lines left for list items once six are taken by
   * the title, the status bar, the help and the padding, and never fewer than five.
   */
  function VisibleItems(height: int): (r: int)
    ensures r >= 5
    ensures r >= height - 6
    ensures r > 5 ==> r == height - 6
  {
    if height - 6 < 5 then 5 else height - 6
  }

  /**
   * The scroll offset `ensureCursorVisible` and `dupEnsureCursorVisible`
   * leave: the window of `visible` lines from the offset holds the cursor,
   * and an offset whose window already holds it is kept.
   */
  function ScrollFor(offset: int, cursor: int, visible: int): (r: int)
    requires visible >= 1
    ensures r <= cursor < r + visible
    ensures offset <= cursor < offset + visible ==> r == offset
  {
    var o := if cursor < offset then cursor else offset;
    if cursor >= o + visible then cursor - visible + 1 else o
  }

  function Abs(x: int): int { if x < 0 then -x else x }

  /** The window moves as little as it can: no window holding the cursor is nearer the old offset. */
  lemma ScrollMinimal(offset: int, cursor: int, visible: int, other: int)
    requires visible >= 1
    requires other <= cursor < other + visible
    ensures Abs(ScrollFor(offset, cursor, visible) - offset) <= Abs(other - offset)
  {
  }

  // ---------------------------------------------------------------------------
  // The duplicates screen: the flat list
  // ---------------------------------------------------------------------------

  /**
   * `dupesEntry`: a header line heads each group (its size is the group's
   * wasted bytes); a file line gives the path, the size of one copy and
   * whether it is the copy that is kept (the group's first file).
   */
  datatype DupesEntry = DupesEntry(groupIdx: int, fileIdx: int, path: string, size: int, hash: string, isKeep: bool, isHeader: bool)

  function Header(gi: int, g: Dupes.Group): DupesEntry {
    DupesEntry(gi, 0, "", g.size * (|g.files| - 1), g.hash, false, true)
  }

  function FileEntry(gi: int, fi: int, g: Dupes.Group): DupesEntry
    requires 0 <= fi < |g.files|
  {
    DupesEntry(gi, fi, g.files[fi], g.size, "", fi == 0, false)
  }

  function FileEntries(gi: int, g: Dupes.Group): (r: seq<DupesEntry>)
    ensures |r| == |g.files|
    ensures forall fi :: 0 <= fi < |g.files| ==> r[fi] == FileEntry(gi, fi, g)
  {
    seq(|g.files|, fi requires 0 <= fi < |g.files| => FileEntry(gi, fi, g))
  }

  /** Every group's header followed by its files, group after group. */
  function FlatList(groups: seq<Dupes.Group>): seq<DupesEntry> {
    if groups == [] then []
    else
      var front := groups[..|groups| - 1];
      FlatList(front) + [Header(|front|, groups[|groups| - 1])] + FileEntries(|front|, groups[|groups| - 1])
  }

  /** `dupesFlatList`. */
  method DupesFlatList(groups: seq<Dupes.Group>) returns (entries: seq<DupesEntry>)
    ensures entries == FlatList(groups)
  {
    entries := [];
    for gi := 0 to |groups|
      invariant entries == FlatList(groups[..gi])
    {
      var g := groups[gi];
      assert groups[..gi + 1][..gi] == groups[..gi];
      entries := entries + [Header(gi, g)];
      ghost var start := entries;
      for fi := 0 to |g.files|
        invariant entries == start + FileEntries(gi, g)[..fi]
      {
        assert FileEntries(gi, g)[..fi + 1] == FileEntries(gi, g)[..fi] + [FileEntry(gi, fi, g)];
        entries := entries + [FileEntry(gi, fi, g)];
      }
      assert FileEntries(gi, g)[..|g.files|] == FileEntries(gi, g);
    }
    assert groups[..|groups|] == groups;
  }

  function EntryCount(g: Dupes.Group): int { |g.files| + 1 }

  /** What an entry of the flat list says about the group it comes from. */
  predicate EntryFits(groups: seq<Dupes.Group>, e: DupesEntry) {
    && 0 <= e.groupIdx < |groups|
    && (e.isHeader ==> !e.isKeep && e.size == Dupes.Waste(groups[e.groupIdx]) && e.hash == groups[e.groupIdx].hash)
    && (!e.isHeader ==>
          && 0 <= e.fileIdx < |groups[e.groupIdx].files|
          && e.path == groups[e.groupIdx].files[e.fileIdx]
          && e.size == groups[e.groupIdx].size
          && (e.isKeep <==> e.fileIdx == 0))
  }

  /**
   * The flat list has one line per group and one per file; a header carries
   * its group's wasted bytes, a file line its group's path and size, and only
   * a group's first file is marked as the one kept.
   */
  lemma {:induction false} FlatListShape(groups: seq<Dupes.Group>)
    ensures |FlatList(groups)| == Sum(groups, EntryCount)
    ensures forall i :: 0 <= i < |FlatList(groups)| ==> EntryFits(groups, FlatList(groups)[i])
  {
    if groups != [] {
      var front := groups[..|groups| - 1];
      var g := groups[|groups| - 1];
      FlatListShape(front);
      assert groups == front + [g];
      SumSnoc(front, g, EntryCount);
      var fl := FlatList(groups);
      var n := |FlatList(front)|;
      forall i | 0 <= i < |fl|
        ensures EntryFits(groups, fl[i])
      {
        if i < n {
          assert fl[i] == FlatList(front)[i];
          assert EntryFits(front, fl[i]);
          assert groups[fl[i].groupIdx] == front[fl[i].groupIdx];
        } else if i == n {
          assert fl[i] == Header(|front|, g);
        } else {
          assert fl[i] == FileEntry(|front|, i - n - 1, g);
        }
      }
    }
  }

  /** Two header lines never stand next to each other. */
  predicate HeadersApart(entries: seq<DupesEntry>) {
    forall i :: 0 <= i < |entries| - 1 ==> entries[i].isHeader ==> !entries[i + 1].isHeader
  }

  /** When every group has a file, a header is always followed by a file line and never ends the list. */
  lemma {:induction false} FlatListHeadersApart(groups: seq<Dupes.Group>)
    requires forall gi :: 0 <= gi < |groups| ==> |groups[gi].files| >= 1
    ensures HeadersApart(FlatList(groups))
    ensures FlatList(groups) != [] ==> !FlatList(groups)[|FlatList(groups)| - 1].isHeader
  {
    if groups != [] {
      var front := groups[..|groups| - 1];
      var g := groups[|groups| - 1];
      FlatListHeadersApart(front);
      var fl := FlatList(groups);
      var n := |FlatList(front)|;
      assert |g.files| >= 1;
      assert forall j :: 0 <= j < n ==> fl[j] == FlatList(front)[j];
      forall i | 0 <= i < |fl| - 1 && fl[i].isHeader
        ensures !fl[i + 1].isHeader
      {
        if i + 1 > n {
          assert fl[i + 1] == FileEntry(|front|, i - n, g);
        }
      }
      assert fl[|fl| - 1] == FileEntry(|front|, |g.files| - 1, g);
    }
  }

  /**
   * The duplicates cursor after up or down: one line, skipping over a header
   * onto the file beyond it where there is one; other keys leave it.
   */
  function DupMove(entries: seq<DupesEntry>, cursor: int, key: string): (c: int)
    requires cursor >= 0
    ensures 0 <= cursor < |entries| ==> 0 <= c < |entries|
    ensures c < cursor ==> IsUp(key) && c >= cursor - 2
    ensures c > cursor ==> IsDown(key) && c <= cursor + 2
    ensures !IsUp(key) && !IsDown(key) ==> c == cursor
  {
    if IsUp(key) then
      if cursor > 0 then
        var c1 := cursor - 1;
        if c1 < |entries| && entries[c1].isHeader && c1 > 0 then c1 - 1 else c1
      else cursor
    else if IsDown(key) then
      if cursor < |entries| - 1 then
        var c1 := cursor + 1;
        if entries[c1].isHeader && c1 < |entries| - 1 then c1 + 1 else c1
      else cursor
    else cursor
  }

  /** Whether the key moved the cursor (and so the window is adjusted). */
  predicate DupMoves(entries: seq<DupesEntry>, cursor: int, key: string) {
    (IsUp(key) && cursor > 0) || (IsDown(key) && cursor < |entries| - 1)
  }

  /**
   * Moving never comes to rest on a header, except on the first line, when
   * headers stand apart and the list does not end with one.
   */
  lemma DupMoveSkipsHeaders(entries: seq<DupesEntry>, cursor: int, key: string)
    requires 0 <= cursor < |entries|
    requires HeadersApart(entries)
    requires !entries[|entries| - 1].isHeader
    ensures var c := DupMove(entries, cursor, key); c != cursor ==> c == 0 || !entries[c].isHeader
  {
  }

  // ---------------------------------------------------------------------------
  // The duplicates screen: selection
  // ---------------------------------------------------------------------------

  /** The key of a group's file in the selection: "group:file". */
  function SelKey(gi: int, fi: int): string {
    Itoa(gi) + ":" + Itoa(fi)
  }

  /** Different lines have different keys. */
  lemma SelKeyInjective(a: nat, b: nat, c: nat, d: nat)
    requires SelKey(a, b) == SelKey(c, d)
    ensures a == c && b == d
  {
    ItoaChars(a);
    ItoaChars(b);
    ItoaChars(c);
    ItoaChars(d);
    assert Itoa(a) + ":" + Itoa(b) == Itoa(a) + [':'] + Itoa(b);
    assert Itoa(c) + ":" + Itoa(d) == Itoa(c) + [':'] + Itoa(d);
    SplitPair(Itoa(a), ':', Itoa(b));
    SplitPair(Itoa(c), ':', Itoa(d));
    ItoaInjective(a, c);
    ItoaInjective(b, d);
  }

  /** The keys of files 1 to n-1 of group `gi`. */
  function GroupCopyKeys(gi: int, n: int): set<string> {
    KeysFrom1(KeyOf(gi), n)
  }

  /** The keys `key(1)` to `key(n - 1)`. */
  function KeysFrom1(key: int -> string, n: int): set<string> {
    if n <= 1 then {} else KeysFrom1(key, n - 1) + {key(n - 1)}
  }

  function KeyOf(gi: int): int -> string {
    fi => SelKey(gi, fi)
  }

  lemma KeyOfApply(gi: int, fi: int)
    ensures KeyOf(gi)(fi) == SelKey(gi, fi)
  {
  }

  lemma {:induction false} KeysFrom1Members(key: int -> string, n: int, x: string)
    ensures x in KeysFrom1(key, n) <==> exists j :: 1 <= j < n && x == key(j)
    decreases n
  {
    if n > 1 {
      KeysFrom1Members(key, n - 1, x);
    }
  }

  /** The keys of every copy: each group's files but its first. */
  function CopyKeys(groups: seq<Dupes.Group>): set<string> {
    if groups == [] then {}
    else
      var front := groups[..|groups| - 1];
      CopyKeys(front) + GroupCopyKeys(|front|, |groups[|groups| - 1].files|)
  }

  lemma GroupCopyKeysMeaning(gi: nat, n: int, hi: nat, fi: nat)
    ensures SelKey(hi, fi) in GroupCopyKeys(gi, n) <==> hi == gi && 1 <= fi < n
  {
    var x := SelKey(hi, fi);
    KeysFrom1Members(KeyOf(gi), n, x);
    if x in GroupCopyKeys(gi, n) {
      var j :| 1 <= j < n && x == KeyOf(gi)(j);
      KeyOfApply(gi, j);
      SelKeyInjective(hi, fi, gi, j);
    } else if hi == gi && 1 <= fi < n {
      KeyOfApply(gi, fi);
    }
  }

  /** The pre-selection holds exactly the copies: no group's kept file, no line outside the groups. */
  lemma {:induction false} CopyKeysMeaning(groups: seq<Dupes.Group>, gi: nat, fi: nat)
    ensures SelKey(gi, fi) in CopyKeys(groups) <==> gi < |groups| && 1 <= fi < |groups[gi].files|
  {
    if groups != [] {
      var front := groups[..|groups| - 1];
      var last := groups[|groups| - 1];
      var x := SelKey(gi, fi);
      CopyKeysMeaning(front, gi, fi);
      GroupCopyKeysMeaning(|front|, |last.files|, gi, fi);
      assert x in CopyKeys(groups) <==> x in CopyKeys(front) || x in GroupCopyKeys(|front|, |last.files|);
      if gi < |front| {
        assert front[gi] == groups[gi];
      } else if gi == |front| {
        assert last == groups[gi];
      }
    }
  }

  /** The pre-selection the `dupesDoneMsg` handler builds. */
  method PreSelect(groups: seq<Dupes.Group>) returns (sel: set<string>)
    ensures sel == CopyKeys(groups)
  {
    sel := {};
    for gi := 0 to |groups|
      invariant sel == CopyKeys(groups[..gi])
    {
      CopyKeysStep(groups, gi);
      sel := SelectCopies(sel, gi, |groups[gi].files|);
    }
    assert groups[..|groups|] == groups;
  }

  /** The inner loop of the pre-selection: adds the keys of files 1 to `n - 1` of group `gi`. */
  method SelectCopies(sel0: set<string>, gi: int, n: int) returns (sel: set<string>)
    ensures sel == sel0 + GroupCopyKeys(gi, n)
  {
    sel := sel0;
    var fi := 1;
    while fi < n
      invariant 1 <= fi && (fi <= n || fi == 1)
      invariant sel == sel0 + GroupCopyKeys(gi, fi)
    {
      KeyOfApply(gi, fi);
      sel := sel + {SelKey(gi, fi)};
      fi := fi + 1;
    }
    assert GroupCopyKeys(gi, fi) == GroupCopyKeys(gi, n);
  }

  lemma CopyKeysStep(groups: seq<Dupes.Group>, gi: nat)
    requires gi < |groups|
    ensures CopyKeys(groups[..gi + 1]) == CopyKeys(groups[..gi]) + GroupCopyKeys(gi, |groups[gi].files|)
  {
    assert groups[..gi + 1][..gi] == groups[..gi];
  }

  /** No group's kept file is selected. */
  ghost predicate NoKeepSelected(groups: seq<Dupes.Group>, sel: set<string>) {
    forall gi: nat :: gi < |groups| ==> SelKey(gi, 0) !in sel
  }

  /** The space key flips one key in the selection and leaves the others. */
  function Toggled(sel: set<string>, key: string): (r: set<string>)
    ensures key in r <==> key !in sel
    ensures forall k :: k != key ==> (k in r <==> k in sel)
  {
    if key in sel then sel - {key} else sel + {key}
  }

  /** The key the space key flips, when the cursor is on a copy's line. */
  function ToggleKey(entries: seq<DupesEntry>, cursor: int): Option<string>
    requires cursor >= 0
  {
    if cursor < |entries| && !entries[cursor].isHeader && !entries[cursor].isKeep then
      Some(SelKey(entries[cursor].groupIdx, entries[cursor].fileIdx))
    else None
  }

  /** Toggling a line of the flat list never selects a group's kept file. */
  lemma ToggleKeepsKeep(groups: seq<Dupes.Group>, sel: set<string>, cursor: int)
    requires cursor >= 0
    ensures var t := ToggleKey(FlatList(groups), cursor);
            NoKeepSelected(groups, sel) && t.Some? ==> NoKeepSelected(groups, Toggled(sel, t.value))
  {
    var entries := FlatList(groups);
    var t := ToggleKey(entries, cursor);
    if NoKeepSelected(groups, sel) && t.Some? {
      FlatListShape(groups);
      var e := entries[cursor];
      assert EntryFits(groups, e);
      forall gi: nat | gi < |groups|
        ensures SelKey(gi, 0) !in Toggled(sel, t.value)
      {
        if SelKey(gi, 0) == t.value {
          SelKeyInjective(gi, 0, e.groupIdx, e.fileIdx);
        }
      }
    }
  }

  // ---------------------------------------------------------------------------
  // The duplicates screen: the clean
  // ---------------------------------------------------------------------------

  /** Every file line, group after group, in the order the clean visits them. */
  function Refs(groups: seq<Dupes.Group>): seq<DupesEntry> {
    if groups == [] then []
    else
      var front := groups[..|groups| - 1];
      Refs(front) + FileEntries(|front|, groups[|groups| - 1])
  }

  function IsHeader(e: DupesEntry): bool { e.isHeader }

  /** The clean visits the same files the screen lists, in the same order. */
  lemma {:induction false} RefsAreFileLines(groups: seq<Dupes.Group>)
    ensures Refs(groups) == Select(FlatList(groups), IsHeader, false)
  {
    if groups != [] {
      var front := groups[..|groups| - 1];
      var g := groups[|groups| - 1];
      RefsAreFileLines(front);
      SelectAppend(FlatList(front) + [Header(|front|, g)], FileEntries(|front|, g), IsHeader, false);
      SelectSnoc(FlatList(front), Header(|front|, g), IsHeader, false);
      SelectAll(FileEntries(|front|, g), IsHeader, false);
    }
  }

  lemma {:induction false} RefsShape(groups: seq<Dupes.Group>)
    ensures forall i :: 0 <= i < |Refs(groups)| ==>
              var e := Refs(groups)[i];
              && 0 <= e.groupIdx < |groups| && 0 <= e.fileIdx < |groups[e.groupIdx].files|
              && e.size == groups[e.groupIdx].size && e.path == groups[e.groupIdx].files[e.fileIdx]
  {
    if groups != [] {
      var front := groups[..|groups| - 1];
      RefsShape(front);
      var rs := Refs(groups);
      forall i | 0 <= i < |rs|
        ensures 0 <= rs[i].groupIdx < |groups| && 0 <= rs[i].fileIdx < |groups[rs[i].groupIdx].files|
        ensures rs[i].size == groups[rs[i].groupIdx].size && rs[i].path == groups[rs[i].groupIdx].files[rs[i].fileIdx]
      {
        if i < |Refs(front)| {
          assert rs[i] == Refs(front)[i];
          assert groups[rs[i].groupIdx] == front[rs[i].groupIdx];
        }
      }
    }
  }

  lemma RefsStep(groups: seq<Dupes.Group>, gi: nat)
    requires gi < |groups|
    ensures Refs(groups[..gi + 1]) == Refs(groups[..gi]) + FileEntries(gi, groups[gi])
  {
    assert groups[..gi + 1][..gi] == groups[..gi];
  }

  function SelectedBy(sel: set<string>): DupesEntry -> bool {
    (e: DupesEntry) => SelKey(e.groupIdx, e.fileIdx) in sel
  }

  function TrashedBy(trashOk: string -> bool): DupesEntry -> bool {
    (e: DupesEntry) => trashOk(e.path)
  }

  lemma SelectedByApply(sel: set<string>, e: DupesEntry)
    ensures SelectedBy(sel)(e) == (SelKey(e.groupIdx, e.fileIdx) in sel)
  {
  }

  lemma TrashedByApply(trashOk: string -> bool, e: DupesEntry)
    ensures TrashedBy(trashOk)(e) == trashOk(e.path)
  {
  }

  function EntrySize(e: DupesEntry): int { e.size }

  /** The selected files, in the order the clean visits them. */
  function Visited(seen: seq<DupesEntry>, sel: set<string>): seq<DupesEntry> {
    Select(seen, SelectedBy(sel), true)
  }

  /** The selected files whose move to the Trash succeeds. */
  function Trashed(seen: seq<DupesEntry>, sel: set<string>, trashOk: string -> bool): seq<DupesEntry> {
    Select(Visited(seen, sel), TrashedBy(trashOk), true)
  }

  /** The counters agree with the files visited so far. */
  predicate Tallied(seen: seq<DupesEntry>, sel: set<string>, trashOk: string -> bool, deleted: int, failed: int, freed: int) {
    && deleted == |Trashed(seen, sel, trashOk)|
    && deleted + failed == |Visited(seen, sel)|
    && freed == Sum(Trashed(seen, sel, trashOk), EntrySize)
  }

  lemma TallyStep(seen: seq<DupesEntry>, e: DupesEntry, sel: set<string>, trashOk: string -> bool,
                  deleted: int, failed: int, freed: int)
    requires Tallied(seen, sel, trashOk, deleted, failed, freed)
    ensures SelKey(e.groupIdx, e.fileIdx) !in sel ==> Tallied(seen + [e], sel, trashOk, deleted, failed, freed)
    ensures SelKey(e.groupIdx, e.fileIdx) in sel && !trashOk(e.path) ==>
              Tallied(seen + [e], sel, trashOk, deleted, failed + 1, freed)
    ensures SelKey(e.groupIdx, e.fileIdx) in sel && trashOk(e.path) ==>
              Tallied(seen + [e], sel, trashOk, deleted + 1, failed, freed + e.size)
  {
    SelectedByApply(sel, e);
    TrashedByApply(trashOk, e);
    SelectSnoc(seen, e, SelectedBy(sel), true);
    if SelKey(e.groupIdx, e.fileIdx) in sel {
      SelectSnoc(Visited(seen, sel), e, TrashedBy(trashOk), true);
      if trashOk(e.path) {
        SumSnoc(Trashed(seen, sel, trashOk), e, EntrySize);
      }
    }
  }

  lemma FileEntriesStep(gi: int, g: Dupes.Group, fi: int)
    requires 0 <= fi <= |g.files|
    ensures fi < |g.files| ==> FileEntries(gi, g)[..fi + 1] == FileEntries(gi, g)[..fi] + [FileEntry(gi, fi, g)]
    ensures fi == |g.files| ==> FileEntries(gi, g)[..fi] == FileEntries(gi, g)
  {
  }

  /** One file of the clean: skipped unless selected, else moved to the Trash and counted. */
  method CleanFile(e: DupesEntry, sel: set<string>, trashOk: string -> bool,
                   ghost seen: seq<DupesEntry>, deleted0: int, failed0: int, freed0: int)
    returns (deleted: int, failed: int, freed: int)
    requires Tallied(seen, sel, trashOk, deleted0, failed0, freed0)
    ensures Tallied(seen + [e], sel, trashOk, deleted, failed, freed)
  {
    deleted, failed, freed := deleted0, failed0, freed0;
    TallyStep(seen, e, sel, trashOk, deleted, failed, freed);
    var key := SelKey(e.groupIdx, e.fileIdx);
    if key !in sel {
      return;
    }
    if !trashOk(e.path) {
      failed := failed + 1;
    } else {
      deleted := deleted + 1;
      freed := freed + e.size;
    }
  }

  /** The files of one group the clean visits, and the counters after them. */
  method CleanGroup(gi: int, g: Dupes.Group, sel: set<string>, trashOk: string -> bool,
                    ghost seen0: seq<DupesEntry>, deleted0: int, failed0: int, freed0: int)
    returns (deleted: int, failed: int, freed: int)
    requires Tallied(seen0, sel, trashOk, deleted0, failed0, freed0)
    ensures Tallied(seen0 + FileEntries(gi, g), sel, trashOk, deleted, failed, freed)
  {
    deleted, failed, freed := deleted0, failed0, freed0;
    ghost var seen := seen0;
    for fi := 0 to |g.files|
      invariant seen == seen0 + FileEntries(gi, g)[..fi]
      invariant Tallied(seen, sel, trashOk, deleted, failed, freed)
    {
      FileEntriesStep(gi, g, fi);
      deleted, failed, freed := CleanFile(FileEntry(gi, fi, g), sel, trashOk, seen, deleted, failed, freed);
      seen := seen + [FileEntry(gi, fi, g)];
    }
    FileEntriesStep(gi, g, |g.files|);
  }

  /**
   * The clean `doDupesClean` starts: every selected file, group after group,
   * is moved to the Trash (`trashOk` says whether that succeeds for a path).
   * It counts the files moved and the files that failed, and adds up the
   * size of each file moved.
   */
  method CleanSelected(groups: seq<Dupes.Group>, sel: set<string>, trashOk: string -> bool)
    returns (deleted: int, failed: int, freed: int)
    ensures Tallied(Refs(groups), sel, trashOk, deleted, failed, freed)
  {
    deleted, failed, freed := 0, 0, 0;
    for gi := 0 to |groups|
      invariant Tallied(Refs(groups[..gi]), sel, trashOk, deleted, failed, freed)
    {
      RefsStep(groups, gi);
      deleted, failed, freed := CleanGroup(gi, groups[gi], sel, trashOk, Refs(groups[..gi]), deleted, failed, freed);
    }
    assert groups[..|groups|] == groups;
  }

  function IsCopy(e: DupesEntry): bool { e.fileIdx >= 1 }

  lemma CopiesSum(xs: seq<DupesEntry>, size: int)
    requires |xs| >= 1 && !IsCopy(xs[0])
    requires forall i :: 1 <= i < |xs| ==> IsCopy(xs[i]) && xs[i].size == size
    ensures Sum(Select(xs, IsCopy, true), EntrySize) == size * (|xs| - 1)
  {
    SelectAllButFirst(xs, IsCopy, true);
    RestSum(xs, size);
  }

  lemma RestSum(xs: seq<DupesEntry>, size: int)
    requires |xs| >= 1 && forall i :: 1 <= i < |xs| ==> xs[i].size == size
    ensures Sum(xs[1..], EntrySize) == size * (|xs| - 1)
  {
    var rest := xs[1..];
    assert forall i :: 0 <= i < |rest| ==> EntrySize(rest[i]) == size;
    SumConstant(rest, EntrySize, size);
  }

  /** A group's copies are its files but the first, and they add up to its wasted bytes. */
  lemma GroupCopySum(gi: int, g: Dupes.Group)
    requires |g.files| >= 1
    ensures Sum(Select(FileEntries(gi, g), IsCopy, true), EntrySize) == Dupes.Waste(g)
  {
    CopiesSum(FileEntries(gi, g), g.size);
  }

  lemma {:induction false} CopySum(groups: seq<Dupes.Group>)
    requires forall gi :: 0 <= gi < |groups| ==> |groups[gi].files| >= 1
    ensures Sum(Select(Refs(groups), IsCopy, true), EntrySize) == Sum(groups, Dupes.Waste)
  {
    if groups != [] {
      var front := groups[..|groups| - 1];
      var g := groups[|groups| - 1];
      CopySum(front);
      var rf := Refs(front);
      var fe := FileEntries(|front|, g);
      SelectAppend(rf, fe, IsCopy, true);
      SumAppend(Select(rf, IsCopy, true), Select(fe, IsCopy, true), EntrySize);
      GroupCopySum(|front|, g);
    }
  }

  /**
   * With the pre-selection and every move to the Trash succeeding, the clean
   * visits exactly the copies, nothing fails, and the bytes freed are the
   * groups' wasted bytes — the total the duplicates report promises.
   */
  lemma PreSelectFreesWaste(groups: seq<Dupes.Group>, trashOk: string -> bool)
    requires forall gi :: 0 <= gi < |groups| ==> |groups[gi].files| >= 1
    requires forall p :: trashOk(p)
    ensures Visited(Refs(groups), CopyKeys(groups)) == Select(Refs(groups), IsCopy, true)
    ensures Trashed(Refs(groups), CopyKeys(groups), trashOk) == Visited(Refs(groups), CopyKeys(groups))
    ensures Sum(Trashed(Refs(groups), CopyKeys(groups), trashOk), EntrySize) == Sum(groups, Dupes.Waste)
  {
    var rs := Refs(groups);
    var sel := CopyKeys(groups);
    RefsShape(groups);
    forall i | 0 <= i < |rs|
      ensures SelectedBy(sel)(rs[i]) == true <==> IsCopy(rs[i]) == true
    {
      SelectedByApply(sel, rs[i]);
      CopyKeysMeaning(groups, rs[i].groupIdx, rs[i].fileIdx);
    }
    SelectCongruent(rs, SelectedBy(sel), IsCopy, true);
    var v := Visited(rs, sel);
    forall i | 0 <= i < |v|
      ensures TrashedBy(trashOk)(v[i]) == true
    {
      TrashedByApply(trashOk, v[i]);
    }
    SelectAll(v, TrashedBy(trashOk), true);
    CopySum(groups);
  }

  // ---------------------------------------------------------------------------
  // The model
  // ---------------------------------------------------------------------------

  /** The part of the interface's `Model` these operations read and update. */
  class Model {
    var height: int
    var cursor: int
    var categoryCursor: int
    var scrollOffset: int
    var dupGroups: seq<Dupes.Group>
    var dupSelected: set<string>
    var dupCursor: int
    var dupScrollOffset: int
    var dupCleaning: bool
    var dupCleanDone: int
    var dupCleanTotal: int

    /** `New`: every field at its zero value and an empty selection. */
    constructor ()
      ensures height == 0 && cursor == 0 && categoryCursor == 0 && scrollOffset == 0
      ensures dupGroups == [] && dupSelected == {} && dupCursor == 0 && dupScrollOffset == 0
      ensures !dupCleaning && dupCleanDone == 0 && dupCleanTotal == 0
    {
      height := 0;
      cursor := 0;
      categoryCursor := 0;
      scrollOffset := 0;
      dupGroups := [];
      dupSelected := {};
      dupCursor := 0;
      dupScrollOffset := 0;
      dupCleaning := false;
      dupCleanDone := 0;
      dupCleanTotal := 0;
    }

    /** `ensureCursorVisible`: scrolls the category list so that its cursor is on screen. */
    method EnsureCursorVisible()
      modifies this
      ensures scrollOffset == ScrollFor(old(scrollOffset), categoryCursor, VisibleItems(height))
      ensures scrollOffset <= categoryCursor < scrollOffset + VisibleItems(height)
      ensures height == old(height) && cursor == old(cursor) && categoryCursor == old(categoryCursor)
      ensures dupGroups == old(dupGroups) && dupSelected == old(dupSelected) && dupCursor == old(dupCursor)
      ensures dupScrollOffset == old(dupScrollOffset) && dupCleaning == old(dupCleaning)
      ensures dupCleanDone == old(dupCleanDone) && dupCleanTotal == old(dupCleanTotal)
    {
      var visible := VisibleItems(height);
      if categoryCursor < scrollOffset {
        scrollOffset := categoryCursor;
      }
      if categoryCursor >= scrollOffset + visible {
        scrollOffset := categoryCursor - visible + 1;
      }
    }

    /** The up and down keys of `updateMenu`. */
    method MenuKey(key: string)
      modifies this
      ensures cursor == MenuMove(old(cursor), key)
      ensures height == old(height) && categoryCursor == old(categoryCursor) && scrollOffset == old(scrollOffset)
      ensures dupGroups == old(dupGroups) && dupSelected == old(dupSelected) && dupCursor == old(dupCursor)
      ensures dupScrollOffset == old(dupScrollOffset) && dupCleaning == old(dupCleaning)
      ensures dupCleanDone == old(dupCleanDone) && dupCleanTotal == old(dupCleanTotal)
    {
      if IsUp(key) {
        if cursor > 0 {
          cursor := cursor - 1;
        }
      } else if IsDown(key) {
        if cursor < |MenuItems| - 1 {
          cursor := cursor + 1;
        }
      }
    }

    /**
     * The `dupesDoneMsg` handler: shows the groups found from the top and
     * pre-selects every copy, so that no group's kept file is selected.
     */
    method DupesDone(groups: seq<Dupes.Group>)
      modifies this
      ensures dupGroups == groups && dupCursor == 0 && dupScrollOffset == 0
      ensures dupSelected == CopyKeys(groups)
      ensures NoKeepSelected(dupGroups, dupSelected)
      ensures height == old(height) && cursor == old(cursor) && categoryCursor == old(categoryCursor)
      ensures scrollOffset == old(scrollOffset) && dupCleaning == old(dupCleaning)
      ensures dupCleanDone == old(dupCleanDone) && dupCleanTotal == old(dupCleanTotal)
    {
      dupGroups := groups;
      dupCursor := 0;
      dupScrollOffset := 0;
      dupSelected := PreSelect(groups);
      forall gi: nat | gi < |groups|
        ensures SelKey(gi, 0) !in dupSelected
      {
        CopyKeysMeaning(groups, gi, 0);
      }
    }

    /**
     * The up, down and space keys of `updateDupes` once the scan is done: up
     * and down move the cursor past headers and scroll it into view; space
     * flips the selection of the copy under the cursor.
     */
    method DupesKey(key: string)
      requires dupCursor >= 0
      modifies this
      ensures var entries := FlatList(dupGroups);
              && dupCursor == DupMove(entries, old(dupCursor), key)
              && dupScrollOffset == (if DupMoves(entries, old(dupCursor), key)
                                     then ScrollFor(old(dupScrollOffset), dupCursor, VisibleItems(height))
                                     else old(dupScrollOffset))
      ensures var t := ToggleKey(FlatList(dupGroups), old(dupCursor));
              dupSelected == if key == " " && t.Some? then Toggled(old(dupSelected), t.value) else old(dupSelected)
      ensures old(NoKeepSelected(dupGroups, dupSelected)) ==> NoKeepSelected(dupGroups, dupSelected)
      ensures dupGroups == old(dupGroups) && height == old(height) && cursor == old(cursor)
      ensures categoryCursor == old(categoryCursor) && scrollOffset == old(scrollOffset)
      ensures dupCleaning == old(dupCleaning) && dupCleanDone == old(dupCleanDone) && dupCleanTotal == old(dupCleanTotal)
    {
      var groups, c0, sel0 := dupGroups, dupCursor, dupSelected;
      var entries := DupesFlatList(groups);
      ToggleKeepsKeep(groups, sel0, c0);
      if DupMoves(entries, c0, key) {
        dupCursor := DupMove(entries, c0, key);
        dupScrollOffset := ScrollFor(dupScrollOffset, dupCursor, VisibleItems(height));
      } else if key == " " {
        var t := ToggleKey(entries, c0);
        if t.Some? {
          if t.value in sel0 {
            dupSelected := sel0 - {t.value};
          } else {
            dupSelected := sel0 + {t.value};
          }
        }
      }
      assert groups == dupGroups;
    }

    /**
     * `doDupesClean`: records that a clean of all the selected keys has
     * begun, then runs it over the groups shown.
     */
    method DoDupesClean(trashOk: string -> bool) returns (deleted: int, failed: int, freed: int)
      modifies this
      ensures dupCleaning && dupCleanDone == 0 && dupCleanTotal == |dupSelected|
      ensures Tallied(Refs(dupGroups), dupSelected, trashOk, deleted, failed, freed)
      ensures dupGroups == old(dupGroups) && dupSelected == old(dupSelected)
      ensures height == old(height) && cursor == old(cursor) && categoryCursor == old(categoryCursor)
      ensures scrollOffset == old(scrollOffset) && dupCursor == old(dupCursor) && dupScrollOffset == old(dupScrollOffset)
    {
      var groups, selected := dupGroups, dupSelected;
      deleted, failed, freed := CleanSelected(groups, selected, trashOk);
      dupCleaning := true;
      dupCleanDone := 0;
      dupCleanTotal := |selected|;
      assert groups == dupGroups && selected == dupSelected;
    }
  }
}
