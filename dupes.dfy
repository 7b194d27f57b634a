/**
 * The duplicate-file finder: a walk that buckets regular files by size, a
 * pass that splits each bucket by the hash of the first 4096 bytes, a pass
 * that splits again by the hash of the whole content, and an ordering of
 * the surviving groups by the space they waste.
 *
 * The directory walks are given as listings of entries in walk order (one
 * listing per root, the root included), file contents as a `read`
 * function and the digest as an uninterpreted `hash` function.
 */
module Dupes {
  import opened Wrappers
  import opened StrUtil
  import opened Folds
  import opened Sorting
  import opened Ctx

  newtype byte = b: int | 0 <= b < 256

  /** Number of bytes the partial pass hashes. */
  const PartialHashSize: nat := 4096

  /**
   * One entry a `filepath.WalkDir` callback sees. `walkErr` is an error
   * passed to the callback; `infoOk` is whether `Info()` succeeds;
   * `hasGitChild` is whether `path/.git` exists.
   */
  datatype Entry = Entry(
    path: string,
    name: string,
    isDir: bool,
    isSymlink: bool,
    infoOk: bool,
    isRegular: bool,
    size: int,
    hasGitChild: bool,
    walkErr: bool)

  /** A group of files with one size and one digest (`candidate` and `Group`). */
  datatype Group = Group(size: int, hash: string, files: seq<string>)

  // ---------------------------------------------------------------------------
  // Pass 1: the walk
  // ---------------------------------------------------------------------------

  /** What the walk callback decides for an entry it processes. */
  datatype Verdict = Ignore | SkipDir | Accept

  predicate Hidden(name: string) {
    |name| > 0 && name[0] == '.'
  }

  /** The entries the size pass keeps. */
  predicate Eligible(e: Entry, minSize: int) {
    !e.isDir && !Hidden(e.name) && !e.isSymlink && e.infoOk && e.isRegular && e.size >= minSize
  }

  predicate PrunesTree(e: Entry) {
    e.isDir && (e.name == ".git" || e.hasGitChild)
  }

  function Classify(e: Entry, minSize: int): (v: Verdict)
    ensures v == Accept <==> Eligible(e, minSize)
    ensures v == SkipDir <==> PrunesTree(e)
  {
    if e.isDir then
      if e.name == ".git" then SkipDir
      else if e.hasGitChild then SkipDir
      else Ignore
    else if Hidden(e.name) then Ignore
    else if e.isSymlink then Ignore
    else if !e.infoOk then Ignore
    else if !e.isRegular then Ignore
    else if e.size < minSize then Ignore
    else Accept
  }

  /** `path` lies inside one of the pruned directories. */
  predicate UnderAny(path: string, skips: seq<string>) {
    exists k :: 0 <= k < |skips| && HasPrefix(path, skips[k] + "/")
  }

  /**
   * The walk's progress: the directories pruned in the current root, the
   * files kept so far, the number of cancellation polls made, and whether a
   * poll found the context cancelled (which ends the walk).
   */
  datatype WalkState = WalkState(skips: seq<string>, accepted: seq<Entry>, polls: nat, cancelled: bool)

  function WalkStep(ctx: Context, minSize: int, st: WalkState, e: Entry): WalkState {
    if st.cancelled || e.walkErr || UnderAny(e.path, st.skips) then st
    else if ctx.DoneAt(st.polls) then st.(polls := st.polls + 1, cancelled := true)
    else match Classify(e, minSize)
      case Ignore => st.(polls := st.polls + 1)
      case SkipDir => st.(polls := st.polls + 1, skips := st.skips + [e.path])
      case Accept => st.(polls := st.polls + 1, accepted := st.accepted + [e])
  }

  /** The walk of one root's listing from state `st`. */
  function WalkFrom(ctx: Context, minSize: int, st: WalkState, es: seq<Entry>): WalkState {
    if es == [] then st
    else WalkStep(ctx, minSize, WalkFrom(ctx, minSize, st, es[..|es| - 1]), es[|es| - 1])
  }

  /** The walks of all roots in order; pruning does not carry across roots. */
  function WalkAll(ctx: Context, minSize: int, listings: seq<seq<Entry>>): WalkState {
    if listings == [] then WalkState([], [], 0, false)
    else
      var st := WalkAll(ctx, minSize, listings[..|listings| - 1]);
      if st.cancelled then st
      else WalkFrom(ctx, minSize, st.(skips := []), listings[|listings| - 1])
  }

  function EntryPath(e: Entry): string { e.path }

  /** The paths of the files in `xs` whose size is `s`, in order. */
  function PathsOfSize(xs: seq<Entry>, s: int): seq<string> {
    if xs == [] then []
    else PathsOfSize(xs[..|xs| - 1], s) + (if xs[|xs| - 1].size == s then [xs[|xs| - 1].path] else [])
  }

  lemma {:induction false} PathsOfSizeMembers(xs: seq<Entry>, s: int, f: string)
    requires f in PathsOfSize(xs, s)
    ensures exists e :: e in xs && e.path == f && e.size == s
  {
    var front := xs[..|xs| - 1];
    assert xs == front + [xs[|xs| - 1]];
    if f in PathsOfSize(front, s) {
      PathsOfSizeMembers(front, s, f);
      var e :| e in front && e.path == f && e.size == s;
      assert e in xs;
    }
  }

  lemma {:induction false} WalkFromKeeps(ctx: Context, minSize: int, st: WalkState, es: seq<Entry>)
    requires forall e :: e in st.accepted ==> Eligible(e, minSize)
    ensures forall e :: e in WalkFrom(ctx, minSize, st, es).accepted ==> Eligible(e, minSize)
    ensures ctx.Background? ==> WalkFrom(ctx, minSize, st, es).cancelled == st.cancelled
    ensures WalkFrom(ctx, minSize, st, es).polls >= st.polls
  {
    if es != [] {
      WalkFromKeeps(ctx, minSize, st, es[..|es| - 1]);
    }
  }

  /**
   * Every file the walk keeps passed all the filters: it is a regular file,
   * not a directory, a symbolic link or a dotfile, and at least `minSize`
   * bytes long. A context that is never cancelled never ends the walk.
   */
  lemma {:induction false} WalkAllKeepsEligible(ctx: Context, minSize: int, listings: seq<seq<Entry>>)
    ensures forall e :: e in WalkAll(ctx, minSize, listings).accepted ==> Eligible(e, minSize)
    ensures ctx.Background? ==> !WalkAll(ctx, minSize, listings).cancelled
  {
    if listings != [] {
      var st := WalkAll(ctx, minSize, listings[..|listings| - 1]);
      WalkAllKeepsEligible(ctx, minSize, listings[..|listings| - 1]);
      if !st.cancelled {
        WalkFromKeeps(ctx, minSize, st.(skips := []), listings[|listings| - 1]);
      }
    }
  }

  /** A pruned directory's descendants are never processed after it. */
  lemma PrunedSubtreeIgnored(ctx: Context, minSize: int, st: WalkState, e: Entry)
    requires UnderAny(e.path, st.skips)
    ensures WalkStep(ctx, minSize, st, e) == st
  {
  }

  lemma {:induction false} WalkFromAppend(ctx: Context, minSize: int, st: WalkState, a: seq<Entry>, b: seq<Entry>)
    ensures WalkFrom(ctx, minSize, st, a + b) == WalkFrom(ctx, minSize, WalkFrom(ctx, minSize, st, a), b)
    decreases |b|
  {
    if b == [] {
      assert a + b == a;
    } else {
      var b' := b[..|b| - 1];
      assert (a + b)[..|a + b| - 1] == a + b';
      WalkFromAppend(ctx, minSize, st, a, b');
    }
  }

  lemma {:induction false} WalkAllFrozen(ctx: Context, minSize: int, listings: seq<seq<Entry>>, k: nat)
    requires k <= |listings| && WalkAll(ctx, minSize, listings[..k]).cancelled
    ensures WalkAll(ctx, minSize, listings) == WalkAll(ctx, minSize, listings[..k])
  {
    if k < |listings| {
      var front := listings[..|listings| - 1];
      assert front[..k] == listings[..k];
      WalkAllFrozen(ctx, minSize, front, k);
    } else {
      assert listings[..k] == listings;
    }
  }

  /** A poll found the context cancelled at entry `j`: that ends the root's walk. */
  lemma CancelledRoot(ctx: Context, minSize: int, st0: WalkState, es: seq<Entry>, j: nat, st: WalkState)
    requires j < |es| && st == WalkFrom(ctx, minSize, st0, es[..j + 1]) && st.cancelled
    ensures WalkFrom(ctx, minSize, st0, es) == st
  {
    WalkFromAppend(ctx, minSize, st0, es[..j + 1], es[j + 1..]);
    assert es[..j + 1] + es[j + 1..] == es;
    WalkFromFrozen(ctx, minSize, st, es[j + 1..]);
  }

  lemma {:induction false} WalkFromFrozen(ctx: Context, minSize: int, st: WalkState, es: seq<Entry>)
    requires st.cancelled
    ensures WalkFrom(ctx, minSize, st, es) == st
  {
    if es != [] {
      WalkFromFrozen(ctx, minSize, st, es[..|es| - 1]);
    }
  }

  /** The size buckets the walk builds, as promised by `GroupBySize`. */
  ghost predicate SizeBuckets(m: map<int, seq<string>>, accepted: seq<Entry>) {
    forall s :: (s in m ==> m[s] == PathsOfSize(accepted, s)) && (s !in m ==> PathsOfSize(accepted, s) == [])
  }

  /**
   * The output of the size pass: one group per size shared by at least two
   * kept files, holding those files' paths in walk order.
   */
  ghost predicate SizeGroups(gs: seq<Group>, accepted: seq<Entry>) {
    (forall i :: 0 <= i < |gs| ==>
       gs[i].hash == "" && gs[i].files == PathsOfSize(accepted, gs[i].size) && |gs[i].files| >= 2)
    && (forall s :: |PathsOfSize(accepted, s)| >= 2 ==> exists i :: 0 <= i < |gs| && gs[i].size == s)
    && (forall i, j :: 0 <= i < j < |gs| ==> gs[i].size != gs[j].size)
  }

  /** Keeps the buckets with two or more files. */
  method BucketsToGroups(m: map<int, seq<string>>) returns (gs: seq<Group>)
    ensures forall i :: 0 <= i < |gs| ==> gs[i].size in m && gs[i] == Group(gs[i].size, "", m[gs[i].size]) && |gs[i].files| >= 2
    ensures forall s :: s in m && |m[s]| >= 2 ==> exists i :: 0 <= i < |gs| && gs[i].size == s
    ensures forall i, j :: 0 <= i < j < |gs| ==> gs[i].size != gs[j].size
  {
    gs := [];
    var rest := m.Keys;
    while rest != {}
      invariant rest <= m.Keys
      invariant forall i :: 0 <= i < |gs| ==> gs[i].size in m.Keys - rest && gs[i] == Group(gs[i].size, "", m[gs[i].size]) && |gs[i].files| >= 2
      invariant forall s :: s in m.Keys - rest && |m[s]| >= 2 ==> exists i :: 0 <= i < |gs| && gs[i].size == s
      invariant forall i, j :: 0 <= i < j < |gs| ==> gs[i].size != gs[j].size
      decreases rest
    {
      ghost var some := Pick(rest);
      var s :| s in rest;
      ghost var before := gs;
      if |m[s]| >= 2 {
        gs := gs + [Group(s, "", m[s])];
        assert gs[|gs| - 1].size == s;
      }
      assert forall i :: 0 <= i < |before| ==> gs[i] == before[i];
      rest := rest - {s};
    }
  }

  /** Appending a kept file to its size bucket. */
  lemma AcceptStep(sizeMap: map<int, seq<string>>, accepted: seq<Entry>, e: Entry)
    requires SizeBuckets(sizeMap, accepted)
    ensures SizeBuckets(sizeMap[e.size := (if e.size in sizeMap then sizeMap[e.size] else []) + [e.path]], accepted + [e])
  {
    assert (accepted + [e])[..|accepted|] == accepted;
  }

  /**
   * The walk of one root: the callback applied to the entries of `es` in
   * order, appending kept files to their size bucket and to the progress
   * trace. It stops at the first poll that finds the context cancelled.
   */
  method WalkRoot(ctx: Context, es: seq<Entry>, minSize: int, report: bool, ghost st0: WalkState,
                  sizeMap0: map<int, seq<string>>, trace0: seq<string>, polls0: nat)
    returns (cancelled: bool, sizeMap: map<int, seq<string>>, trace: seq<string>, polls: nat, ghost st: WalkState)
    requires !st0.cancelled && st0.skips == [] && polls0 == st0.polls
    requires SizeBuckets(sizeMap0, st0.accepted)
    requires trace0 == if report then Map(st0.accepted, EntryPath) else []
    ensures st == WalkFrom(ctx, minSize, st0, es)
    ensures cancelled == st.cancelled && polls == st.polls
    ensures SizeBuckets(sizeMap, st.accepted)
    ensures trace == if report then Map(st.accepted, EntryPath) else []
  {
    sizeMap, trace, polls, st := sizeMap0, trace0, polls0, st0;
    var skips: seq<string> := [];
    var j := 0;
    while j < |es|
      invariant 0 <= j <= |es|
      invariant st == WalkFrom(ctx, minSize, st0, es[..j]) && !st.cancelled
      invariant skips == st.skips && polls == st.polls
      invariant SizeBuckets(sizeMap, st.accepted)
      invariant trace == if report then Map(st.accepted, EntryPath) else []
    {
      var e := es[j];
      assert es[..j + 1][..j] == es[..j];
      if !e.walkErr && !UnderAny(e.path, skips) {
        if ctx.DoneAt(polls) {
          st := WalkStep(ctx, minSize, st, e);
          CancelledRoot(ctx, minSize, st0, es, j, st);
          polls := polls + 1;
          cancelled := true;
          return;
        }
        polls := polls + 1;
        var verdict := Classify(e, minSize);
        if verdict == SkipDir {
          skips := skips + [e.path];
        } else if verdict == Accept {
          if report {
            MapSnoc(st.accepted, e, EntryPath);
            trace := trace + [e.path];
          }
          AcceptStep(sizeMap, st.accepted, e);
          var bucket := if e.size in sizeMap then sizeMap[e.size] else [];
          sizeMap := sizeMap[e.size := bucket + [e.path]];
        }
      }
      st := WalkStep(ctx, minSize, st, e);
      j := j + 1;
    }
    assert es[..j] == es;
    cancelled := false;
  }

  /**
   * `groupBySize`: walks every root, polling for cancellation at each entry
   * the callback processes, and groups the kept files by size. `trace` is
   * the sequence of paths passed to the progress callback, which is present
   * exactly when `report` holds.
   */
  method GroupBySize(ctx: Context, listings: seq<seq<Entry>>, minSize: int, report: bool)
    returns (res: Option<seq<Group>>, trace: seq<string>, polls: nat)
    ensures polls == WalkAll(ctx, minSize, listings).polls
    ensures trace == if report then Map(WalkAll(ctx, minSize, listings).accepted, EntryPath) else []
    ensures res.None? <==> WalkAll(ctx, minSize, listings).cancelled
    ensures res.Some? ==> SizeGroups(res.value, WalkAll(ctx, minSize, listings).accepted)
  {
    var sizeMap: map<int, seq<string>> := map[];
    ghost var st := WalkState([], [], 0, false);
    polls := 0;
    trace := [];
    var k := 0;
    while k < |listings|
      invariant 0 <= k <= |listings|
      invariant st == WalkAll(ctx, minSize, listings[..k]) && !st.cancelled
      invariant polls == st.polls
      invariant SizeBuckets(sizeMap, st.accepted)
      invariant trace == if report then Map(st.accepted, EntryPath) else []
    {
      assert listings[..k + 1][..k] == listings[..k];
      var cancelled;
      cancelled, sizeMap, trace, polls, st := WalkRoot(ctx, listings[k], minSize, report, st.(skips := []), sizeMap, trace, polls);
      if cancelled {
        WalkAllFrozen(ctx, minSize, listings, k + 1);
        res := None;
        return;
      }
      k := k + 1;
    }
    assert listings[..k] == listings;
    var gs := BucketsToGroups(sizeMap);
    SizeGroupsFromBuckets(sizeMap, st.accepted, gs);
    res := Some(gs);
  }

  lemma SizeGroupsFromBuckets(m: map<int, seq<string>>, accepted: seq<Entry>, gs: seq<Group>)
    requires SizeBuckets(m, accepted)
    requires forall i :: 0 <= i < |gs| ==> gs[i].size in m && gs[i] == Group(gs[i].size, "", m[gs[i].size]) && |gs[i].files| >= 2
    requires forall s :: s in m && |m[s]| >= 2 ==> exists i :: 0 <= i < |gs| && gs[i].size == s
    requires forall i, j :: 0 <= i < j < |gs| ==> gs[i].size != gs[j].size
    ensures SizeGroups(gs, accepted)
  {
    forall s | |PathsOfSize(accepted, s)| >= 2
      ensures exists i :: 0 <= i < |gs| && gs[i].size == s
    {
      assert s in m;
    }
  }

  // ---------------------------------------------------------------------------
  // Passes 2 and 3: splitting groups by digest
  // ---------------------------------------------------------------------------

  function Min(a: int, b: int): int { if a < b then a else b }

  /**
   * `hashFile`: the digest of the file's first 4096 bytes (partial) or of
   * all of it; `None` when the file cannot be read.
   */
  function FileHash(read: string -> Option<seq<byte>>, hash: seq<byte> -> string, f: string, partial: bool): (r: Option<string>)
    ensures read(f).None? ==> r.None?
    ensures read(f).Some? && partial ==> r == Some(hash(read(f).value[..Min(|read(f).value|, PartialHashSize)]))
    ensures read(f).Some? && !partial ==> r == Some(hash(read(f).value))
  {
    match read(f)
    case None => None
    case Some(bytes) =>
      if partial then Some(hash(bytes[..Min(|bytes|, PartialHashSize)])) else Some(hash(bytes))
  }

  /** A file shorter than 4096 bytes gets the same digest in both passes. */
  lemma ShortFileSameHash(read: string -> Option<seq<byte>>, hash: seq<byte> -> string, f: string)
    requires read(f).Some? && |read(f).value| <= PartialHashSize
    ensures FileHash(read, hash, f, true) == FileHash(read, hash, f, false)
  {
    assert read(f).value[..|read(f).value|] == read(f).value;
  }

  /** The files of `files` whose digest is `h`, in order; unreadable files never match. */
  function FilesWithHash(read: string -> Option<seq<byte>>, hash: seq<byte> -> string, partial: bool,
                         files: seq<string>, h: string): seq<string>
  {
    if files == [] then []
    else
      FilesWithHash(read, hash, partial, files[..|files| - 1], h)
      + (if FileHash(read, hash, files[|files| - 1], partial) == Some(h) then [files[|files| - 1]] else [])
  }

  lemma {:induction false} FilesWithHashSound(read: string -> Option<seq<byte>>, hash: seq<byte> -> string, partial: bool,
                                              files: seq<string>, h: string)
    ensures IsSubseq(FilesWithHash(read, hash, partial, files, h), files)
    ensures forall f :: f in FilesWithHash(read, hash, partial, files, h) ==> f in files && FileHash(read, hash, f, partial) == Some(h)
  {
    if files != [] {
      var front := files[..|files| - 1];
      var x := files[|files| - 1];
      FilesWithHashSound(read, hash, partial, front, h);
      var s := FilesWithHash(read, hash, partial, front, h);
      assert files == front + [x];
      if FileHash(read, hash, x, partial) == Some(h) {
        assert FilesWithHash(read, hash, partial, files, h) == s + [x];
        assert (s + [x])[..|s|] == s;
      } else {
        assert FilesWithHash(read, hash, partial, files, h) == s;
        SubseqSnoc(s, front, x);
      }
    }
  }

  /** The sub-group of `c` whose members have digest `h`. */
  function SubGroup(read: string -> Option<seq<byte>>, hash: seq<byte> -> string, partial: bool, c: Group, h: string): Group {
    Group(c.size, h, FilesWithHash(read, hash, partial, c.files, h))
  }

  /** What the hash passes promise: the sub-groups with two or more files, and only those. */
  ghost predicate Refines(out: seq<Group>, cands: seq<Group>, read: string -> Option<seq<byte>>, hash: seq<byte> -> string, partial: bool) {
    (forall r :: r in out ==>
       |r.files| >= 2 && exists i :: 0 <= i < |cands| && r == SubGroup(read, hash, partial, cands[i], r.hash))
    && (forall i, h :: 0 <= i < |cands| && |FilesWithHash(read, hash, partial, cands[i].files, h)| >= 2 ==>
          SubGroup(read, hash, partial, cands[i], h) in out)
  }

  function PollsOf(c: Group): int { 1 + |c.files| }

  /** The polls a complete hash pass makes: one per group and one per file. */
  function PollsNeeded(cands: seq<Group>): int { Sum(cands, PollsOf) }

  lemma {:induction false} PollsNeededPositive(cands: seq<Group>)
    ensures PollsNeeded(cands) >= |cands|
  {
    if cands != [] {
      PollsNeededPositive(cands[..|cands| - 1]);
    }
  }

  lemma PollsSplit(cands: seq<Group>, i: nat)
    requires i < |cands|
    ensures PollsNeeded(cands[..i + 1]) == PollsNeeded(cands[..i]) + 1 + |cands[i].files|
    ensures PollsNeeded(cands) >= PollsNeeded(cands[..i + 1])
    ensures PollsNeeded(cands[..i]) >= 0
  {
    PollsNeededPositive(cands[..i]);
    assert cands[..i + 1] == cands[..i] + [cands[i]];
    SumSnoc(cands[..i], cands[i], PollsOf);
    SumAppend(cands[..i + 1], cands[i + 1..], PollsOf);
    assert cands[..i + 1] + cands[i + 1..] == cands;
    PollsNeededPositive(cands[i + 1..]);
  }

  /** Some poll numbered from `p0` to `p0 + n - 1` finds the context cancelled. */
  predicate CancelsWithin(ctx: Context, p0: nat, n: int) {
    n > 0 && ctx.DoneAt(p0 + n - 1)
  }

  /** Splits one group by digest: the hash map of `refineByHash`. */
  method HashBuckets(ctx: Context, c: Group, read: string -> Option<seq<byte>>, hash: seq<byte> -> string, partial: bool, polls0: nat)
    returns (m: Option<map<string, seq<string>>>, polls: nat)
    ensures m.None? <==> CancelsWithin(ctx, polls0, |c.files|)
    ensures m.Some? ==> polls == polls0 + |c.files|
    ensures m.Some? ==> forall h :: (h in m.value ==> m.value[h] == FilesWithHash(read, hash, partial, c.files, h))
                                   && (h !in m.value ==> FilesWithHash(read, hash, partial, c.files, h) == [])
  {
    var hashMap: map<string, seq<string>> := map[];
    polls := polls0;
    var j := 0;
    while j < |c.files|
      invariant 0 <= j <= |c.files|
      invariant polls == polls0 + j
      invariant j > 0 ==> !ctx.DoneAt(polls - 1)
      invariant forall h :: (h in hashMap ==> hashMap[h] == FilesWithHash(read, hash, partial, c.files[..j], h))
                            && (h !in hashMap ==> FilesWithHash(read, hash, partial, c.files[..j], h) == [])
    {
      if ctx.DoneAt(polls) {
        m := None;
        return;
      }
      var f := c.files[j];
      assert c.files[..j + 1][..j] == c.files[..j];
      var fh := FileHash(read, hash, f, partial);
      if fh.Some? {
        var bucket := if fh.value in hashMap then hashMap[fh.value] else [];
        hashMap := hashMap[fh.value := bucket + [f]];
      }
      polls := polls + 1;
      j := j + 1;
    }
    assert c.files[..j] == c.files;
    m := Some(hashMap);
  }

  /** Keeps the digest buckets of `c` with two or more files, appending them to `out`. */
  method EmitSubGroups(c: Group, buckets: map<string, seq<string>>, out: seq<Group>) returns (out': seq<Group>)
    ensures forall r :: r in out' ==> r in out || (r.hash in buckets && r == Group(c.size, r.hash, buckets[r.hash]) && |r.files| >= 2)
    ensures forall r :: r in out ==> r in out'
    ensures forall h :: h in buckets && |buckets[h]| >= 2 ==> Group(c.size, h, buckets[h]) in out'
    ensures Distinct(out) && (forall h :: h in buckets ==> Group(c.size, h, buckets[h]) !in out) ==> Distinct(out')
  {
    out' := out;
    var rest := buckets.Keys;
    while rest != {}
      invariant rest <= buckets.Keys
      invariant forall r :: r in out' ==> r in out || (r.hash in buckets.Keys - rest && r == Group(c.size, r.hash, buckets[r.hash]) && |r.files| >= 2)
      invariant forall r :: r in out ==> r in out'
      invariant forall h :: h in buckets.Keys - rest && |buckets[h]| >= 2 ==> Group(c.size, h, buckets[h]) in out'
      invariant Distinct(out) && (forall h :: h in buckets ==> Group(c.size, h, buckets[h]) !in out) ==> Distinct(out')
      decreases rest
    {
      var h :| h in rest;
      if |buckets[h]| >= 2 {
        out' := out' + [Group(c.size, h, buckets[h])];
      }
      rest := rest - {h};
    }
  }

  /**
   * `refineByHash`: splits each group by digest, polling for cancellation
   * once per group and once per file, and keeps the sub-groups with two or
   * more files.
   */
  method RefineByHash(ctx: Context, cands: seq<Group>, partial: bool,
                      read: string -> Option<seq<byte>>, hash: seq<byte> -> string, polls0: nat)
    returns (res: Option<seq<Group>>, polls: nat)
    ensures res.None? <==> CancelsWithin(ctx, polls0, PollsNeeded(cands))
    ensures res.Some? ==> polls == polls0 + PollsNeeded(cands)
    ensures res.Some? ==> Refines(res.value, cands, read, hash, partial)
    ensures res.Some? && Separate(cands) ==> Distinct(res.value)
  {
    var refined: seq<Group> := [];
    polls := polls0;
    var i := 0;
    while i < |cands|
      invariant 0 <= i <= |cands|
      invariant polls == polls0 + PollsNeeded(cands[..i])
      invariant polls > polls0 ==> !ctx.DoneAt(polls - 1)
      invariant RefinedUpTo(refined, cands, i, read, hash, partial)
    {
      var c := cands[i];
      PollsSplit(cands, i);
      if ctx.DoneAt(polls) {
        DoneStays(ctx, polls, polls0 + PollsNeeded(cands) - 1);
        res := None;
        return;
      }
      var buckets, p := HashBuckets(ctx, c, read, hash, partial, polls + 1);
      if buckets.None? {
        DoneStays(ctx, polls + |c.files|, polls0 + PollsNeeded(cands) - 1);
        res := None;
        return;
      }
      polls := p;
      ghost var before := refined;
      refined := EmitSubGroups(c, buckets.value, refined);
      RefineStep(cands, i, before, refined, buckets.value, read, hash, partial);
      i := i + 1;
    }
    assert cands[..i] == cands;
    res := Some(refined);
  }

  /** What a hash pass has produced after the first `n` input groups. */
  ghost predicate RefinedUpTo(refined: seq<Group>, cands: seq<Group>, n: nat,
                              read: string -> Option<seq<byte>>, hash: seq<byte> -> string, partial: bool) {
    n <= |cands|
    && (forall r :: r in refined ==>
       |r.files| >= 2 && exists i' :: 0 <= i' < n && r == SubGroup(read, hash, partial, cands[i'], r.hash))
    && (forall i', h :: 0 <= i' < n && |FilesWithHash(read, hash, partial, cands[i'].files, h)| >= 2 ==>
          SubGroup(read, hash, partial, cands[i'], h) in refined)
    && (Separate(cands) ==> Distinct(refined))
  }

  /** Two groups of one size share no file. */
  predicate Separate(gs: seq<Group>) {
    forall i, j :: 0 <= i < j < |gs| ==>
      gs[i].size != gs[j].size || forall f :: f in gs[i].files ==> f !in gs[j].files
  }

  /** A sub-group of input group `i` is none of the groups refined from the groups before it. */
  lemma FreshSubGroup(cands: seq<Group>, i: nat, refined: seq<Group>, read: string -> Option<seq<byte>>,
                      hash: seq<byte> -> string, partial: bool, h: string)
    requires Separate(cands) && i < |cands|
    requires forall r :: r in refined ==>
      |r.files| >= 2 && exists i' :: 0 <= i' < i && r == SubGroup(read, hash, partial, cands[i'], r.hash)
    ensures SubGroup(read, hash, partial, cands[i], h) !in refined
  {
    var g := SubGroup(read, hash, partial, cands[i], h);
    FilesWithHashSound(read, hash, partial, cands[i].files, h);
    forall r | r in refined
      ensures r != g
    {
      var i' :| 0 <= i' < i && r == SubGroup(read, hash, partial, cands[i'], r.hash);
      FilesWithHashSound(read, hash, partial, cands[i'].files, r.hash);
      assert r.files[0] in cands[i'].files;
    }
  }

  /** The groups a hash pass produces without repeats from separate groups are separate in turn. */
  lemma RefinedSeparate(out: seq<Group>, cands: seq<Group>, read: string -> Option<seq<byte>>,
                        hash: seq<byte> -> string, partial: bool)
    requires Separate(cands) && Refines(out, cands, read, hash, partial) && Distinct(out)
    ensures Separate(out)
  {
    forall i, j | 0 <= i < j < |out| && out[i].size == out[j].size
      ensures forall f :: f in out[i].files ==> f !in out[j].files
    {
      assert out[i] in out && out[j] in out;
      var a :| 0 <= a < |cands| && out[i] == SubGroup(read, hash, partial, cands[a], out[i].hash);
      var b :| 0 <= b < |cands| && out[j] == SubGroup(read, hash, partial, cands[b], out[j].hash);
      FilesWithHashSound(read, hash, partial, cands[a].files, out[i].hash);
      FilesWithHashSound(read, hash, partial, cands[b].files, out[j].hash);
      if a == b {
        assert out[i].hash != out[j].hash;
      } else if a < b {
        assert forall f :: f in cands[a].files ==> f !in cands[b].files;
      } else {
        assert forall f :: f in cands[b].files ==> f !in cands[a].files;
      }
    }
  }

  /** One round of `RefineByHash`: emitting the buckets of group `i` extends what holds of the groups before it. */
  lemma RefineStep(cands: seq<Group>, i: nat, before: seq<Group>, after: seq<Group>, buckets: map<string, seq<string>>,
                   read: string -> Option<seq<byte>>, hash: seq<byte> -> string, partial: bool)
    requires i < |cands|
    requires RefinedUpTo(before, cands, i, read, hash, partial)
    requires forall h :: (h in buckets ==> buckets[h] == FilesWithHash(read, hash, partial, cands[i].files, h))
                         && (h !in buckets ==> FilesWithHash(read, hash, partial, cands[i].files, h) == [])
    requires forall r :: r in after ==> r in before || (r.hash in buckets && r == Group(cands[i].size, r.hash, buckets[r.hash]) && |r.files| >= 2)
    requires forall r :: r in before ==> r in after
    requires forall h :: h in buckets && |buckets[h]| >= 2 ==> Group(cands[i].size, h, buckets[h]) in after
    requires Distinct(before) && (forall h :: h in buckets ==> Group(cands[i].size, h, buckets[h]) !in before) ==> Distinct(after)
    ensures RefinedUpTo(after, cands, i + 1, read, hash, partial)
  {
    forall r | r in after
      ensures |r.files| >= 2 && exists i' :: 0 <= i' < i + 1 && r == SubGroup(read, hash, partial, cands[i'], r.hash)
    {
      if r !in before {
        assert r == SubGroup(read, hash, partial, cands[i], r.hash);
      }
    }
    forall i', h | 0 <= i' < i + 1 && |FilesWithHash(read, hash, partial, cands[i'].files, h)| >= 2
      ensures SubGroup(read, hash, partial, cands[i'], h) in after
    {
      if i' == i {
        assert h in buckets;
      }
    }
    if Separate(cands) {
      forall h | h in buckets
        ensures Group(cands[i].size, h, buckets[h]) !in before
      {
        FreshSubGroup(cands, i, before, read, hash, partial, h);
      }
    }
  }

  /**
   * A refined group came from input group `i`: it has that group's size, two
   * or more of its files in their order, and all of them have its digest.
   */
  lemma RefinedMember(out: seq<Group>, cands: seq<Group>, read: string -> Option<seq<byte>>, hash: seq<byte> -> string,
                      partial: bool, r: Group) returns (i: nat)
    requires Refines(out, cands, read, hash, partial) && r in out
    ensures |r.files| >= 2
    ensures i < |cands| && r.size == cands[i].size && IsSubseq(r.files, cands[i].files)
    ensures forall f :: f in r.files ==> f in cands[i].files && FileHash(read, hash, f, partial) == Some(r.hash)
  {
    i :| 0 <= i < |cands| && r == SubGroup(read, hash, partial, cands[i], r.hash);
    FilesWithHashSound(read, hash, partial, cands[i].files, r.hash);
  }

  // ---------------------------------------------------------------------------
  // The pipeline
  // ---------------------------------------------------------------------------

  /** Bytes a group wastes: every copy but one. */
  function Waste(g: Group): int { g.size * (|g.files| - 1) }

  /** Which pass a cancellation interrupted (each wraps the context's error). */
  datatype FindError = SizePassFailed | PartialHashFailed | FullHashFailed

  /** What a reported group guarantees about its files. */
  ghost predicate DuplicateGroup(g: Group, accepted: seq<Entry>, minSize: int,
                                 read: string -> Option<seq<byte>>, hash: seq<byte> -> string) {
    |g.files| >= 2
    && g.size >= minSize
    && (forall f :: f in g.files ==>
          f in PathsOfSize(accepted, g.size)
          && FileHash(read, hash, f, false) == Some(g.hash)
          && FileHash(read, hash, f, true).Some?)
    && (forall f1, f2 :: f1 in g.files && f2 in g.files ==> FileHash(read, hash, f1, true) == FileHash(read, hash, f2, true))
  }

  /** The files of a partial-hash group are kept files of its size with its partial digest. */
  lemma CandidateFacts(accepted: seq<Entry>, read: string -> Option<seq<byte>>, hash: seq<byte> -> string,
                       sized: seq<Group>, candidates: seq<Group>, c: Group)
    requires SizeGroups(sized, accepted)
    requires Refines(candidates, sized, read, hash, true)
    requires c in candidates
    ensures forall f :: f in c.files ==> f in PathsOfSize(accepted, c.size) && FileHash(read, hash, f, true) == Some(c.hash)
  {
    var k := RefinedMember(candidates, sized, read, hash, true, c);
  }

  lemma GroupChain(accepted: seq<Entry>, minSize: int, read: string -> Option<seq<byte>>, hash: seq<byte> -> string,
                   sized: seq<Group>, candidates: seq<Group>, confirmed: seq<Group>, g: Group)
    requires forall e :: e in accepted ==> Eligible(e, minSize)
    requires SizeGroups(sized, accepted)
    requires Refines(candidates, sized, read, hash, true)
    requires Refines(confirmed, candidates, read, hash, false)
    requires g in confirmed
    ensures DuplicateGroup(g, accepted, minSize, read, hash)
  {
    var i := RefinedMember(confirmed, candidates, read, hash, false, g);
    CandidateFacts(accepted, read, hash, sized, candidates, candidates[i]);
    PathsOfSizeMembers(accepted, g.size, g.files[0]);
  }

  /** The kept files of size `s` whose partial digest is `h1` and whose full digest is `h2`. */
  ghost function Duplicates(accepted: seq<Entry>, read: string -> Option<seq<byte>>, hash: seq<byte> -> string,
                            s: int, h1: string, h2: string): seq<string> {
    FilesWithHash(read, hash, false, FilesWithHash(read, hash, true, PathsOfSize(accepted, s), h1), h2)
  }

  lemma {:induction false} FilesWithHashShorter(read: string -> Option<seq<byte>>, hash: seq<byte> -> string, partial: bool,
                                                files: seq<string>, h: string)
    ensures |FilesWithHash(read, hash, partial, files, h)| <= |files|
  {
    if files != [] {
      FilesWithHashShorter(read, hash, partial, files[..|files| - 1], h);
    }
  }

  /** No set of two or more duplicates ends up outside the result. */
  lemma GroupComplete(accepted: seq<Entry>, read: string -> Option<seq<byte>>, hash: seq<byte> -> string,
                      sized: seq<Group>, candidates: seq<Group>, confirmed: seq<Group>, s: int, h1: string, h2: string)
    requires SizeGroups(sized, accepted)
    requires Refines(candidates, sized, read, hash, true)
    requires Refines(confirmed, candidates, read, hash, false)
    requires |Duplicates(accepted, read, hash, s, h1, h2)| >= 2
    ensures Group(s, h2, Duplicates(accepted, read, hash, s, h1, h2)) in confirmed
  {
    var paths := PathsOfSize(accepted, s);
    var partialGroup := FilesWithHash(read, hash, true, paths, h1);
    FilesWithHashShorter(read, hash, false, partialGroup, h2);
    FilesWithHashShorter(read, hash, true, paths, h1);
    var i :| 0 <= i < |sized| && sized[i].size == s;
    assert SubGroup(read, hash, true, sized[i], h1) in candidates;
    var c := Group(s, h1, partialGroup);
    var j :| 0 <= j < |candidates| && candidates[j] == c;
    assert SubGroup(read, hash, false, candidates[j], h2) in confirmed;
  }

  /** Every confirmed group is a whole set of duplicates, not part of one. */
  lemma GroupWhole(accepted: seq<Entry>, read: string -> Option<seq<byte>>, hash: seq<byte> -> string,
                   sized: seq<Group>, candidates: seq<Group>, confirmed: seq<Group>, g: Group) returns (h1: string)
    requires SizeGroups(sized, accepted)
    requires Refines(candidates, sized, read, hash, true)
    requires Refines(confirmed, candidates, read, hash, false)
    requires g in confirmed
    ensures g.files == Duplicates(accepted, read, hash, g.size, h1, g.hash)
  {
    var j :| 0 <= j < |candidates| && g == SubGroup(read, hash, false, candidates[j], g.hash);
    assert candidates[j] in candidates;
    var k :| 0 <= k < |sized| && candidates[j] == SubGroup(read, hash, true, sized[k], candidates[j].hash);
    h1 := candidates[j].hash;
  }

  /**
   * `FindWithProgress`: the three passes and the final ordering. With a
   * context that is never cancelled it always succeeds; a cancellation in any
   * pass gives an error and no groups.
   */
  method FindWithProgress(ctx: Context, listings: seq<seq<Entry>>, minSize: int, report: bool,
                          read: string -> Option<seq<byte>>, hash: seq<byte> -> string)
    returns (res: Result<seq<Group>, FindError>, trace: seq<string>)
    ensures trace == if report then Map(WalkAll(ctx, minSize, listings).accepted, EntryPath) else []
    ensures ctx.Background? ==> res.Ok?
    ensures res.Err? ==> ctx.CancelledAfter?
    ensures res.Err? && res.error == SizePassFailed <==> WalkAll(ctx, minSize, listings).cancelled
    ensures res.Ok? ==> forall g :: g in res.value ==> DuplicateGroup(g, WalkAll(ctx, minSize, listings).accepted, minSize, read, hash)
    ensures res.Ok? ==> forall s, h1, h2 :: |Duplicates(WalkAll(ctx, minSize, listings).accepted, read, hash, s, h1, h2)| >= 2 ==>
              Group(s, h2, Duplicates(WalkAll(ctx, minSize, listings).accepted, read, hash, s, h1, h2)) in res.value
    ensures res.Ok? ==> forall g :: g in res.value ==>
              exists h1 :: g.files == Duplicates(WalkAll(ctx, minSize, listings).accepted, read, hash, g.size, h1, g.hash)
    ensures res.Ok? ==> Distinct(res.value)
    ensures res.Ok? ==> SortedDesc(res.value, Waste)
  {
    WalkAllKeepsEligible(ctx, minSize, listings);
    var sized, tr, polls := GroupBySize(ctx, listings, minSize, report);
    trace := tr;
    if sized.None? {
      res := Err(SizePassFailed);
      return;
    }
    var candidates, p2 := RefineByHash(ctx, sized.value, true, read, hash, polls);
    if candidates.None? {
      res := Err(PartialHashFailed);
      return;
    }
    var confirmed, p3 := RefineByHash(ctx, candidates.value, false, read, hash, p2);
    if confirmed.None? {
      res := Err(FullHashFailed);
      return;
    }
    var groups := SortDesc(confirmed.value, Waste);
    PipelineFacts(WalkAll(ctx, minSize, listings).accepted, minSize, read, hash, sized.value, candidates.value, confirmed.value, groups);
    res := Ok(groups);
  }

  /** What the three passes together guarantee about the groups they give, in any order. */
  lemma PipelineFacts(accepted: seq<Entry>, minSize: int, read: string -> Option<seq<byte>>, hash: seq<byte> -> string,
                      sized: seq<Group>, candidates: seq<Group>, confirmed: seq<Group>, groups: seq<Group>)
    requires forall e :: e in accepted ==> Eligible(e, minSize)
    requires SizeGroups(sized, accepted)
    requires Refines(candidates, sized, read, hash, true) && (Separate(sized) ==> Distinct(candidates))
    requires Refines(confirmed, candidates, read, hash, false) && (Separate(candidates) ==> Distinct(confirmed))
    requires multiset(groups) == multiset(confirmed)
    ensures forall g :: g in groups ==> DuplicateGroup(g, accepted, minSize, read, hash)
    ensures forall g :: g in groups ==> exists h1 :: g.files == Duplicates(accepted, read, hash, g.size, h1, g.hash)
    ensures forall s, h1, h2 :: |Duplicates(accepted, read, hash, s, h1, h2)| >= 2 ==>
              Group(s, h2, Duplicates(accepted, read, hash, s, h1, h2)) in groups
    ensures Distinct(groups)
  {
    forall g | g in groups
      ensures DuplicateGroup(g, accepted, minSize, read, hash)
      ensures exists h1 :: g.files == Duplicates(accepted, read, hash, g.size, h1, g.hash)
    {
      assert g in multiset(groups);
      GroupChain(accepted, minSize, read, hash, sized, candidates, confirmed, g);
      var h1 := GroupWhole(accepted, read, hash, sized, candidates, confirmed, g);
    }
    forall s, h1, h2 | |Duplicates(accepted, read, hash, s, h1, h2)| >= 2
      ensures Group(s, h2, Duplicates(accepted, read, hash, s, h1, h2)) in groups
    {
      GroupComplete(accepted, read, hash, sized, candidates, confirmed, s, h1, h2);
      assert Group(s, h2, Duplicates(accepted, read, hash, s, h1, h2)) in multiset(confirmed);
    }
    RefinedSeparate(candidates, sized, read, hash, true);
    DistinctPermuted(confirmed, groups);
  }
}
