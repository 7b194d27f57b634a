/**
 * The large-and-old-files scanner. Each search directory's walk is given as
 * the entries the `filepath.Walk` callback sees, in walk order; times are
 * integers in one unit (the unit of the age threshold).
 */
module LargeFiles {
  import opened Wrappers
  import opened Folds
  import opened Scanner
  import opened Ctx

  const LargeCategory: string := "Large & Old Files"

  /** What the walk callback is given for one path; `walkErr` is an error passed to it. */
  datatype FileInfo = FileInfo(path: string, isDir: bool, size: int, modTime: int, walkErr: bool)

  /** The thresholds of a `LargeFileScanner`; a threshold that is not positive is off. */
  datatype Limits = Limits(minSize: int, minAge: int)

  predicate MatchesSize(l: Limits, f: FileInfo) {
    l.minSize > 0 && f.size >= l.minSize
  }

  predicate MatchesAge(l: Limits, now: int, f: FileInfo) {
    l.minAge > 0 && now - f.modTime >= l.minAge
  }

  /**
   * The callback's decision for one path: directories and paths walked
   * with an error are skipped, and a file is reported when it is large
   * enough or old enough. A file that is only old is Risky, any other
   * reported file Moderate; the description says which criteria matched.
   */
  function Classify(l: Limits, now: int, f: FileInfo): (r: Option<Target>)
    ensures r.Some? <==> !f.walkErr && !f.isDir && (MatchesSize(l, f) || MatchesAge(l, now, f))
    ensures r.Some? ==> (r.value.risk == Risky <==> MatchesAge(l, now, f) && !MatchesSize(l, f))
    ensures r.Some? ==> r.value.risk == Risky || r.value.risk == Moderate
    ensures r.Some? ==> (r.value.description == "Large and old file" <==> MatchesAge(l, now, f) && MatchesSize(l, f))
    ensures r.Some? ==> (r.value.description == "Old file (not modified recently)" <==> MatchesAge(l, now, f) && !MatchesSize(l, f))
    ensures r.Some? ==> (r.value.description == "Large file" <==> !MatchesAge(l, now, f))
    ensures r.Some? ==> && r.value.path == f.path && r.value.size == f.size && r.value.modTime == f.modTime
                        && r.value.category == LargeCategory && !r.value.isDir
  {
    if f.walkErr || f.isDir then None
    else
      var matchesSize := l.minSize > 0 && f.size >= l.minSize;
      var matchesAge := l.minAge > 0 && now - f.modTime >= l.minAge;
      if !matchesSize && !matchesAge then None
      else
        var risk := if matchesAge && !matchesSize then Risky else Moderate;
        var desc := if matchesAge && matchesSize then "Large and old file"
                    else if matchesAge then "Old file (not modified recently)"
                    else "Large file";
        Some(Target(f.path, f.size, LargeCategory, desc, risk, f.modTime, false))
  }

  function AsSeq(r: Option<Target>): seq<Target> {
    if r.Some? then [r.value] else []
  }

  function Reporter(l: Limits, now: int): FileInfo -> seq<Target> {
    f => AsSeq(Classify(l, now, f))
  }

  /** The targets reported for the paths `fs`, in walk order. */
  function Reports(l: Limits, now: int, fs: seq<FileInfo>): seq<Target> {
    Concat(fs, Reporter(l, now))
  }

  function Entries(es: seq<FileInfo>): seq<FileInfo> { es }

  /** The paths of all the walks, one walk after another. */
  function Walked(dirs: seq<seq<FileInfo>>): seq<FileInfo> {
    Concat(dirs, Entries)
  }

  predicate CancelledWithin(ctx: Context, n: int) {
    ctx.CancelledAfter? && ctx.checks < n
  }

  /** The paths handled before the first poll that finds the context cancelled. */
  function Reached(ctx: Context, all: seq<FileInfo>): seq<FileInfo> {
    if CancelledWithin(ctx, |all|) then all[..ctx.checks] else all
  }

  /** How many of `n` paths a walk whose first poll is number `p0` handles. */
  function Handled(ctx: Context, p0: nat, n: nat): (k: nat)
    ensures k <= n
  {
    if CancelledWithin(ctx, p0 + n) then (if ctx.checks <= p0 then 0 else ctx.checks - p0) else n
  }

  lemma ReportsStep(l: Limits, now: int, fs: seq<FileInfo>, i: nat)
    requires i < |fs|
    ensures Reports(l, now, fs[..i + 1]) == Reports(l, now, fs[..i]) + AsSeq(Classify(l, now, fs[i]))
  {
    assert fs[..i + 1] == fs[..i] + [fs[i]];
    ConcatSnoc(fs[..i], fs[i], Reporter(l, now));
  }

  /**
   * One `filepath.Walk`: the callback polls the context first thing for
   * every path, and the walk ends at the first poll that finds it cancelled.
   */
  method WalkDir(ctx: Context, l: Limits, now: int, es: seq<FileInfo>, polls0: nat)
    returns (found: seq<Target>, polls: nat, cancelled: bool)
    ensures found == Reports(l, now, es[..Handled(ctx, polls0, |es|)])
    ensures cancelled == (Handled(ctx, polls0, |es|) < |es|)
    ensures polls == polls0 + Handled(ctx, polls0, |es|) + (if cancelled then 1 else 0)
  {
    found := [];
    polls := polls0;
    for i := 0 to |es|
      invariant polls == polls0 + i
      invariant found == Reports(l, now, es[..i])
      invariant i > 0 && ctx.CancelledAfter? ==> ctx.checks >= polls0 + i
    {
      if ctx.DoneAt(polls) {
        polls := polls + 1;
        return found, polls, true;
      }
      polls := polls + 1;
      ReportsStep(l, now, es, i);
      var r := Classify(l, now, es[i]);
      if r.Some? {
        found := found + [r.value];
      }
    }
    assert es[..|es|] == es;
    cancelled := false;
  }

  lemma WalkedStep(dirs: seq<seq<FileInfo>>, d: nat)
    requires d < |dirs|
    ensures Walked(dirs[..d + 1]) == Walked(dirs[..d]) + dirs[d]
  {
    assert dirs[..d + 1] == dirs[..d] + [dirs[d]];
    ConcatSnoc(dirs[..d], dirs[d], Entries);
  }

  /** A walk started before any cancellation extends what was reached by what it handled. */
  lemma LiveStep(ctx: Context, all: seq<FileInfo>, es: seq<FileInfo>)
    requires !CancelledWithin(ctx, |all|)
    ensures Reached(ctx, all + es) == all + es[..Handled(ctx, |all|, |es|)]
  {
    if CancelledWithin(ctx, |all + es|) {
      assert (all + es)[..ctx.checks] == all + es[..ctx.checks - |all|];
    } else {
      assert es[..|es|] == es;
    }
  }

  /** A walk started after a cancellation handles nothing, and the cut stays where it was. */
  lemma StoppedStep(ctx: Context, all: seq<FileInfo>, es: seq<FileInfo>, polls: nat)
    requires CancelledWithin(ctx, |all|) && polls > ctx.checks
    ensures Handled(ctx, polls, |es|) == 0
    ensures Reached(ctx, all + es) == Reached(ctx, all)
  {
    assert (all + es)[..ctx.checks] == all[..ctx.checks];
  }

  /**
   * `LargeFileScanner.Scan`: walks the search directories in order. A
   * cancelled walk is not an error here: the scan returns what was reported
   * before the cancelling poll, and every later walk stops at its first poll.
   */
  method Scan(ctx: Context, l: Limits, now: int, dirs: seq<seq<FileInfo>>) returns (targets: seq<Target>, err: Option<string>)
    ensures err == None
    ensures targets == Reports(l, now, Reached(ctx, Walked(dirs)))
  {
    targets := [];
    var polls: nat := 0;
    for d := 0 to |dirs|
      invariant targets == Reports(l, now, Reached(ctx, Walked(dirs[..d])))
      invariant !CancelledWithin(ctx, |Walked(dirs[..d])|) ==> polls == |Walked(dirs[..d])|
      invariant CancelledWithin(ctx, |Walked(dirs[..d])|) ==> polls > ctx.checks
    {
      ghost var all := Walked(dirs[..d]);
      WalkedStep(dirs, d);
      var found, p, cancelled := WalkDir(ctx, l, now, dirs[d], polls);
      if CancelledWithin(ctx, |all|) {
        StoppedStep(ctx, all, dirs[d], polls);
      } else {
        LiveStep(ctx, all, dirs[d]);
        ConcatAppend(all, dirs[d][..Handled(ctx, |all|, |dirs[d]|)], Reporter(l, now));
      }
      polls := p;
      targets := targets + found;
    }
    assert dirs[..|dirs|] == dirs;
    err := None;
  }

  /**
   * Exactly the files (never the directories) that match on size or on age
   * are reported, each under the "Large & Old Files" category.
   */
  lemma ReportsMeaning(l: Limits, now: int, fs: seq<FileInfo>, t: Target)
    ensures t in Reports(l, now, fs) <==> exists i :: 0 <= i < |fs| && Classify(l, now, fs[i]) == Some(t)
    ensures t in Reports(l, now, fs) ==>
              exists i :: 0 <= i < |fs| && !fs[i].isDir && (MatchesSize(l, fs[i]) || MatchesAge(l, now, fs[i])) &&
                t.path == fs[i].path && t.category == LargeCategory && !t.isDir
  {
    ConcatMembers(fs, Reporter(l, now), t);
  }

  /** What a cancelled scan returns is how the uncancelled scan's result begins. */
  lemma CancelledIsPrefix(ctx: Context, l: Limits, now: int, dirs: seq<seq<FileInfo>>)
    ensures Reports(l, now, Reached(ctx, Walked(dirs))) <= Reports(l, now, Walked(dirs))
    ensures ctx.Background? ==> Reached(ctx, Walked(dirs)) == Walked(dirs)
  {
    var all := Walked(dirs);
    if CancelledWithin(ctx, |all|) {
      ConcatPrefix(all, ctx.checks, Reporter(l, now));
    }
  }
}
