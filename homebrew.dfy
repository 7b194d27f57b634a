/**
 * The Homebrew download-cache scanner. Whether `brew` is on the path and
 * what `brew --cache` prints are given, as is the walk of the cache
 * directory: the entries the `filepath.WalkDir` callback sees, in walk order.
 */
module Homebrew {
  import opened Wrappers
  import opened StrUtil
  import opened Folds
  import opened Scanner
  import opened Ctx

  const HomebrewCategory: string := "Homebrew"

  /**
   * An entry the walk callback sees: `walkErr` is an error passed to the
   * callback, `infoOk` whether `Info()` succeeds.
   */
  datatype CacheEntry = CacheEntry(path: string, name: string, isDir: bool, walkErr: bool, infoOk: bool, size: int, modTime: int)

  /** Why a scan fails: the context was cancelled, or `brew --cache` failed. */
  datatype BrewError = ContextError | CacheDirFailed

  /** `isCacheFile`: the lower-cased path ends in `.bottle.tar.gz`, `.tar.gz` or `.dmg`. */
  function IsCacheFile(path: string): (r: bool)
    ensures r <==> HasSuffix(ToLower(path), ".tar.gz") || HasSuffix(ToLower(path), ".dmg")
  {
    var lower := ToLower(path);
    if HasSuffix(lower, ".bottle.tar.gz") then
      assert lower[|lower| - 7..] == lower[|lower| - 14..][7..];
      true
    else if HasSuffix(lower, ".tar.gz") then true
    else if HasSuffix(lower, ".dmg") then true
    else false
  }

  lemma LowerUpper(s: string)
    ensures ToLower(ToUpper(s)) == ToLower(s)
    ensures ToLower(ToLower(s)) == ToLower(s)
  {
    assert forall i :: 0 <= i < |s| ==> ToLower(ToUpper(s))[i] == ToLower(s)[i];
    assert forall i :: 0 <= i < |s| ==> ToLower(ToLower(s))[i] == ToLower(s)[i];
  }

  /** The suffix test ignores case: upper- or lower-casing a path does not change it. */
  lemma CacheFileIgnoresCase(path: string)
    ensures IsCacheFile(ToUpper(path)) == IsCacheFile(path)
    ensures IsCacheFile(ToLower(path)) == IsCacheFile(path)
  {
    LowerUpper(path);
  }

  /** The entries the walk polls the context at: those passed without an error. */
  predicate Polled(e: CacheEntry) {
    !e.walkErr
  }

  /** The entries reported: files with a cache suffix whose `Info()` succeeds. */
  predicate Reported(e: CacheEntry) {
    !e.walkErr && !e.isDir && IsCacheFile(e.path) && e.infoOk
  }

  function CacheTarget(e: CacheEntry): Target {
    Target(e.path, e.size, HomebrewCategory, "Cached download: " + e.name, Safe, e.modTime, false)
  }

  /** The targets of a walk that runs to its end, in walk order. */
  function CacheTargets(es: seq<CacheEntry>): seq<Target> {
    Map(Select(es, Reported, true), CacheTarget)
  }

  /** The number of polls a walk over `es` makes when nothing stops it. */
  function Polls(es: seq<CacheEntry>): nat {
    |Select(es, Polled, true)|
  }

  /** The walk callback over the whole walk, stopping at the first poll that finds the context cancelled. */
  method WalkCache(ctx: Context, es: seq<CacheEntry>) returns (targets: seq<Target>, cancelled: bool)
    ensures cancelled == CancelledWithin(ctx, Polls(es))
    ensures !cancelled ==> targets == CacheTargets(es)
  {
    targets := [];
    var polls := 0;
    for i := 0 to |es|
      invariant targets == CacheTargets(es[..i])
      invariant polls == Polls(es[..i])
      invariant ctx.CancelledAfter? ==> ctx.checks >= polls
    {
      var e := es[i];
      PollsOneMore(es, i);
      TargetsOneMore(es, i);
      if e.walkErr {
        continue;
      }
      if ctx.DoneAt(polls) {
        PollsGrow(es, i + 1);
        return targets, true;
      }
      polls := polls + 1;
      SkipIffNotReported(e);
      if e.isDir || !IsCacheFile(e.path) || !e.infoOk {
        continue;
      }
      targets := targets + [CacheTarget(e)];
    }
    assert es[..|es|] == es;
    cancelled := false;
  }

  lemma SkipIffNotReported(e: CacheEntry)
    requires !e.walkErr
    ensures (e.isDir || !IsCacheFile(e.path) || !e.infoOk) <==> !Reported(e)
  {
  }

  lemma TargetsOneMore(es: seq<CacheEntry>, i: nat)
    requires i < |es|
    ensures CacheTargets(es[..i + 1]) == CacheTargets(es[..i]) + (if Reported(es[i]) then [CacheTarget(es[i])] else [])
  {
    MapSelectStep(es, i, Reported, true, CacheTarget);
  }

  lemma PollsOneMore(es: seq<CacheEntry>, i: nat)
    requires i < |es|
    ensures Polls(es[..i + 1]) == Polls(es[..i]) + (if es[i].walkErr then 0 else 1)
  {
    assert es[..i + 1] == es[..i] + [es[i]];
    SelectSnoc(es[..i], es[i], Polled, true);
  }

  predicate CancelledWithin(ctx: Context, n: int) {
    ctx.CancelledAfter? && ctx.checks < n
  }

  /** A longer walk polls at least as often. */
  lemma {:induction false} PollsGrow(es: seq<CacheEntry>, n: nat)
    requires n <= |es|
    ensures Polls(es[..n]) <= Polls(es)
    decreases |es| - n
  {
    if n < |es| {
      PollsGrow(es, n + 1);
      PollsOneMore(es, n);
    } else {
      assert es[..n] == es;
    }
  }

  /**
   * `HomebrewScanner.Scan`: without `brew` there is nothing to report; a
   * failing `brew --cache` is the context's error when the context is
   * cancelled and a cache-directory error otherwise; an empty cache
   * directory reports nothing; otherwise the walk of the trimmed directory
   * reports the cache files, or fails with the context's error once a poll
   * finds it cancelled. `brewOutput` is the output of `brew --cache`, or
   * None when it fails.
   */
  method Scan(ctx: Context, brewFound: bool, brewOutput: Option<string>, walk: string -> seq<CacheEntry>)
    returns (r: Result<seq<Target>, BrewError>)
    ensures !brewFound ==> r == Ok([])
    ensures brewFound && brewOutput.None? ==> r == Err(if ctx.DoneAt(0) then ContextError else CacheDirFailed)
    ensures brewFound && brewOutput.Some? && TrimSpace(brewOutput.value) == "" ==> r == Ok([])
    ensures brewFound && brewOutput.Some? && TrimSpace(brewOutput.value) != "" ==>
              var es := walk(TrimSpace(brewOutput.value));
              r == if CancelledWithin(ctx, Polls(es)) then Err(ContextError) else Ok(CacheTargets(es))
  {
    if !brewFound {
      return Ok([]);
    }
    if brewOutput.None? {
      if ctx.DoneAt(0) {
        return Err(ContextError);
      }
      return Err(CacheDirFailed);
    }
    var cacheDir := TrimSpace(brewOutput.value);
    if cacheDir == "" {
      return Ok([]);
    }
    var targets, cancelled := WalkCache(ctx, walk(cacheDir));
    if cancelled {
      return Err(ContextError);
    }
    return Ok(targets);
  }

  /**
   * A walk reports an entry exactly when it is a file with a cache suffix
   * (ignoring case) passed without error and whose `Info()` succeeds; every
   * target is a Safe "Homebrew" file.
   */
  lemma CacheTargetsMeaning(es: seq<CacheEntry>, t: Target)
    ensures t in CacheTargets(es) <==>
              exists i :: 0 <= i < |es| && !es[i].walkErr && !es[i].isDir && es[i].infoOk && IsCacheFile(es[i].path) &&
                t == CacheTarget(es[i])
    ensures t in CacheTargets(es) ==> t.category == HomebrewCategory && t.risk == Safe && !t.isDir
  {
    MapSelectMembers(es, Reported, CacheTarget, t);
  }
}
