/**
 * The application uninstaller: the list of installed applications, the
 * files an application leaves in the user's Library, and the preference
 * files whose application is gone.
 *
 * The file system is given as a `Disk`: the listing of each directory by
 * path, and what `os.Stat` finds for each application bundle. The size of a
 * listed directory entry is the one the scanner records for it (the
 * `DirSize` of a directory, the length of a file).
 */
module Apps {
  import opened Wrappers
  import opened StrUtil
  import opened Folds
  import opened Scanner
  import opened Ctx

  /** An entry of an `os.ReadDir` listing; `infoOk` is whether `Info()` succeeds for it. */
  datatype DirEntry = DirEntry(name: string, isDir: bool, size: int, modTime: int, infoOk: bool)

  /** A path as the scanner finds it: no directory there, a directory it cannot read, or a listing. */
  datatype Listing = Missing | Unreadable | Listed(entries: seq<DirEntry>)

  /** What `os.Stat` reports for an application bundle, with the bundle's `DirSize`. */
  datatype Bundle = Bundle(size: int, modTime: int)

  datatype Disk = Disk(dirs: map<string, Listing>, bundles: map<string, Bundle>)

  function ListingAt(d: Disk, path: string): Listing {
    if path in d.dirs then d.dirs[path] else Missing
  }

  /** An `AppScanner`: an empty field means the default directory. */
  datatype AppScanner = AppScanner(appsDir: string, libraryBase: string)

  /** The error a scan reports. */
  datatype AppsError = ContextError | PrefsUnreadable

  const UninstallCategory: string := "App Uninstaller"
  const OrphanCategory: string := "Orphaned Preferences"

  function AppsPath(a: AppScanner): string {
    if a.appsDir != "" then a.appsDir else "/Applications"
  }

  /** The Library directory: the configured one, or `Library` under the home directory. */
  function LibraryOf(a: AppScanner, home: string): string {
    if a.libraryBase != "" then a.libraryBase else PathJoin(home, "Library")
  }

  // ---------------------------------------------------------------------------
  // ListApps
  // ---------------------------------------------------------------------------

  predicate IsBundle(e: DirEntry) {
    HasSuffix(e.name, ".app")
  }

  function AppName(e: DirEntry): string {
    TrimSuffix(e.name, ".app")
  }

  /** The application names of a listing: the `.app` entries without the suffix, in listing order. */
  function AppNames(es: seq<DirEntry>): seq<string> {
    Map(Select(es, IsBundle, true), AppName)
  }

  /** The names `ListApps` returns; an unreadable applications directory gives none. */
  function Installed(a: AppScanner, d: Disk): seq<string> {
    if ListingAt(d, AppsPath(a)).Listed? then AppNames(ListingAt(d, AppsPath(a)).entries) else []
  }

  /** `ListApps`. */
  method ListApps(a: AppScanner, d: Disk) returns (apps: seq<string>)
    ensures apps == Installed(a, d)
  {
    var listing := ListingAt(d, AppsPath(a));
    if !listing.Listed? {
      return [];
    }
    var es := listing.entries;
    apps := [];
    for i := 0 to |es|
      invariant apps == AppNames(es[..i])
    {
      assert es[..i + 1] == es[..i] + [es[i]];
      SelectSnoc(es[..i], es[i], IsBundle, true);
      if HasSuffix(es[i].name, ".app") {
        MapSnoc(Select(es[..i], IsBundle, true), es[i], AppName);
        apps := apps + [TrimSuffix(es[i].name, ".app")];
      }
    }
    assert es[..|es|] == es;
  }

  /** `x` is listed exactly when an entry is called `x.app`. */
  lemma AppNamesMeaning(es: seq<DirEntry>, x: string)
    ensures x in AppNames(es) <==> exists i :: 0 <= i < |es| && es[i].name == x + ".app"
  {
    MapSelectMembers(es, IsBundle, AppName, x);
    if exists i :: 0 <= i < |es| && es[i].name == x + ".app" {
      var i :| 0 <= i < |es| && es[i].name == x + ".app";
      assert (x + ".app")[..|x|] == x;
      assert IsBundle(es[i]) && AppName(es[i]) == x;
    }
  }

  // ---------------------------------------------------------------------------
  // extractAppName
  // ---------------------------------------------------------------------------

  /**
   * `extractAppName`: the text after the last dot of the name without its
   * `.plist` suffix, or "" when that name has no dot.
   */
  function ExtractAppName(plist: string): (r: string)
    ensures '.' !in r
    ensures '.' !in TrimSuffix(plist, ".plist") ==> r == ""
    ensures '.' in TrimSuffix(plist, ".plist") ==> HasSuffix(TrimSuffix(plist, ".plist"), "." + r)
  {
    var base := TrimSuffix(plist, ".plist");
    var parts := Split(base, '.');
    SplitLast(base, '.');
    if |parts| < 2 then "" else parts[|parts| - 1]
  }

  /** A bundle identifier `prefix.Name` gives the plist `prefix.Name.plist`, whose app name is `Name`. */
  lemma ExtractFromBundleId(prefix: string, name: string)
    requires '.' !in name
    ensures ExtractAppName(prefix + "." + name + ".plist") == name
  {
    var plist := prefix + "." + name + ".plist";
    assert plist[..|plist| - |".plist"|] == prefix + "." + name;
    assert prefix + "." + name == prefix + ['.'] + name;
    SplitSnoc(prefix, '.', name);
  }

  // ---------------------------------------------------------------------------
  // FindRelatedFiles
  // ---------------------------------------------------------------------------

  /** The Library sub-directories searched for an application's files, in search order. */
  const SearchDirs: seq<string> := [
    "Application Support", "Caches", "Preferences", "Logs", "Saved Application State",
    "Containers", "HTTPStorages", "WebKit", "LaunchAgents", "Application Scripts",
    "Group Containers", "Cookies"]

  /** An entry belongs to the application when its name contains the application's, ignoring case. */
  predicate Related(appLower: string, e: DirEntry) {
    Contains(ToLower(e.name), appLower) && e.infoOk
  }

  function RelatedKey(appLower: string): DirEntry -> bool {
    e => Related(appLower, e)
  }

  function RelatedTarget(searchPath: string, dir: string, appName: string, e: DirEntry): Target {
    Target(PathJoin(searchPath, e.name), e.size, UninstallCategory, dir + " (" + appName + ")", Moderate, e.modTime, e.isDir)
  }

  function RelatedMaker(searchPath: string, dir: string, appName: string): DirEntry -> Target {
    e => RelatedTarget(searchPath, dir, appName, e)
  }

  lemma RelatedApply(appLower: string, searchPath: string, dir: string, appName: string, e: DirEntry)
    ensures RelatedKey(appLower)(e) == Related(appLower, e)
    ensures RelatedMaker(searchPath, dir, appName)(e) == RelatedTarget(searchPath, dir, appName, e)
  {
  }

  /** The targets one search directory contributes; a missing or unreadable one contributes none. */
  function RelatedInDir(lib: string, d: Disk, appName: string, dir: string): seq<Target> {
    var searchPath := PathJoin(lib, dir);
    if ListingAt(d, searchPath).Listed? then
      Map(Select(ListingAt(d, searchPath).entries, RelatedKey(ToLower(appName)), true), RelatedMaker(searchPath, dir, appName))
    else []
  }

  function RelatedFinder(lib: string, d: Disk, appName: string): string -> seq<Target> {
    dir => RelatedInDir(lib, d, appName, dir)
  }

  lemma RelatedFinderApply(lib: string, d: Disk, appName: string, dir: string)
    ensures RelatedFinder(lib, d, appName)(dir) == RelatedInDir(lib, d, appName, dir)
  {
  }

  /** The targets of the search directories `dirs`, directory by directory. */
  function RelatedIn(lib: string, d: Disk, appName: string, dirs: seq<string>): seq<Target> {
    Concat(dirs, RelatedFinder(lib, d, appName))
  }

  /** The application bundle, when `os.Stat` finds it. */
  function BundleTargets(a: AppScanner, d: Disk, appName: string): seq<Target> {
    var path := PathJoin(AppsPath(a), appName + ".app");
    if path in d.bundles then
      [Target(path, d.bundles[path].size, UninstallCategory, "Application bundle", Moderate, d.bundles[path].modTime, true)]
    else []
  }

  /** The inner loop of `FindRelatedFiles`: the matching entries of one search directory. */
  method ScanSearchDir(lib: string, d: Disk, appName: string, dir: string) returns (found: seq<Target>)
    ensures found == RelatedInDir(lib, d, appName, dir)
  {
    var searchPath := PathJoin(lib, dir);
    var listing := ListingAt(d, searchPath);
    if !listing.Listed? {
      return [];
    }
    var es := listing.entries;
    var appLower := ToLower(appName);
    found := [];
    for i := 0 to |es|
      invariant found == Map(Select(es[..i], RelatedKey(appLower), true), RelatedMaker(searchPath, dir, appName))
    {
      var e := es[i];
      MapSelectStep(es, i, RelatedKey(appLower), true, RelatedMaker(searchPath, dir, appName));
      RelatedApply(appLower, searchPath, dir, appName, e);
      if Related(appLower, e) {
        found := found + [RelatedTarget(searchPath, dir, appName, e)];
      }
    }
    assert es[..|es|] == es;
  }

  /** A context that is cancelled by poll number `n - 1`. */
  predicate CancelledWithin(ctx: Context, n: int) {
    ctx.CancelledAfter? && ctx.checks < n
  }

  lemma RelatedStep(lib: string, d: Disk, appName: string, i: nat)
    requires i < |SearchDirs|
    ensures RelatedIn(lib, d, appName, SearchDirs[..i + 1]) ==
              RelatedIn(lib, d, appName, SearchDirs[..i]) + RelatedInDir(lib, d, appName, SearchDirs[i])
  {
    assert SearchDirs[..i + 1] == SearchDirs[..i] + [SearchDirs[i]];
    ConcatSnoc(SearchDirs[..i], SearchDirs[i], RelatedFinder(lib, d, appName));
    RelatedFinderApply(lib, d, appName, SearchDirs[i]);
  }

  /** The loop over the search directories, polling for cancellation before each. */
  method SearchLibrary(ctx: Context, lib: string, d: Disk, appName: string) returns (targets: seq<Target>, cancelled: bool)
    ensures cancelled == CancelledWithin(ctx, |SearchDirs|)
    ensures cancelled ==> targets == RelatedIn(lib, d, appName, SearchDirs[..ctx.checks])
    ensures !cancelled ==> targets == RelatedIn(lib, d, appName, SearchDirs)
  {
    targets := [];
    for i := 0 to |SearchDirs|
      invariant targets == RelatedIn(lib, d, appName, SearchDirs[..i])
      invariant ctx.CancelledAfter? ==> ctx.checks >= i
    {
      if ctx.DoneAt(i) {
        assert i == ctx.checks;
        return targets, true;
      }
      var found := ScanSearchDir(lib, d, appName, SearchDirs[i]);
      RelatedStep(lib, d, appName, i);
      targets := targets + found;
    }
    assert SearchDirs[..|SearchDirs|] == SearchDirs;
    cancelled := false;
  }

  /**
   * `FindRelatedFiles`: polls for cancellation before each search directory.
   * A cancellation returns the targets of the directories searched so far
   * and the context's error; otherwise the matching entries of every search
   * directory follow one another, and the bundle, when present, comes last.
   */
  method FindRelatedFiles(a: AppScanner, ctx: Context, d: Disk, home: string, appName: string)
    returns (targets: seq<Target>, err: Option<AppsError>)
    ensures CancelledWithin(ctx, |SearchDirs|) ==>
              targets == RelatedIn(LibraryOf(a, home), d, appName, SearchDirs[..ctx.checks]) && err == Some(ContextError)
    ensures !CancelledWithin(ctx, |SearchDirs|) ==>
              targets == RelatedIn(LibraryOf(a, home), d, appName, SearchDirs) + BundleTargets(a, d, appName) && err == None
  {
    var found, cancelled := SearchLibrary(ctx, LibraryOf(a, home), d, appName);
    if cancelled {
      return found, Some(ContextError);
    }
    targets := found;
    var bundle := PathJoin(AppsPath(a), appName + ".app");
    if bundle in d.bundles {
      var info := d.bundles[bundle];
      targets := targets + [Target(bundle, info.size, UninstallCategory, "Application bundle", Moderate, info.modTime, true)];
    }
    err := None;
  }

  /** `e` is an entry of search directory `dir` that belongs to the application. */
  ghost predicate MatchedIn(lib: string, d: Disk, appName: string, dir: string, e: DirEntry) {
    var searchPath := PathJoin(lib, dir);
    ListingAt(d, searchPath).Listed? && e in ListingAt(d, searchPath).entries && Related(ToLower(appName), e)
  }

  /**
   * A target is reported for a search directory's entry exactly when the
   * entry's name contains the application's name, ignoring case (and its
   * `Info()` succeeds); every such target is a Moderate "App Uninstaller" one.
   */
  lemma RelatedMeaning(lib: string, d: Disk, appName: string, dirs: seq<string>, t: Target)
    ensures t in RelatedIn(lib, d, appName, dirs) <==>
              exists k, e :: 0 <= k < |dirs| && MatchedIn(lib, d, appName, dirs[k], e) &&
                t == RelatedTarget(PathJoin(lib, dirs[k]), dirs[k], appName, e)
    ensures t in RelatedIn(lib, d, appName, dirs) ==> t.category == UninstallCategory && t.risk == Moderate
  {
    ConcatMembers(dirs, RelatedFinder(lib, d, appName), t);
    forall k | 0 <= k < |dirs|
      ensures t in RelatedInDir(lib, d, appName, dirs[k]) <==>
                exists e :: MatchedIn(lib, d, appName, dirs[k], e) && t == RelatedTarget(PathJoin(lib, dirs[k]), dirs[k], appName, e)
    {
      RelatedInDirMeaning(lib, d, appName, dirs[k], t);
    }
  }

  lemma RelatedInDirMeaning(lib: string, d: Disk, appName: string, dir: string, t: Target)
    ensures t in RelatedInDir(lib, d, appName, dir) <==>
              exists e :: MatchedIn(lib, d, appName, dir, e) && t == RelatedTarget(PathJoin(lib, dir), dir, appName, e)
  {
    var searchPath := PathJoin(lib, dir);
    if ListingAt(d, searchPath).Listed? {
      var es := ListingAt(d, searchPath).entries;
      MapSelectMembers(es, RelatedKey(ToLower(appName)), RelatedMaker(searchPath, dir, appName), t);
      if exists e :: MatchedIn(lib, d, appName, dir, e) && t == RelatedTarget(searchPath, dir, appName, e) {
        var e :| MatchedIn(lib, d, appName, dir, e) && t == RelatedTarget(searchPath, dir, appName, e);
        var i :| 0 <= i < |es| && es[i] == e;
        assert RelatedKey(ToLower(appName))(es[i]) && t == RelatedMaker(searchPath, dir, appName)(es[i]);
      }
    }
  }

  /** What a cancelled search returns is how the full search begins. */
  lemma CancelledIsPrefix(lib: string, d: Disk, appName: string, n: nat)
    requires n <= |SearchDirs|
    ensures RelatedIn(lib, d, appName, SearchDirs[..n]) <= RelatedIn(lib, d, appName, SearchDirs)
  {
    ConcatPrefix(SearchDirs, n, RelatedFinder(lib, d, appName));
  }

  // ---------------------------------------------------------------------------
  // FindOrphans
  // ---------------------------------------------------------------------------

  /** The keys of `installedApps`: the lower-cased installed names. */
  function LowerSet(names: seq<string>): set<string> {
    if names == [] then {} else LowerSet(names[..|names| - 1]) + {ToLower(names[|names| - 1])}
  }

  lemma {:induction false} LowerSetMeaning(names: seq<string>, x: string)
    ensures x in LowerSet(names) <==> exists i :: 0 <= i < |names| && ToLower(names[i]) == x
  {
    if names != [] {
      var front := names[..|names| - 1];
      LowerSetMeaning(front, x);
      if x in LowerSet(front) {
        var i :| 0 <= i < |front| && ToLower(front[i]) == x;
        assert names[i] == front[i];
      }
      if exists i :: 0 <= i < |names| && ToLower(names[i]) == x {
        var i :| 0 <= i < |names| && ToLower(names[i]) == x;
        if i < |front| {
          assert names[i] == front[i];
        }
      }
    }
  }

  /** The loop that fills `installedApps`. */
  method InstalledSet(apps: seq<string>) returns (installed: set<string>)
    ensures installed == LowerSet(apps)
  {
    installed := {};
    for i := 0 to |apps|
      invariant installed == LowerSet(apps[..i])
    {
      assert apps[..i + 1][..i] == apps[..i];
      installed := installed + {ToLower(apps[i])};
    }
    assert apps[..|apps|] == apps;
  }

  /** A preference file is orphaned when it names an application that is not installed (ignoring case). */
  predicate Orphaned(installed: set<string>, e: DirEntry) {
    HasSuffix(e.name, ".plist") && ExtractAppName(e.name) != "" && ToLower(ExtractAppName(e.name)) !in installed
  }

  /** The directories searched for an orphan's remnants, in search order. */
  const RemnantDirs: seq<string> := ["Caches", "Application Support"]

  /** A remnant is named exactly like the bundle identifier or the application, ignoring case. */
  predicate Remnant(bundleLower: string, appLower: string, e: DirEntry) {
    (ToLower(e.name) == bundleLower || ToLower(e.name) == appLower) && e.infoOk
  }

  function RemnantKey(bundleLower: string, appLower: string): DirEntry -> bool {
    e => Remnant(bundleLower, appLower, e)
  }

  function RemnantTarget(dirPath: string, dir: string, appName: string, e: DirEntry): Target {
    Target(PathJoin(dirPath, e.name), e.size, OrphanCategory, "Orphaned " + dir + " (" + appName + ")", Safe, e.modTime, e.isDir)
  }

  function RemnantMaker(dirPath: string, dir: string, appName: string): DirEntry -> Target {
    e => RemnantTarget(dirPath, dir, appName, e)
  }

  lemma RemnantApply(bundleLower: string, appLower: string, dirPath: string, dir: string, appName: string, e: DirEntry)
    ensures RemnantKey(bundleLower, appLower)(e) == Remnant(bundleLower, appLower, e)
    ensures RemnantMaker(dirPath, dir, appName)(e) == RemnantTarget(dirPath, dir, appName, e)
  {
  }

  function RemnantsInDir(lib: string, d: Disk, bundleId: string, appName: string, dir: string): seq<Target> {
    var dirPath := PathJoin(lib, dir);
    if ListingAt(d, dirPath).Listed? then
      Map(Select(ListingAt(d, dirPath).entries, RemnantKey(ToLower(bundleId), ToLower(appName)), true),
          RemnantMaker(dirPath, dir, appName))
    else []
  }

  function RemnantFinder(lib: string, d: Disk, bundleId: string, appName: string): string -> seq<Target> {
    dir => RemnantsInDir(lib, d, bundleId, appName, dir)
  }

  lemma RemnantFinderApply(lib: string, d: Disk, bundleId: string, appName: string, dir: string)
    ensures RemnantFinder(lib, d, bundleId, appName)(dir) == RemnantsInDir(lib, d, bundleId, appName, dir)
  {
  }

  function PlistTarget(lib: string, e: DirEntry): Target {
    Target(PathJoin(PathJoin(lib, "Preferences"), e.name), e.size, OrphanCategory,
           "Orphaned plist (" + ExtractAppName(e.name) + ")", Safe, e.modTime, false)
  }

  /** The targets one preference entry contributes: its plist and then its remnants, or nothing. */
  function OrphanTargets(lib: string, d: Disk, installed: set<string>, e: DirEntry): seq<Target> {
    if Orphaned(installed, e) && e.infoOk then
      [PlistTarget(lib, e)] + Concat(RemnantDirs, RemnantFinder(lib, d, TrimSuffix(e.name, ".plist"), ExtractAppName(e.name)))
    else []
  }

  function OrphanFinder(lib: string, d: Disk, installed: set<string>): DirEntry -> seq<Target> {
    e => OrphanTargets(lib, d, installed, e)
  }

  lemma OrphanFinderApply(lib: string, d: Disk, installed: set<string>, e: DirEntry)
    ensures OrphanFinder(lib, d, installed)(e) == OrphanTargets(lib, d, installed, e)
  {
  }

  function OrphansIn(lib: string, d: Disk, installed: set<string>, es: seq<DirEntry>): seq<Target> {
    Concat(es, OrphanFinder(lib, d, installed))
  }

  /** The innermost loop of `FindOrphans`: the remnants in one directory. */
  method ScanRemnantDir(lib: string, d: Disk, bundleId: string, appName: string, dir: string) returns (found: seq<Target>)
    ensures found == RemnantsInDir(lib, d, bundleId, appName, dir)
  {
    var dirPath := PathJoin(lib, dir);
    var listing := ListingAt(d, dirPath);
    if !listing.Listed? {
      return [];
    }
    var es := listing.entries;
    var bundleLower := ToLower(bundleId);
    var appLower := ToLower(appName);
    found := [];
    for i := 0 to |es|
      invariant found == Map(Select(es[..i], RemnantKey(bundleLower, appLower), true), RemnantMaker(dirPath, dir, appName))
    {
      var e := es[i];
      MapSelectStep(es, i, RemnantKey(bundleLower, appLower), true, RemnantMaker(dirPath, dir, appName));
      RemnantApply(bundleLower, appLower, dirPath, dir, appName, e);
      if Remnant(bundleLower, appLower, e) {
        found := found + [RemnantTarget(dirPath, dir, appName, e)];
      }
    }
    assert es[..|es|] == es;
  }

  /** The loop over the remnant directories of one orphan. */
  method ScanRemnants(lib: string, d: Disk, bundleId: string, appName: string) returns (found: seq<Target>)
    ensures found == Concat(RemnantDirs, RemnantFinder(lib, d, bundleId, appName))
  {
    found := [];
    ghost var done: seq<string> := [];
    for j := 0 to |RemnantDirs|
      invariant done == RemnantDirs[..j]
      invariant found == Concat(done, RemnantFinder(lib, d, bundleId, appName))
    {
      var more := ScanRemnantDir(lib, d, bundleId, appName, RemnantDirs[j]);
      ConcatSnoc(done, RemnantDirs[j], RemnantFinder(lib, d, bundleId, appName));
      RemnantFinderApply(lib, d, bundleId, appName, RemnantDirs[j]);
      found := found + more;
      done := done + [RemnantDirs[j]];
    }
    assert done == RemnantDirs;
  }

  /** One turn of the loop over the preference entries. */
  method ScanPreference(lib: string, d: Disk, installed: set<string>, e: DirEntry) returns (found: seq<Target>)
    ensures found == OrphanTargets(lib, d, installed, e)
  {
    if !HasSuffix(e.name, ".plist") {
      return [];
    }
    var appName := ExtractAppName(e.name);
    if appName == "" || ToLower(appName) in installed || !e.infoOk {
      return [];
    }
    var remnants := ScanRemnants(lib, d, TrimSuffix(e.name, ".plist"), appName);
    found := [PlistTarget(lib, e)] + remnants;
  }

  /** The loop over the preference entries, polling for cancellation before each. */
  method ScanPreferences(ctx: Context, lib: string, d: Disk, installed: set<string>, es: seq<DirEntry>)
    returns (targets: seq<Target>, cancelled: bool)
    ensures cancelled == CancelledWithin(ctx, |es|)
    ensures cancelled ==> targets == OrphansIn(lib, d, installed, es[..ctx.checks])
    ensures !cancelled ==> targets == OrphansIn(lib, d, installed, es)
  {
    targets := [];
    for i := 0 to |es|
      invariant targets == OrphansIn(lib, d, installed, es[..i])
      invariant ctx.CancelledAfter? ==> ctx.checks >= i
    {
      if ctx.DoneAt(i) {
        return targets, true;
      }
      var found := ScanPreference(lib, d, installed, es[i]);
      OrphansStep(lib, d, installed, es, i);
      targets := targets + found;
    }
    assert es[..|es|] == es;
    cancelled := false;
  }

  /** The Preferences directory of the Library. */
  function PrefsListing(a: AppScanner, d: Disk, home: string): Listing {
    ListingAt(d, PathJoin(LibraryOf(a, home), "Preferences"))
  }

  /**
   * `FindOrphans`: no Preferences directory gives nothing, an unreadable one
   * an error. Otherwise it polls for cancellation before each entry; a
   * cancellation returns the targets of the entries handled so far and the
   * context's error, and a full pass returns the targets of every entry.
   */
  method FindOrphans(a: AppScanner, ctx: Context, d: Disk, home: string)
    returns (targets: seq<Target>, err: Option<AppsError>)
    ensures PrefsListing(a, d, home).Missing? ==> targets == [] && err == None
    ensures PrefsListing(a, d, home).Unreadable? ==> targets == [] && err == Some(PrefsUnreadable)
    ensures PrefsListing(a, d, home).Listed? && CancelledWithin(ctx, |PrefsListing(a, d, home).entries|) ==>
              && targets == OrphansIn(LibraryOf(a, home), d, LowerSet(Installed(a, d)), PrefsListing(a, d, home).entries[..ctx.checks])
              && err == Some(ContextError)
    ensures PrefsListing(a, d, home).Listed? && !CancelledWithin(ctx, |PrefsListing(a, d, home).entries|) ==>
              && targets == OrphansIn(LibraryOf(a, home), d, LowerSet(Installed(a, d)), PrefsListing(a, d, home).entries)
              && err == None
  {
    var prefs := PrefsListing(a, d, home);
    if prefs.Missing? {
      return [], None;
    }
    if prefs.Unreadable? {
      return [], Some(PrefsUnreadable);
    }
    var apps := ListApps(a, d);
    var installed := InstalledSet(apps);
    var cancelled;
    targets, cancelled := ScanPreferences(ctx, LibraryOf(a, home), d, installed, prefs.entries);
    err := if cancelled then Some(ContextError) else None;
  }

  lemma OrphansStep(lib: string, d: Disk, installed: set<string>, es: seq<DirEntry>, i: nat)
    requires i < |es|
    ensures OrphansIn(lib, d, installed, es[..i + 1]) == OrphansIn(lib, d, installed, es[..i]) + OrphanTargets(lib, d, installed, es[i])
  {
    assert es[..i + 1] == es[..i] + [es[i]];
    ConcatSnoc(es[..i], es[i], OrphanFinder(lib, d, installed));
    OrphanFinderApply(lib, d, installed, es[i]);
  }

  /**
   * A preference file produces targets exactly when it ends in `.plist`,
   * names an application, and no installed application has that name
   * ignoring case (and its `Info()` succeeds).
   */
  lemma OrphanedMeaning(a: AppScanner, d: Disk, lib: string, e: DirEntry)
    ensures OrphanTargets(lib, d, LowerSet(Installed(a, d)), e) != [] <==>
              && HasSuffix(e.name, ".plist") && ExtractAppName(e.name) != "" && e.infoOk
              && forall i :: 0 <= i < |Installed(a, d)| ==> ToLower(Installed(a, d)[i]) != ToLower(ExtractAppName(e.name))
  {
    LowerSetMeaning(Installed(a, d), ToLower(ExtractAppName(e.name)));
  }

  /** Every orphan target, a preference file or one of its remnants, is a Safe "Orphaned Preferences" one. */
  lemma OrphanShape(lib: string, d: Disk, installed: set<string>, es: seq<DirEntry>, t: Target)
    requires t in OrphansIn(lib, d, installed, es)
    ensures t.category == OrphanCategory && t.risk == Safe
  {
    ConcatMembers(es, OrphanFinder(lib, d, installed), t);
    var k :| 0 <= k < |es| && t in OrphanFinder(lib, d, installed)(es[k]);
    var e := es[k];
    if t != PlistTarget(lib, e) {
      var b := TrimSuffix(e.name, ".plist");
      var n := ExtractAppName(e.name);
      ConcatMembers(RemnantDirs, RemnantFinder(lib, d, b, n), t);
      var j :| 0 <= j < |RemnantDirs| && t in RemnantsInDir(lib, d, b, n, RemnantDirs[j]);
      RemnantInDirMeaning(lib, d, b, n, RemnantDirs[j], t);
    }
  }

  /** `e` is a remnant of the orphan in directory `dir`. */
  ghost predicate RemnantIn(lib: string, d: Disk, bundleId: string, appName: string, dir: string, e: DirEntry) {
    var dirPath := PathJoin(lib, dir);
    ListingAt(d, dirPath).Listed? && e in ListingAt(d, dirPath).entries && Remnant(ToLower(bundleId), ToLower(appName), e)
  }

  /** The remnants found in a directory are exactly its entries named like the bundle identifier or the app. */
  lemma RemnantInDirMeaning(lib: string, d: Disk, bundleId: string, appName: string, dir: string, t: Target)
    ensures t in RemnantsInDir(lib, d, bundleId, appName, dir) <==>
              exists e :: RemnantIn(lib, d, bundleId, appName, dir, e) && t == RemnantTarget(PathJoin(lib, dir), dir, appName, e)
    ensures t in RemnantsInDir(lib, d, bundleId, appName, dir) ==> t.category == OrphanCategory && t.risk == Safe
  {
    var dirPath := PathJoin(lib, dir);
    if ListingAt(d, dirPath).Listed? {
      var es := ListingAt(d, dirPath).entries;
      MapSelectMembers(es, RemnantKey(ToLower(bundleId), ToLower(appName)), RemnantMaker(dirPath, dir, appName), t);
      if exists e :: RemnantIn(lib, d, bundleId, appName, dir, e) && t == RemnantTarget(dirPath, dir, appName, e) {
        var e :| RemnantIn(lib, d, bundleId, appName, dir, e) && t == RemnantTarget(dirPath, dir, appName, e);
        var i :| 0 <= i < |es| && es[i] == e;
        assert RemnantKey(ToLower(bundleId), ToLower(appName))(es[i]) && t == RemnantMaker(dirPath, dir, appName)(es[i]);
      }
    }
  }

  /** A cancelled pass returns how the full pass begins. */
  lemma OrphansCancelledIsPrefix(lib: string, d: Disk, installed: set<string>, es: seq<DirEntry>, n: nat)
    requires n <= |es|
    ensures OrphansIn(lib, d, installed, es[..n]) <= OrphansIn(lib, d, installed, es)
  {
    ConcatPrefix(es, n, OrphanFinder(lib, d, installed));
  }
}
