# macbroom in Dafny

A model of the core of macbroom (the Go repository `tidymac`), a macOS disk-cleanup tool, with proofs
about that model. It covers:

- the scanner vocabulary: risk levels and cleanup targets;
- the scan engine that runs registered scanners and filters targets through an exclude predicate;
- three scanners in full: the Homebrew download cache, large-and-old files, and the app-leftover scanner
  (related files of an app and orphaned data of uninstalled apps);
- the duplicate finder: a size pass, then partial and full content hashing;
- the scan cache that diffs two scan snapshots per category;
- the cleanup history with its statistics;
- the configuration: size and duration parsing, exclusion patterns, validation, loading with warnings;
- the launchd schedule: time parsing and plist generation;
- disk-usage trends: `df` parsing, a bounded snapshot store, and the growth forecast;
- the command-line helpers: risk summary, category grouping, threshold filtering, diff indicators,
  path truncation, JSON report shapes, category selection, and how the engine is built;
- the terminal UI's list navigation, its duplicate-group list with pre-selection, and duplicate cleanup.

Every file system, clock, subprocess and hash is a parameter. A directory walk is the sequence of
entries its callback sees, in walk order. A `context.Context` is a `Ctx.Context` that is either never
cancelled or becomes cancelled after a given number of polls. Go's `int64` values are unbounded `int`s, except where the
wrap-around is written out with `StrUtil.Wrap64`: in `Config.SizeValueAsWritten` (the size parse as
the source writes it), in `GoTime.DaysToDuration` (the "Nd" day counts of `Config.ParseDuration` and
`Trends.ParseDuration`) and in `Trends.KiB` (the `df` kilobyte products). Methods with loops model the
source's loops. Each such method is specified by a function on its inputs, and the lemmas beside the
function state what the source promises.

The modules follow the Go packages. `Wrappers`, `StrUtil`, `Folds` and `Sorting` hold shared
definitions (Option/Result, string helpers, folds over sequences, a descending sort). `GoTime` holds
duration constants.

## Model

| member | source | states |
|---|---|---|
| Scanner.RiskString | internal/scanner/scanner.go:16-27 | a level outside Safe, Moderate and Risky, and only such a level, prints as "Unknown" |
| Scanner.LevelsOrdered | internal/scanner/scanner.go:8-14 | the three named levels are exactly the ones from Safe to Risky, and Safe < Moderate < Risky |
| Scanner.RiskStringInjective | internal/scanner/scanner.go:16-27 | two named levels with the same name are the same level |
| Engine.Engine.constructor | internal/engine/engine.go:22-24 | a new engine has no scanners and no exclude function |
| Engine.Engine.Register | internal/engine/engine.go:26-28 | the scanner is appended at the end; the exclude function is unchanged |
| Engine.Engine.SetExcludeFunc | internal/engine/engine.go:30-32 | the exclude function becomes the given one; the scanners are unchanged |
| Engine.Engine.Scanners | internal/engine/engine.go:34-36 | returns the registered scanners in registration order |
| Engine.Engine.FilterExcluded | internal/engine/engine.go:38-49 | returns the targets the exclude function keeps, in order; all of them when none is set |
| Engine.KeptNone | internal/engine/engine.go:38-41 | without an exclude function, filtering keeps every target |
| Engine.KeptMembers | internal/engine/engine.go:38-49 | a target survives filtering exactly when it was there and its path is not excluded |
| Engine.KeptInOrder | internal/engine/engine.go:38-49 | the filtered targets are a subsequence of the input, so order is kept |
| Engine.KeptIdempotent | internal/engine/engine.go:38-49 | filtering twice is the same as filtering once |
| Engine.KeptAppend | internal/engine/engine.go:38-49 | filtering distributes over concatenation, so per-scanner filtering equals filtering of the whole |
| Engine.SuccessfulMembers | internal/engine/engine.go:51-84 | a target is among the collected ones exactly when some scanner succeeded and found it |
| Engine.FailuresEmpty | internal/engine/engine.go:51-84 | there are no error messages exactly when every scanner succeeded |
| Engine.Engine.ScanAll | internal/engine/engine.go:51-84 | with no scanners: nothing and no error; otherwise the filtered targets of the successful scanners, in order, and an error exactly when some scanner failed, listing every failure |
| Engine.ScanAllSound | internal/engine/engine.go:51-84 | every reported target comes from a scanner that succeeded, and its path is not excluded |
| Engine.Engine.ScanByCategory | internal/engine/engine.go:86-94 | an unknown name gives "unknown category: " + name; otherwise the first scanner with that name decides the filtered targets and the error |
| Engine.Engine.ScanGrouped | internal/engine/engine.go:96-122 | one result per scanner, in registration order, each holding that scanner's filtered targets or its error |
| Engine.Engine.ScanGroupedWithProgress | internal/engine/engine.go:142-190 | the concurrency limit is at least 1; the results are those of ScanGrouped; with a callback, each scanner reports a start and a done event, in order |
| LargeFiles.Classify | internal/scanner/largefiles.go:29-69 | a path is reported exactly when it is a file walked without error that matches on size or age; an only-old file is Risky, otherwise Moderate; the description names the matching criteria |
| LargeFiles.WalkDir | internal/scanner/largefiles.go:29-70 | one walk reports the classified paths that come before the first poll finding the context cancelled, and says whether it was cut short |
| LargeFiles.Scan | internal/scanner/largefiles.go:24-77 | never fails; reports, in walk order, the classified paths of all search directories up to the first cancelling poll |
| LargeFiles.ReportsMeaning | internal/scanner/largefiles.go:36-67 | exactly the files that match on size or age are reported, with their own path, under "Large & Old Files" |
| LargeFiles.CancelledIsPrefix | internal/scanner/largefiles.go:28-76 | a cancelled scan returns a prefix of what the uncancelled scan returns; without cancellation every path is handled |
| Homebrew.IsCacheFile | internal/scanner/homebrew.go:102-114 | a path is a cache file exactly when its lower-cased form ends in ".tar.gz" or ".dmg" (the ".bottle.tar.gz" case is subsumed) |
| Homebrew.CacheFileIgnoresCase | internal/scanner/homebrew.go:102-114 | upper- or lower-casing a path does not change whether it is a cache file |
| Homebrew.WalkCache | internal/scanner/homebrew.go:58-90 | the walk is cancelled exactly when the context is cancelled within the polls it makes; an uncancelled walk reports the cache targets |
| Homebrew.Scan | internal/scanner/homebrew.go:38-99 | no brew: nothing; a failing `brew --cache`: the context's error if cancelled, else a cache-directory error; an empty directory: nothing; otherwise the cache targets, or the context's error once a poll sees it cancelled |
| Homebrew.CacheTargetsMeaning | internal/scanner/homebrew.go:58-90 | an entry is reported exactly when it is a cache-suffixed file walked without error whose `Info()` succeeds; every target is a Safe "Homebrew" file |
| Apps.ListApps | internal/scanner/apps.go:44-58 | returns, in directory order, the names of the applications directory's `.app` entries without the suffix; nothing when that directory cannot be read |
| Apps.AppNamesMeaning | internal/scanner/apps.go:51-56 | a name is listed exactly when some entry is called that name plus ".app" |
| Apps.ExtractAppName | internal/scanner/apps.go:262-269 | the result contains no dot; it is "" when the name without ".plist" has no dot, and otherwise it is what follows that name's last dot |
| Apps.ExtractFromBundleId | internal/scanner/apps.go:259-269 | the plist of a bundle identifier `prefix.Name` gives back `Name` |
| Apps.ScanSearchDir | internal/scanner/apps.go:88-126 | one search directory yields the targets of its entries whose names contain the app's name, ignoring case, and whose `Info()` succeeds; a missing or unreadable directory yields nothing |
| Apps.SearchLibrary | internal/scanner/apps.go:79-127 | polls before each of the twelve search directories; stops at the first poll that finds the context cancelled, with the targets of the directories before it |
| Apps.FindRelatedFiles | internal/scanner/apps.go:60-144 | a cancellation returns the targets found so far and the context's error; otherwise every search directory's matches in order, then the bundle when it exists, and no error |
| Apps.RelatedMeaning | internal/scanner/apps.go:98-125 | a target is reported exactly for a matching entry of one of the searched directories; every such target is a Moderate "App Uninstaller" one |
| Apps.CancelledIsPrefix | internal/scanner/apps.go:81-86 | what a cancelled search returns is a prefix of the full search's result |
| Apps.LowerSetMeaning | internal/scanner/apps.go:164-167 | a name is a key of the installed set exactly when some installed app lower-cases to it |
| Apps.InstalledSet | internal/scanner/apps.go:164-167 | builds the set of lower-cased installed names |
| Apps.ScanRemnantDir | internal/scanner/apps.go:210-252 | one remnant directory yields the targets of its entries named like the bundle identifier or the app, ignoring case, whose `Info()` succeeds |
| Apps.ScanRemnants | internal/scanner/apps.go:207-253 | the remnants of "Caches" come before those of "Application Support" |
| Apps.RemnantInDirMeaning | internal/scanner/apps.go:224-251 | a remnant is reported exactly for an entry whose lower-cased name equals the lower-cased bundle identifier or app name; it is a Safe "Orphaned Preferences" target |
| Apps.ScanPreference | internal/scanner/apps.go:176-253 | one preference entry yields its plist target and then its remnants when it is orphaned, and nothing otherwise |
| Apps.ScanPreferences | internal/scanner/apps.go:169-254 | polls before each preference entry; a cancellation returns the targets of the entries before it |
| Apps.FindOrphans | internal/scanner/apps.go:150-257 | no Preferences directory: nothing and no error; an unreadable one: nothing and an error; otherwise the orphan targets of every entry, or of the entries before the cancelling poll together with the context's error |
| Apps.OrphanedMeaning | internal/scanner/apps.go:176-195 | an entry produces targets exactly when it ends in ".plist", names an app, no installed app has that name ignoring case, and its `Info()` succeeds |
| Apps.OrphanShape | internal/scanner/apps.go:197-251 | every orphan target, plist or remnant, is a Safe "Orphaned Preferences" one |
| Apps.OrphansCancelledIsPrefix | internal/scanner/apps.go:169-174 | what a cancelled pass returns is a prefix of the full pass's result |
| Dupes.Classify | internal/dupes/dupes.go:97-132 | a file is kept exactly when it is not a directory, a dotfile or a symbolic link, its `Info()` succeeds, it is regular and it has at least the minimum size; a directory is pruned exactly when it is `.git` or holds a `.git` |
| Dupes.PathsOfSizeMembers | internal/dupes/dupes.go:138 | every path in a size bucket is a kept file of that size |
| Dupes.WalkFromKeeps | internal/dupes/dupes.go:86-140 | one root's walk keeps only eligible files, is never ended by a context that is never cancelled, and never takes back a poll |
| Dupes.WalkAllKeepsEligible | internal/dupes/dupes.go:85-144 | every file the walks of all roots keep passed every filter; a context that is never cancelled never ends them |
| Dupes.PrunedSubtreeIgnored | internal/dupes/dupes.go:99-105 | an entry under a pruned directory changes nothing |
| Dupes.WalkFromAppend | internal/dupes/dupes.go:86-140 | walking two runs of entries one after the other is walking their concatenation |
| Dupes.WalkAllFrozen | internal/dupes/dupes.go:141-143 | once a root's walk is cancelled, the later roots are never walked |
| Dupes.WalkFromFrozen | internal/dupes/dupes.go:91-95 | a cancelled walk processes no further entry |
| Dupes.BucketsToGroups | internal/dupes/dupes.go:146-152 | exactly the size buckets with two or more files become groups, one per size, each holding its bucket |
| Dupes.AcceptStep | internal/dupes/dupes.go:138 | appending a kept file to its size's bucket keeps every bucket equal to the kept files of that size, in order |
| Dupes.WalkRoot | internal/dupes/dupes.go:86-143 | one root's walk follows the callback entry by entry; the buckets and the progress trace hold exactly the files it keeps |
| Dupes.GroupBySize | internal/dupes/dupes.go:82-155 | a cancellation gives no groups; otherwise the groups are exactly the sizes held by two or more kept files, each with all those files in walk order; the progress callback sees every kept file, only when one is given |
| Dupes.SizeGroupsFromBuckets | internal/dupes/dupes.go:146-154 | the kept buckets with two or more files are exactly the size groups of pass 1 |
| Dupes.FileHash | internal/dupes/dupes.go:201-223 | an unreadable file has no digest; the partial digest is that of the first 4096 bytes, the full digest that of all of them |
| Dupes.ShortFileSameHash | internal/dupes/dupes.go:210-220 | a file of at most 4096 bytes gets the same digest in both passes |
| Dupes.FilesWithHashSound | internal/dupes/dupes.go:171-183 | a digest bucket is a subsequence of its group's files, and each of its files has that digest |
| Dupes.HashBuckets | internal/dupes/dupes.go:170-183 | polls once per file and gives up at the first cancelled poll; otherwise each digest maps to the group's files with that digest, in order |
| Dupes.EmitSubGroups | internal/dupes/dupes.go:185-193 | appends exactly the digest buckets of two or more files, as groups of the input's size, each once |
| Dupes.RefineByHash | internal/dupes/dupes.go:160-197 | fails exactly when the context is cancelled within the polls a full pass needs (one per group, one per file); otherwise the output is exactly the digest sub-groups with two or more files, and when no two input groups of one size share a file, none of them occurs twice |
| Dupes.RefinedMember | internal/dupes/dupes.go:185-193 | a refined group has two or more files, in order, all from one input group of its size and all with its digest |
| Dupes.CandidateFacts | internal/dupes/dupes.go:42 | the files of a partial-digest group are kept files of its size with its partial digest |
| Dupes.GroupChain | internal/dupes/dupes.go:34-51 | every confirmed group has two or more eligible files of its size with the same partial and the same full digest |
| Dupes.FilesWithHashShorter | internal/dupes/dupes.go:170-183 | a digest bucket is never longer than its group |
| Dupes.GroupComplete | internal/dupes/dupes.go:34-51 | any two or more kept files with one size, one partial and one full digest appear together as one confirmed group |
| Dupes.RefineStep | internal/dupes/dupes.go:163-193 | one round of the pass keeps the refined groups sound, complete for the groups seen so far, and free of repeats |
| Dupes.FreshSubGroup | internal/dupes/dupes.go:163-193 | when no two input groups of one size share a file, a sub-group of one input group is none of the groups refined from the earlier ones |
| Dupes.RefinedSeparate | internal/dupes/dupes.go:185-193 | groups refined without repeats from groups that share no file within a size share no file within a size either |
| Dupes.GroupWhole | internal/dupes/dupes.go:41-51 | a group confirmed by the full-digest pass holds every kept file of its size with its partial digest and its full digest |
| Dupes.PipelineFacts | internal/dupes/dupes.go:34-71 | the three passes, in any order of their output, give sound, whole and complete duplicate groups with no repeats |
| Dupes.FindWithProgress | internal/dupes/dupes.go:34-71 | a never-cancelled context always succeeds; an error needs a cancellation and names the pass; every group is a whole set of two or more files of one size and one partial and one full digest, every such set is a group, no group occurs twice, and the groups are sorted by wasted bytes, largest first |
| ScanCache.Latest | internal/scancache/scancache.go:96-99 | the entry a name-keyed map retains is an entry of the snapshot carrying that name (the last one) |
| ScanCache.SizeIndex | internal/scancache/scancache.go:95-99 | the index has exactly the snapshot's names as keys, each mapped to the size of the last entry with that name |
| ScanCache.IndexSizes | internal/scancache/scancache.go:96-99 | the loop builds exactly that index |
| ScanCache.CountNameZero | internal/scancache/scancache.go:102-111 | a name occurs zero times exactly when it is not among the names |
| ScanCache.CountNameDistinct | internal/scancache/scancache.go:102-111 | with distinct names, a present name occurs exactly once |
| ScanCache.CurrentEntries | internal/scancache/scancache.go:102-111 | the entries written for the current categories have exactly the current names as keys, each holding that name's diff entry |
| ScanCache.DiffCurrent | internal/scancache/scancache.go:101-111 | the loop over the current categories leaves the index without the current names and writes each current name's diff entry |
| ScanCache.AddRemoved | internal/scancache/scancache.go:113-120 | each name left in the index is added as removed (current size 0, delta minus the previous size, not new), and the other entries are kept |
| ScanCache.Diff | internal/scancache/scancache.go:88-123 | keeps the previous timestamp and the difference of the totals; covers every name of either snapshot; each delta is current minus previous; current names get their entry; names only in the previous snapshot are removed |
| ScanCache.NewIffAbsent | internal/scancache/scancache.go:102-109 | with distinct current names, a category is new exactly when the previous snapshot lacks it, and otherwise its previous size is the previous snapshot's |
| ScanCache.RepeatedNameIsNew | internal/scancache/scancache.go:102-110 | a name repeated in the current snapshot is reported as new with previous size 0, because its first occurrence deleted it from the index |
| ScanCache.SelfDiffUnchanged | internal/scancache/scancache.go:88-123 | diffing a snapshot with distinct names against itself reports every category as unchanged and not new |
| History.Load | internal/history/history.go:84-99 | entries are returned exactly when the file holds a list; a missing file is reported as not-exist and only a missing file is |
| History.CategoryMapMeaning | internal/history/history.go:115-122 | a category is a key exactly when some entry has it, and its entry sums that category's bytes freed and counts its cleanups |
| History.CategoryStep | internal/history/history.go:118-121 | one loop step keeps the per-category map correct |
| History.OverAgree | internal/history/history.go:115-122 | reading the map over some categories gives the grouped sums of the entries |
| History.ByCategoryTotals | internal/history/history.go:110-122 | summed over all categories, the per-category bytes and cleanups give the total bytes freed and the number of entries |
| History.RecentNewest | internal/history/history.go:124-135 | the recent list holds min(5, n) entries of the history, newest first, and no entry left out is newer than one in it |
| History.TopK | internal/history/history.go:124-135 | the first k of a sorted copy are sorted, come from the input and outrank everything left out |
| History.PrefixNewest | internal/history/history.go:127-135 | in a list sorted newest first, every entry of a prefix is at least as new as every entry after it |
| History.StatsOfLoaded | internal/history/history.go:102-108 | the early return for a load error or an empty history gives what the general computation gives for an empty list |
| History.StatsAfterRecord | internal/history/history.go:56-65 | recording an entry adds one cleanup and its bytes to the totals and to its category, and leaves every other category as it was |
| History.HistoryLog.constructor | internal/history/history.go:41-43 | a history is bound to its file |
| History.HistoryLog.Record | internal/history/history.go:56-81 | a successful write stores the loaded entries (none after any load error) with the new entry appended; a failed write reports an error and leaves the file |
| History.HistoryLog.Stats | internal/history/history.go:102-138 | returns the statistics of the file: nothing on a load error or an empty history, otherwise the totals, the per-category map and the recent list |
| Config.FirstSuffix | internal/config/config.go:213-228 | the suffix found is the first entry of the table that ends the upper-cased string, and none is found only when no entry ends it |
| Config.MatchSuffix | internal/config/config.go:213-214 | the suffix loop stops at exactly that first matching entry |
| Config.SizeParts | internal/config/config.go:205-237 | a parsed size is a non-negative int64 count with a multiplier of at least 1; the empty string is an error |
| Config.SizeValue | internal/config/config.go:205-239 | a size that parses is between 0 and the largest int64 (the product is checked); the empty string is an error |
| Config.Scaled | internal/config/config.go:226 | a count times its multiplier is returned only when it fits in an int64; an earlier error is passed through |
| Config.ParseSize | internal/config/config.go:205-239 | the method (trim, upper-case, suffix table in order, plain byte count otherwise) returns exactly the checked size value |
| Config.ScaleCount | internal/config/config.go:219-226 | parses the count, rejects a non-number or a negative number, and multiplies out within int64 |
| Config.TableShape | internal/config/config.go:192-201 | no suffix of the table ends a later one, so table order decides only between spellings that cannot both match |
| Config.SuffixFoundAfter | internal/config/config.go:213-214 | whatever precedes it, a table suffix is the one the lookup finds |
| Config.SuffixedSize | internal/config/config.go:192-226 | a number followed by any spelling of a table suffix ("100mb", "100Mb") is that many units; a negative number, or a product beyond int64, is an error |
| Config.SuffixAlone | internal/config/config.go:215-218 | a suffix with no number ("MB", "k") is a missing-number error |
| Config.PlainSize | internal/config/config.go:230-238 | an integer with no suffix is that many bytes; a negative one is an error |
| Config.DigitEndNoSuffix | internal/config/config.go:213-230 | a string that ends in a digit matches no suffix |
| Config.AsWrittenAgrees | internal/config/config.go:205-239 | wherever the checked parse does not report overflow, the code as written gives the same answer |
| Config.OverflowWrapsNegative | internal/config/config.go:226 | as written, "8388608T" (2^63 bytes) wraps to the most negative int64 and is returned as a size |
| Config.OverflowRejected | internal/config/config.go:226 | the checked parse rejects "8388608T" as out of range |
| Config.DurationDays | internal/config/config.go:485-492 | "Nd" is exactly N days whenever that many nanoseconds fit in an int64 |
| Config.DurationEmpty | internal/config/config.go:495-498 | the empty string, which Go's parser rejects, falls back to 90 days |
| Config.IsExcluded | internal/config/config.go:245-274 | a path is excluded exactly when some pattern matches it: a "dir/**" pattern by prefix, any other by a glob on the full path or on the base name, after "~" expansion |
| Config.DirPatternMatches | internal/config/config.go:256-262 | "dir/**" matches exactly `dir` and the paths below it, whatever the glob matcher does |
| Config.TildeExpansion | internal/config/config.go:249-253 | a leading "~/", or a bare "~", stands for the home directory |
| Config.WarnSpec | internal/config/config.go:311-414 | each validation loop warns only about its own elements, and about every element its check rejects, in order |
| Config.CollectWarnings | internal/config/config.go:311-328 | one validation loop appends the warnings of its elements in order |
| Config.Validate | internal/config/config.go:307-417 | the warnings are those of the exclude patterns, the large-file paths, the search paths, the schedule time, the interval and the categories, in that order |
| Config.TimeCheckMatchesSchedule | internal/config/config.go:369-391 | the time check accepts exactly the empty time and the times the LaunchAgent generator parses |
| Config.IntervalCaseInsensitive | internal/config/config.go:394-403 | the interval check ignores case |
| Config.PathWarned | internal/config/config.go:330-366 | a path is reported exactly when its home-expanded form does not exist |
| Config.PathWarningNames | internal/config/config.go:343 | the warning text names the path, so different paths give different warnings |
| Config.DefaultScheduleValid | internal/config/config.go:75-117 | the default schedule time "10:00" and interval "daily" pass validation |
| Config.DefaultWarnings | internal/config/config.go:75-117 | the default configuration can be warned about only for search paths that do not exist |
| Config.HundredMegabytes | internal/config/config.go:75-117 | the default minimum size string "100MB" parses to 100 MiB |
| Config.DefaultsConsistent | internal/config/config.go:75-117 | the default minimum size and the default ages agree with their string forms (100 MiB, 90 days, 30 days) |
| Config.UnknownKeys | internal/config/config.go:450-458 | reports each unknown key of the document once, and only unknown keys, in some map order |
| Config.ResolveSize | internal/config/config.go:433-445 | a minimum-size string that parses replaces the minimum size; one that does not leaves it and gives one warning |
| Config.KeyWarnings | internal/config/config.go:447-474 | one warning per unknown top-level key, then one per unknown key under a "scanners" map, when the second decode succeeds |
| Config.LoadAndValidate | internal/config/config.go:421-480 | a file that does not decode gives the defaults and one parse warning; otherwise the minimum size is resolved, then come the size warning, the unknown-key warnings and the validation warnings |
| Schedule.SplitColon | internal/schedule/schedule.go:85 | splitting at the first colon gives one part (the whole string) exactly when there is no colon, and otherwise a colon-free head and the rest, which joined with ":" give the string back |
| Schedule.ParseTime | internal/schedule/schedule.go:84-98 | a parsed time has hour 0-23 and minute 0-59; a string without a colon is a format error |
| Schedule.Pad2 | internal/schedule/schedule.go:84-98 | a number below 100 written with two digits reads back as that number |
| Schedule.ParseTimePadded | internal/schedule/schedule.go:84-98 | every in-range time written as zero-padded HH:MM parses to that hour and minute |
| Schedule.ParseTimeItoa | internal/schedule/schedule.go:84-98 | every in-range time written without padding parses to that hour and minute |
| Schedule.IntervalCaseInsensitive | internal/schedule/schedule.go:102-109 | the weekday ignores case; it is 1 exactly for "weekly" and 0 for every other interval |
| Schedule.PlistHead | internal/schedule/schedule.go:15-33 | the rendered plist starts with the XML prologue |
| Schedule.GeneratePlist | internal/schedule/schedule.go:120-145 | the plist is empty exactly when the time does not parse |
| Schedule.WeeklyAddsWeekday | internal/schedule/schedule.go:33-35 | the daily plist has no Weekday entry, and the weekly one (in any case) is the same text with the Monday entry inserted after the Minute entry |
| Schedule.GenerateRenders | internal/schedule/schedule.go:126-144 | a valid time renders the template with the bundle identifier, the binary, the time, the weekday and the log path |
| Schedule.RenderWith | internal/schedule/schedule.go:33-35 | the Weekday key is written only for a non-zero weekday |
| Schedule.Install | internal/schedule/schedule.go:155-171 | an unparsable time fails before anything is written; success needs a valid time, the directory and the write, and then only the plist path changes, to exactly the plist generated for the time, interval, binary and home |
| Schedule.Written | internal/schedule/schedule.go:166 | writing a file sets that path's contents and keeps every other file |
| Trends.ParseDF | internal/trends/trends.go:61-105 | a parsed snapshot carries the given timestamp; output with no second line is a too-few-lines error |
| Trends.ParseDFDataLine | internal/trends/trends.go:61-105 | a header line and a data line with a device and three block counts parse to those counts times 1024, whenever they fit in an int64 |
| Trends.ShortDataLine | internal/trends/trends.go:68-71 | a data line with fewer than four fields is rejected before any number is read |
| Trends.ParseDuration | internal/trends/trends.go:310-333 | the empty or all-blank string is an error |
| Trends.DaysDuration | internal/trends/trends.go:316-326 | "Nd" is N days for every N >= 0 whose nanoseconds fit in an int64, and an error for every N < 0, whatever Go's parser does |
| Trends.RetainAppend | internal/trends/trends.go:145-150 | after appending, the store holds the last min(n + 1, 365) snapshots of the old list plus the new one, and the new one is last |
| Trends.RetainShort | internal/trends/trends.go:148-150 | a list that still fits is kept whole |
| Trends.WindowMembers | internal/trends/trends.go:174-184 | the window holds exactly the stored snapshots whose timestamp parses and is not before the cutoff, in stored order |
| Trends.InWindowOf | internal/trends/trends.go:175-184 | the filtering loop keeps exactly the window |
| Trends.Store.constructor | internal/trends/trends.go:113-115 | a store is bound to its file |
| Trends.Store.Append | internal/trends/trends.go:138-157 | a successful save stores the loaded snapshots (none after a load error) plus the new one, trimmed to the last 365, and returns the snapshot; a failed save changes nothing |
| Trends.Store.Record | internal/trends/trends.go:128-135 | a snapshot that cannot be taken is an error and changes nothing; otherwise it is appended as above |
| Trends.Store.GetTrends | internal/trends/trends.go:160-187 | no file: no snapshots; an unreadable file or a bad duration: an error; otherwise the window from now minus the duration |
| Trends.Points | internal/trends/trends.go:240-247 | there are never more data points than snapshots |
| Trends.TruncDiv | internal/trends/trends.go:271 | the quotient truncates toward zero, as Go's conversion does: the remainder lies in [0, b) for a non-negative dividend and in (-b, 0] for a negative one |
| Trends.ConfidenceFor | internal/trends/trends.go:273-280 | more than 30 points is high confidence, 7 to 30 medium, fewer than 7 low |
| Trends.DaysUntilFullMeaning | internal/trends/trends.go:287-301 | -1 when usage is not growing, 0 when nothing is available, otherwise the whole number of days the available space lasts at the rate |
| Trends.ForecastMeaning | internal/trends/trends.go:225-307 | -1 days and no projected date exactly when the rate is not positive; a projected date equals the day count; fewer than two points or a span under 0.01 days gives no forecast |
| Trends.GrowthSign | internal/trends/trends.go:270-271 | the rate has the sign of the growth, and no growth means no rate |
| Trends.GrowthAtLeast | internal/trends/trends.go:270-271 | over a span of at most one day, the daily rate is at least the growth |
| Trends.Forecast | internal/trends/trends.go:225-307 | fewer than two snapshots give no forecast; otherwise the forecast from the snapshots with parsable timestamps and the last snapshot's available space |
| GoTime.DaysInNanoseconds | internal/config/config.go:491 | N days are N times 86,400,000,000,000 nanoseconds |
| CliRisk.RiskSummary | internal/cli/risk.go:21-37 | the breakdown holds the bytes of the Safe, Moderate and Risky targets and the bytes of all targets |
| CliRisk.LevelsAddUp | internal/cli/risk.go:21-37 | when every target has one of the three levels, the three level totals add up to the overall total |
| CliRisk.RiskSummaryLine | internal/cli/risk.go:39-71 | the line is empty exactly when the total is zero; otherwise Safe comes first, and Moderate and Risky appear exactly when they hold bytes, in that order |
| CliGroups.GroupByCategory | internal/cli/output.go:53-56 | each category that occurs is a key and maps to its targets in scan order; no other category is a key |
| CliGroups.SumSizes | internal/cli/scan.go:76-79 | the total is the sum of the target sizes |
| CliGroups.KeysInSomeOrder | internal/cli/output.go:60 | a map range visits every key exactly once, in some order |
| CliGroups.CoversCategories | internal/cli/output.go:52-60 | every target's category is among the keys visited |
| CliScan.FilterByThreshold | internal/cli/scan.go:20-28 | the targets kept are those of at least the threshold's size, in order |
| CliScan.ThresholdKeeps | internal/cli/scan.go:20-28 | a target is kept exactly when it is a target and reaches the threshold, and the kept list is a subsequence of the targets |
| CliScan.ZeroThresholdKeepsAll | internal/cli/scan.go:20-28 | with no negative sizes, a zero threshold keeps every target |
| CliScan.ApplyThreshold | internal/cli/scan.go:52-58 | no threshold changes nothing; a threshold that does not parse is that parse error; otherwise the targets are filtered by the parsed size |
| CliScan.Rollup | internal/cli/scan.go:62-80 | the snapshot is taken at the given time, totals all sizes, and holds one entry per occurring category with that category's bytes and number of targets |
| CliScan.RollupTotals | internal/cli/scan.go:62-80 | the entries' sizes add up to the snapshot total and their counts to the number of targets |
| CliScan.RollupSumsAsGroups | internal/cli/scan.go:62-75 | the entries' sizes and counts are the per-category sums of the targets |
| CliOutput.TruncatePath | internal/cli/output.go:150-155 | a path that fits is unchanged; a longer one becomes exactly `maxLen` characters: "..." and the path's last `maxLen - 3` characters |
| CliOutput.TruncateFits | internal/cli/output.go:150-155 | the result never exceeds `maxLen`, and what follows "..." is how the path ends |
| CliOutput.DiffIndicator | internal/cli/output.go:124-148 | no indicator exactly without a diff or for an unlisted category; "(new)" exactly for a new category; otherwise unchanged for a zero delta, and growth or shrinkage by the delta's magnitude |
| CliOutput.IndicatorOfSelfDiff | internal/cli/output.go:124-148 | against its own snapshot, every category shows "unchanged" |
| CliOutput.IndicatorOfNewCategory | internal/cli/output.go:124-148 | a category the previous snapshot lacked shows "(new)" |
| CliOutput.GroupOf | internal/cli/output.go:60-70 | a category's group holds its targets, largest first, as a permutation, with their total size |
| CliOutput.ReportOrder | internal/cli/output.go:46-75 | no targets give no groups; otherwise one group per occurring category, each a permutation of its targets largest first, with the groups largest total first |
| CliOutput.BuildGroups | internal/cli/output.go:59-70 | the loop over the map builds, for each visited key, that category's group |
| CliOutput.UnsortedGroups | internal/cli/output.go:52-70 | the groups built over all keys are one per occurring category |
| CliOutput.SortedGroups | internal/cli/output.go:72-75 | reordering the groups keeps them one per occurring category |
| CliOutput.ReportTotal | internal/cli/output.go:77-79 | the group totals add up to the total size of all targets |
| CliJson.MaxRisk | internal/cli/json.go:66-76 | the dominant risk is at least Safe, no target is riskier, and some target attains it unless it is Safe |
| CliJson.CategoryJson | internal/cli/json.go:62-83 | the inner loop builds a category's entry: its name, total bytes, count, dominant risk and targets in scan order |
| CliJson.CategoriesJson | internal/cli/json.go:61-84 | the loop over the map builds one entry per visited key |
| CliJson.BuildScanJson | internal/cli/json.go:54-114 | the document carries the version and time, one entry per occurring category, the total bytes and count, the per-level bytes, and the diff's fields exactly when there is a diff |
| CliJson.ScanJsonTotals | internal/cli/json.go:54-114 | the category sizes add up to the total size and the category counts to the total count |
| CliJson.CategoryListed | internal/cli/json.go:56-84 | every target's category has an entry |
| CliJson.CategorySumsAsGroups | internal/cli/json.go:61-84 | the entries' sizes and counts are the per-category sums of the targets |
| CliJson.CategoryRiskDominates | internal/cli/json.go:66-76 | no target of a category is riskier than its entry's risk |
| CliJson.TargetJsonSizes | internal/cli/json.go:67-72 | the listed targets' sizes add up to the targets' sizes |
| CliJson.BuildDupesJson | internal/cli/json.go:142-168 | the document lists every group in order, counts all files, and totals the size times one less than the file count over the groups |
| CliJson.DupesTotalsBounds | internal/cli/json.go:153-154 | for groups of at least two files, at least two files per group are counted, the waste is not negative, and waste plus one copy of each group is all the bytes |
| CliJson.BuildUninstallJson | internal/cli/json.go:224-247 | the document names the app, counts the targets, totals their sizes and lists them in order |
| CliJson.UninstallJsonConsistent | internal/cli/json.go:224-247 | the document's count is its list's length and its total the sum of the sizes it lists |
| CliRoot.ShouldSkipConfirm | internal/cli/root.go:89-91 | confirmation is skipped exactly when the command's --yes or the global --yolo is set |
| CliRoot.SelectedCategories | internal/cli/root.go:163-205 | no restriction exactly when no flag is set; otherwise the names of the flagged categories in the fixed order |
| CliRoot.SelectionMeaning | internal/cli/root.go:163-205 | a name is selected exactly when some flagged category has that name |
| CliRoot.SelectionOrder | internal/cli/root.go:167-204 | the selected names are distinct and follow the fixed order of the flags |
| CliRoot.SelectionEmpty | internal/cli/root.go:164-166 | the selection is empty exactly when no flag is set |
| CliRoot.ExpandPath | internal/cli/root.go:234-240 | "~/rest" becomes the home directory joined with the rest, "~" the home directory, and any other path is kept |
| CliRoot.ExpandPaths | internal/cli/root.go:231-243 | every path is expanded, in order, one result per path |
| CliRoot.ExpandIdempotent | internal/cli/root.go:231-243 | with a home directory that does not start with "~", expanding twice is expanding once |
| CliRoot.BuildEngine | internal/cli/root.go:103-161 | without a loaded configuration the defaults are used; the engine holds one scanner for each enabled kind, in the fixed order, each built from the configuration's paths and ages; as written no exclusion is installed |
| CliRoot.BuildEngineWithExclude | internal/cli/root.go:103-161 | the same engine with the configured exclude patterns installed as its exclusion |
| CliRoot.PlanNames | internal/cli/root.go:103-161 | the engine's scanners are named after the enabled kinds, in order, and no two share a name |
| CliRoot.ScanWithCategories | internal/cli/root.go:207-223 | without a restriction exactly the full scan and its errors; with one the targets of each requested category in turn, skipping unknown and failed categories, and never an error |
| CliRoot.CategoryOutcome | internal/cli/root.go:215-221 | one category's lookup contributes nothing when it fails or is unknown, and its kept targets otherwise |
| CliRoot.RestrictedSound | internal/cli/root.go:207-223 | every target of a restricted scan comes from a requested, successful scanner and is not excluded |
| CliRoot.KeptSound | internal/engine/engine.go:38-49 | a kept target is one of the found targets and is not excluded |
| CliRoot.CategoryOfKind | internal/cli/root.go:103-223 | in the engine built from a configuration, a disabled kind's category yields nothing and an enabled kind's category yields its own scanner's kept targets unless it fails |
| CliRoot.ExcludeIgnoredAsWritten | internal/cli/root.go:103-161 | a configured pattern that matches a found path does not stop the scan from reporting it |
| CliRoot.ExcludeHonoured | internal/config/config.go:245-274 | with the corrected wiring no reported target matches a configured exclude pattern |
| Tui.TruncPath | internal/tui/app.go:1917-1922 | a path that fits is unchanged; a longer one becomes exactly `maxLen` characters: "..." and how the path ends |
| Tui.LastSlash | internal/tui/app.go:1924-1931 | the index of the last '/', or -1 when there is none |
| Tui.LastSlashSplits | internal/tui/app.go:1924-1931 | -1 exactly when the string has no '/'; otherwise what follows the index is the last '/'-separated piece |
| Tui.JoinNames | internal/tui/app.go:1933-1951 | no names give "", one gives itself, two are joined by " and ", more by ", " |
| Tui.CommaListSplits | internal/tui/app.go:1941-1949 | splitting a list of three or more comma-free names at ',' recovers the names, each after the first behind one space |
| Tui.MenuMove | internal/tui/app.go:555-564 | the menu cursor stays on the menu, moves by at most one, up only for "up"/"k" and down only for "down"/"j" |
| Tui.MenuDownUp | internal/tui/app.go:555-564 | away from the menu's ends, down then up, or up then down, returns the cursor |
| Tui.VisibleItems | internal/tui/app.go:695-702 | the window shows the height less six lines, but never fewer than five |
| Tui.ScrollFor | internal/tui/app.go:685-693 | after scrolling the cursor is inside the window, and a cursor already inside leaves the offset alone |
| Tui.ScrollMinimal | internal/tui/app.go:685-693 | no other offset that shows the cursor is closer to the old offset |
| Tui.DupesFlatList | internal/tui/app.go:872-893 | the flat list is, group after group, a header line followed by one line per file |
| Tui.FlatListShape | internal/tui/app.go:872-893 | the list has one more line than files per group, and every line has a valid group, and a valid file when it is not a header, with the right path, size and keep mark |
| Tui.FlatListHeadersApart | internal/tui/app.go:872-893 | when every group has a file, no two headers are adjacent and the last line is a file |
| Tui.DupMove | internal/tui/app.go:913-935 | the cursor stays on the list, moves by at most two, up only for "up"/"k", down only for "down"/"j", and not at all for other keys |
| Tui.DupMoveSkipsHeaders | internal/tui/app.go:913-935 | in such a list, a cursor that moves lands on a file line or the very first line |
| Tui.SelKeyInjective | internal/tui/app.go:940 | the "gi:fi" selection key determines its group and file indices |
| Tui.CopyKeysMeaning | internal/tui/app.go:451-457 | the pre-selection holds a group's file exactly when the group exists and the file is not its first |
| Tui.PreSelect | internal/tui/app.go:452-457 | the loop builds exactly the pre-selection of all copies |
| Tui.Toggled | internal/tui/app.go:941-945 | toggling flips exactly the one key |
| Tui.ToggleKeepsKeep | internal/tui/app.go:936-946 | toggling the line under the cursor never selects a group's kept file |
| Tui.RefsAreFileLines | internal/tui/app.go:1022-1023 | the clean loop visits exactly the flat list's file lines, in order |
| Tui.CleanSelected | internal/tui/app.go:1018-1042 | deleted counts the selected files moved to the trash, deleted plus failed the selected files, and freed their sizes |
| Tui.CopySum | internal/tui/app.go:1022-1040 | the copies' sizes add up to the groups' wasted bytes |
| Tui.PreSelectFreesWaste | internal/tui/app.go:443-457 | cleaning the pre-selection when every move succeeds trashes exactly the copies and frees the groups' wasted bytes |
| Tui.Model.constructor | internal/tui/app.go:217-231 | a new model starts with every cursor, offset and counter at zero, no groups and an empty selection |
| Tui.Model.EnsureCursorVisible | internal/tui/app.go:685-693 | the category scroll offset becomes the nearest one that shows the cursor; nothing else changes |
| Tui.Model.MenuKey | internal/tui/app.go:555-564 | the menu cursor moves as `MenuMove` says; nothing else changes |
| Tui.Model.DupesDone | internal/tui/app.go:443-457 | the groups are stored, the cursor and offset reset, and every copy but no kept file pre-selected; nothing else changes |
| Tui.Model.DupesKey | internal/tui/app.go:911-957 | the cursor moves as `DupMove` says and scrolls into view when it moves; space toggles the copy under the cursor; no kept file becomes selected |
| Tui.Model.DoDupesClean | internal/tui/app.go:1009-1046 | the clean starts with its done count at zero and its total the number of selected keys, and its tallies are those of the selected file lines; groups and selection are unchanged |
| CliScan.GroupSizes | internal/cli/scan.go:62-71 | the first rollup loop maps each occurring category, and only those, to its bytes and its number of targets |
| CliRoot.AddFlagged | internal/cli/root.go:168-203 | one flag test appends the category's name exactly when its flag is set |
| CliRoot.RegisterIfEnabled | internal/cli/root.go:110-158 | one configuration test registers the kind's scanner exactly when it is enabled, and leaves the exclusion alone |
| CliRoot.FirstScanner | internal/engine/engine.go:86-94 | a category lookup finds nothing exactly when no scanner has that name, and otherwise the first scanner with it |
| Config.DurationOfDays | internal/config/config.go:485-492 | a trimmed "Nd" with a number N is N days in wrapping int64 nanoseconds |
| Trends.DurationOfDays | internal/trends/trends.go:316-325 | a trimmed "Nd" with a number N is an error for N < 0 and otherwise N days in wrapping int64 nanoseconds |
| Tui.SelectCopies | internal/tui/app.go:454-456 | the inner pre-selection loop adds the keys of a group's files after the first |
| Tui.CleanFile | internal/tui/app.go:1024-1034 | an unselected file changes no counter; a selected one counts as deleted, freeing its size, or as failed |
| Tui.CleanGroup | internal/tui/app.go:1023-1039 | the counters after a group's files are the tallies of the selected files among them |

## Left out

- The system, browser, Xcode, Docker, Node.js, iOS simulator, Python, Rust, Go, JetBrains and space-lens scanners are not part of this model. They are directory probes with little logic of their own. `buildEngine` sees each one only through the `Scanner.Probe` value it registers, which holds a name and a precomputed result.
- The Maven, Gradle and Ruby switches of the configuration are never read by `buildEngine`, so the model has no scanner for them either.
- Goroutines, the mutex, the wait group and the semaphore of the engine are not modelled: the scanners run one after another in registration order. `Engine.ScanGroupedWithProgress` keeps only the clamping of the concurrency and the one progress event per scanner start and end. Interleavings and the concurrency ceiling are outside a sequential model.
- File I/O is not modelled. This covers the scan-cache `Save`/`Load`, the history and trends files beyond their `Missing`/`Unreadable`/`Malformed`/entries states, the configuration `Load`, `LoadFrom` and `Save`, and schedule `Uninstall` and `Status`. Each of these reads or writes files and holds no further logic the core depends on.
- JSON and YAML encoding and decoding, `text/template`, `filepath.Match`, `time.ParseDuration` and the RFC 3339 timestamp parser are parameters, not models: they are library code.
- The plist template's parse and execute errors are not modelled: the template is a constant that always parses.
- `filepath.Join` is modelled as joining with one "/". The `Clean` step that removes "." and ".." and repeated slashes is left out.
- `DefaultPath`, `BinaryPath`, `os.UserHomeDir` and `time.Now` are parameters: they read the environment or the clock.
- Taking the `df` snapshot runs a subprocess: only the parsing of its output is modelled. `usedPct` is a floating-point percentage and is left out.
- The per-level percentages of `riskSummaryLine`, `utils.FormatSize`, lipgloss styling, `%q` quoting and the exact words of error messages are left out. An error is the case it reports.
- Go distinguishes a nil slice from an empty one (`null` and `[]` in JSON); both are the empty sequence here.
- The order in which Go ranges over a map is not specified. The model chooses some order, and every contract holds for any order.
- `sort.Slice` is not stable. The model sorts with its own insertion sort, so among equal keys the order is the model's own; contracts state only the ordering and the permutation.
- A Go `map[string]bool` used as a set is a Dafny `set`.
- `buildStatsJSON`, `buildSpaceLensJSON` and the report command are not part of this model. They copy fields with no logic of their own.
- `AppScanner.Scan` returns nothing and no error, and the scanners' `Name`, `Description` and `Risk` are constants: these are not modelled beyond the constants the targets carry.
- Directory sizes (`utils.DirSize`) are abstract: each listed entry carries the size the scanner records for it.
- History.HistoryLog.Record: a failing marshal, a failing `MkdirAll` and a failing write are all one `saveOk` parameter.
- Config.LoadAndValidate: when decoding fails it returns the defaults, although yaml.v3 may have filled part of the configuration before failing.
- The terminal UI's other handlers and views are left out, as are the enter, esc and d keys of the duplicate list and the Bubble Tea message plumbing. These are rendering and view switching.
- Tui.Model.DoDupesClean: the progress channel and its `done` count run in a command goroutine and are left out; the tallies it returns are modelled.
- Tui.TruncPath: requires `maxLen >= 3` for a path longer than `maxLen`, where Go would panic with a slice out of range.
- CliOutput.TruncatePath: requires `maxLen >= 3` for a path longer than `maxLen`, where Go would panic with a slice out of range.
- Tui.Model.DupesKey: requires `dupCursor >= 0`; the handlers never make the cursor negative.
- LargeFiles.Scan: follows the source, which swallows a cancelled walk's error and returns the targets found so far with no error.
- Trends.Forecast: the floating-point growth rate `growth / daysDiff` is integer division truncated toward zero (`TruncDiv`), and the projected date is a whole number of days from now.
- Trends.ForecastMeaning: states the forecast in terms of that integer rate, so it is weaker than the floating-point forecast.
- CliRisk.RiskSummary: the int64 sums are unbounded integers, so wrap-around on overflow is not modelled.
- CliGroups.SumSizes: the int64 total is an unbounded integer, so wrap-around is not modelled.
- CliScan.Rollup: the int64 category and total sizes are unbounded integers, so wrap-around is not modelled.
- CliJson.BuildScanJson: the int64 sizes are unbounded integers, so wrap-around is not modelled.
- CliJson.BuildDupesJson: the int64 waste products and sums are unbounded integers, so wrap-around is not modelled.
- CliJson.BuildUninstallJson: the int64 total is an unbounded integer, so wrap-around is not modelled.
- History.HistoryLog.Stats: the int64 totals are unbounded integers, so wrap-around is not modelled.
- ScanCache.Diff: the int64 deltas are unbounded integers, so wrap-around is not modelled.
- Dupes.FindWithProgress: the int64 wasted-bytes product used as the sort key is an unbounded integer.
- Tui.DupesFlatList: the int64 wasted-bytes product of a header is an unbounded integer.
- Tui.CleanSelected: the int64 freed total is an unbounded integer.
- Timestamps and durations on the trends and history stores are integers, and their arithmetic is not checked for int64 overflow.
- LargeFiles.MatchesAge: the file's age `now - modTime` is an unbounded integer, where Go's `time.Since` saturates at the largest and smallest `time.Duration`.
- Config.ParseSize: returns the overflow-checked size (`Config.SizeValue`). For "8388608T" Go wraps the product to the most negative int64 and returns no error, while the model reports `SizeOverflow`. `Config.AsWrittenAgrees` shows that both give the same answer whenever no overflow occurs.
- Config.ResolveSize: uses the overflow-checked size, so a size that overflows gives a warning and keeps the minimum size. Go stores the wrapped negative value as the minimum size without a warning.
- Config.LoadAndValidate: resolves the minimum size with the overflow-checked parse, so it inherits the difference described for `Config.ResolveSize`.
- CliScan.ApplyThreshold: uses the overflow-checked size, so an overflowing threshold is an error. Go filters with the wrapped negative threshold, which keeps every target.
- Strings are sequences of characters standing for bytes. Case mapping and whitespace are ASCII-only (`StrUtil.LowerChar`, `StrUtil.UpperChar`, `StrUtil.IsSpace`, `StrUtil.TrimSpace`), and lengths count characters, not UTF-8 bytes. Go's `strings.ToLower`, `strings.ToUpper` and `strings.TrimSpace` are Unicode-aware, and `len` counts bytes. This affects the app-name matching, the schedule time parse, the configuration key checks, the size, brew and `df` parsing, and path truncation.
- The `scan` command passes its category flags as one `CategoryFilter` value to a `selectedCategories` that takes twelve booleans. The model follows `selectedCategories` as defined, with one flag per category.

## Findings

| source | as written | input that shows it | evidently intended | confidence | as-written member | corrected member |
|---|---|---|---|---|---|---|
| internal/cli/root.go:103-161 | `buildEngine` never calls `SetExcludeFunc`, so the configured exclude patterns (and the ones `scan --exclude` adds) never reach the engine | exclude "~/Downloads/**", home "/Users/u", a scanner that finds "/Users/u/Downloads/a.iso": the file is still reported | the engine filters every target through `IsExcluded` with the configured patterns | high, not executed | CliRoot.ExcludeIgnoredAsWritten | CliRoot.BuildEngineWithExclude |
| internal/config/config.go:226 | `n * ss.mult` wraps in int64 | "8388608T" parses to -9223372036854775808 without an error | a size too large for int64 is rejected | high, not executed | Config.OverflowWrapsNegative | Config.OverflowRejected |
