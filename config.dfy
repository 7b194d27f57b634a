/**
 * The user configuration: defaults, the human-readable size and duration
 * parsers, the exclude-pattern matcher, validation warnings and the
 * detection of unknown keys when a configuration file is loaded.
 *
 * The home directory, the glob matcher (`filepath.Match`), the check that a
 * path exists (`os.Stat`), Go's own `time.ParseDuration` and the YAML
 * decoder are parameters.
 */
module Config {
  import opened Wrappers
  import opened StrUtil
  import opened Folds
  import opened GoTime
  import Schedule

  // ---------------------------------------------------------------------------
  // Data model
  // ---------------------------------------------------------------------------

  datatype LargeFilesConfig = LargeFilesConfig(minSize: int, minSizeStr: string, minAge: string, paths: seq<string>)

  datatype DevToolsConfig = DevToolsConfig(searchPaths: seq<string>, minAge: string)

  /** One switch per scanner. */
  datatype ScannersConfig = ScannersConfig(
    system: bool, browser: bool, xcode: bool, largeFiles: bool, docker: bool,
    node: bool, homebrew: bool, iosSimulators: bool, python: bool, rust: bool,
    golang: bool, jetBrains: bool, maven: bool, gradle: bool, ruby: bool)

  datatype SpaceLensConfig = SpaceLensConfig(defaultPath: string, depth: int)

  datatype ScheduleConfig = ScheduleConfig(enabled: bool, interval: string, time: string, notify: bool, categories: seq<string>)

  datatype Config = Config(
    largeFiles: LargeFilesConfig, devTools: DevToolsConfig, exclude: seq<string>,
    scanners: ScannersConfig, spaceLens: SpaceLensConfig, schedule: ScheduleConfig)

  const MiB: int := 1024 * 1024

  /** The configuration used when no file overrides it. */
  function Default(): Config {
    Config(
      LargeFilesConfig(100 * MiB, "100MB", "90d", ["~/Downloads", "~/Desktop"]),
      DevToolsConfig(["~/Documents", "~/Projects", "~/src", "~/code", "~/Developer"], "30d"),
      [],
      ScannersConfig(true, true, true, true, true, true, true, true, true, true, true, true, true, true, true),
      SpaceLensConfig("/", 2),
      ScheduleConfig(false, "daily", "10:00", true, []))
  }

  // ---------------------------------------------------------------------------
  // Sizes
  // ---------------------------------------------------------------------------

  /** The recognised suffixes with their multipliers, longest forms first. */
  const SizeSuffixes: seq<(string, int)> := [
    ("TB", 0x100_0000_0000), ("GB", 0x4000_0000), ("MB", 0x10_0000), ("KB", 0x400),
    ("T", 0x100_0000_0000), ("G", 0x4000_0000), ("M", 0x10_0000), ("K", 0x400)]

  datatype SizeError = EmptySize | MissingNumber | InvalidSize | NegativeSize | SizeOverflow

  function SizeErrorText(e: SizeError): string {
    match e
    case EmptySize => "empty size string"
    case MissingNumber => "missing numeric value"
    case InvalidSize => "invalid size"
    case NegativeSize => "negative size"
    case SizeOverflow => "size out of range"
  }

  /** The first suffix, from index `k` on, that `upper` ends with. */
  function FirstSuffix(upper: string, k: nat): (r: Option<nat>)
    requires k <= |SizeSuffixes|
    ensures r.Some? ==> k <= r.value < |SizeSuffixes| && HasSuffix(upper, SizeSuffixes[r.value].0)
    ensures r.Some? ==> forall j :: k <= j < r.value ==> !HasSuffix(upper, SizeSuffixes[j].0)
    ensures r.None? ==> forall j :: k <= j < |SizeSuffixes| ==> !HasSuffix(upper, SizeSuffixes[j].0)
    decreases |SizeSuffixes| - k
  {
    if k == |SizeSuffixes| then None
    else if HasSuffix(upper, SizeSuffixes[k].0) then Some(k)
    else FirstSuffix(upper, k + 1)
  }

  /**
   * The number and the multiplier a size string stands for, before they are
   * multiplied: the empty string, a suffix without a number, a number that
   * does not parse and a negative number are errors.
   */
  function SizeParts(s: string): (r: Result<(int, int), SizeError>)
    ensures r.Ok? ==> 0 <= r.value.0 <= MaxInt64 && 1 <= r.value.1
    ensures s == "" ==> r == Err(EmptySize)
  {
    if s == "" then Err(EmptySize) else TrimmedParts(TrimSpace(s))
  }

  /** The parts of a trimmed, non-empty size string: the first matching suffix wins. */
  function TrimmedParts(t: string): (r: Result<(int, int), SizeError>)
    ensures r.Ok? ==> 0 <= r.value.0 <= MaxInt64 && 1 <= r.value.1
  {
    var upper := ToUpper(t);
    match FirstSuffix(upper, 0)
    case Some(k) =>
      var numStr := TrimSuffix(upper, SizeSuffixes[k].0);
      if numStr == "" then Err(MissingNumber) else NumberParts(numStr, SizeSuffixes[k].1)
    case None => NumberParts(t, 1)
  }

  /** A decimal count of units of `mult` bytes; it must parse and not be negative. */
  function NumberParts(numStr: string, mult: int): (r: Result<(int, int), SizeError>)
    requires 1 <= mult
    ensures r.Ok? ==> 0 <= r.value.0 <= MaxInt64 && r.value.1 == mult
  {
    match ParseInt(numStr)
    case Err(_) => Err(InvalidSize)
    case Ok(n) => if n < 0 then Err(NegativeSize) else Ok((n, mult))
  }

  /**
   * `ParseSize` with the int64 product checked: a size whose byte count does
   * not fit in an `int64` is an error rather than a wrapped-around value.
   */
  function SizeValue(s: string): (r: Result<int, SizeError>)
    ensures r.Ok? ==> 0 <= r.value <= MaxInt64
    ensures s == "" ==> r == Err(EmptySize)
  {
    Scaled(SizeParts(s))
  }

  /** The byte count of a number and its multiplier, or an overflow error when it does not fit in an `int64`. */
  function Scaled(p: Result<(int, int), SizeError>): (r: Result<int, SizeError>)
    requires p.Ok? ==> 0 <= p.value.0 && 1 <= p.value.1
    ensures r.Ok? ==> 0 <= r.value <= MaxInt64
    ensures p.Err? ==> r == Err(p.error)
  {
    match p
    case Err(e) => Err(e)
    case Ok((n, mult)) =>
      if n > MaxInt64 / mult then Err(SizeOverflow)
      else
        MulDivBound(n, mult);
        Ok(n * mult)
  }

  /** `ParseSize` as written: the product `n * mult` wraps around in `int64`. */
  function SizeValueAsWritten(s: string): Result<int, SizeError> {
    match SizeParts(s)
    case Err(e) => Err(e)
    case Ok((n, mult)) => Ok(Wrap64(n * mult))
  }

  /**
   * `ParseSize`: trims, upper-cases, tries the suffixes in table order and
   * falls back to a plain byte count.
   */
  method ParseSize(s: string) returns (r: Result<int, SizeError>)
    ensures r == SizeValue(s)
  {
    if s == "" {
      return Err(EmptySize);
    }
    var t := TrimSpace(s);
    var upper := ToUpper(t);
    var k := MatchSuffix(upper);
    if k.Some? {
      MultiplierPositive(k.value);
      var (suffix, mult) := SizeSuffixes[k.value];
      var numStr := TrimSuffix(upper, suffix);
      if numStr == "" {
        return Err(MissingNumber);
      }
      r := ScaleCount(numStr, mult);
      return;
    }
    r := ScaleCount(t, 1);
  }

  lemma MultiplierPositive(k: nat)
    requires k < |SizeSuffixes|
    ensures SizeSuffixes[k].1 >= 1
  {
  }

  /** The suffix loop of `ParseSize`: the index of the first suffix of the table that ends `upper`. */
  method MatchSuffix(upper: string) returns (k: Option<nat>)
    ensures k == FirstSuffix(upper, 0)
  {
    var i := 0;
    while i < |SizeSuffixes|
      invariant 0 <= i <= |SizeSuffixes|
      invariant FirstSuffix(upper, 0) == FirstSuffix(upper, i)
    {
      if HasSuffix(upper, SizeSuffixes[i].0) {
        return Some(i);
      }
      i := i + 1;
    }
    return None;
  }

  /** Parses a count of `mult`-byte units and multiplies it out, refusing a product beyond `int64`. */
  method ScaleCount(numStr: string, mult: int) returns (r: Result<int, SizeError>)
    requires 1 <= mult
    ensures r == Scaled(NumberParts(numStr, mult))
  {
    var n := ParseInt(numStr);
    if n.Err? {
      return Err(InvalidSize);
    }
    if n.value < 0 {
      return Err(NegativeSize);
    }
    if n.value > MaxInt64 / mult {
      return Err(SizeOverflow);
    }
    return Ok(n.value * mult);
  }

  /** Case-insensitive spellings of the suffix at index `k` of the table. */
  predicate SpellsSuffix(u: string, k: nat)
    requires k < |SizeSuffixes|
  {
    ToUpper(u) == SizeSuffixes[k].0
  }

  /**
   * No suffix of the table ends a later one: suffixes of the same length
   * differ in their first letter, and the longer ones end in a letter the
   * shorter ones do not.
   */
  lemma TableShape(j: nat, k: nat)
    requires j < k < |SizeSuffixes|
    ensures |SizeSuffixes[j].0| >= |SizeSuffixes[k].0| >= 1
    ensures |SizeSuffixes[j].0| == |SizeSuffixes[k].0| ==> SizeSuffixes[j].0[0] != SizeSuffixes[k].0[0]
    ensures |SizeSuffixes[j].0| > |SizeSuffixes[k].0| ==>
              SizeSuffixes[j].0[|SizeSuffixes[j].0| - 1] != SizeSuffixes[k].0[|SizeSuffixes[k].0| - 1]
  {
  }

  /** The suffixes are one or two capital letters. */
  lemma SuffixLetters(k: nat)
    requires k < |SizeSuffixes|
    ensures 1 <= |SizeSuffixes[k].0| <= 2
    ensures forall i :: 0 <= i < |SizeSuffixes[k].0| ==> 'A' <= SizeSuffixes[k].0[i] <= 'Z'
  {
  }

  /** Whatever precedes it, suffix `k` is the one the lookup finds. */
  lemma SuffixFoundAfter(x: string, k: nat)
    requires k < |SizeSuffixes|
    ensures FirstSuffix(x + SizeSuffixes[k].0, 0) == Some(k)
  {
    var sk := SizeSuffixes[k].0;
    var up := x + sk;
    assert up[|up| - |sk|..] == sk;
    forall j | 0 <= j < k
      ensures !HasSuffix(up, SizeSuffixes[j].0)
    {
      var sj := SizeSuffixes[j].0;
      TableShape(j, k);
    }
    FirstSuffixFrom(up, 0, k);
  }

  lemma FirstSuffixFrom(upper: string, i: nat, k: nat)
    requires i <= k < |SizeSuffixes|
    requires HasSuffix(upper, SizeSuffixes[k].0)
    requires forall j :: i <= j < k ==> !HasSuffix(upper, SizeSuffixes[j].0)
    ensures FirstSuffix(upper, i) == Some(k)
    decreases k - i
  {
    if i < k {
      FirstSuffixFrom(upper, i + 1, k);
    }
  }

  lemma NoSuffixFrom(upper: string, i: nat)
    requires i <= |SizeSuffixes|
    requires forall j :: i <= j < |SizeSuffixes| ==> !HasSuffix(upper, SizeSuffixes[j].0)
    ensures FirstSuffix(upper, i) == None
    decreases |SizeSuffixes| - i
  {
    if i < |SizeSuffixes| {
      NoSuffixFrom(upper, i + 1);
    }
  }

  /** `x` followed by a spelling of suffix `k` reads, trimmed and upper-cased, as `x` and the suffix. */
  lemma SpelledUpper(x: string, u: string, k: nat)
    requires k < |SizeSuffixes| && SpellsSuffix(u, k)
    requires ToUpper(x) == x
    requires x == [] || !IsSpace(x[0])
    ensures TrimSpace(x + u) == x + u
    ensures ToUpper(x + u) == x + SizeSuffixes[k].0
  {
    SuffixLetters(k);
    assert |u| == |SizeSuffixes[k].0|;
    assert !IsSpace(u[|u| - 1]) by {
      assert ToUpper(u)[|u| - 1] == UpperChar(u[|u| - 1]);
    }
    assert !IsSpace(u[0]) by {
      assert ToUpper(u)[0] == UpperChar(u[0]);
    }
    var s := x + u;
    assert s[|s| - 1] == u[|u| - 1];
    assert !IsSpace(s[0]) by {
      if x == [] { assert s[0] == u[0]; } else { assert s[0] == x[0]; }
    }
    TrimSpaceNoop(s);
    ToUpperAppend(x, u);
  }

  lemma ValueOfParts(s: string)
    ensures SizeParts(s).Err? ==> SizeValue(s) == Err(SizeParts(s).error)
    ensures SizeParts(s).Ok? ==>
              SizeValue(s) == if SizeParts(s).value.0 > MaxInt64 / SizeParts(s).value.1 then Err(SizeOverflow)
                              else Ok(SizeParts(s).value.0 * SizeParts(s).value.1)
  {
  }

  lemma SuffixedParts(n: int, u: string, k: nat)
    requires MinInt64 <= n <= MaxInt64
    requires k < |SizeSuffixes| && SpellsSuffix(u, k)
    ensures SizeParts(Itoa(n) + u) == if n < 0 then Err(NegativeSize) else Ok((n, SizeSuffixes[k].1))
  {
    ItoaChars(n);
    ParseItoa(n);
    SpelledParts(Itoa(n), u, k, n);
  }

  lemma SpelledParts(x: string, u: string, k: nat, n: int)
    requires k < |SizeSuffixes| && SpellsSuffix(u, k)
    requires |x| >= 1 && ToUpper(x) == x && (IsDigit(x[0]) || x[0] == '-')
    requires ParseInt(x) == Ok(n)
    ensures SizeParts(x + u) == if n < 0 then Err(NegativeSize) else Ok((n, SizeSuffixes[k].1))
  {
    SpelledUpper(x, u, k);
    UpperParts(x, u, k, n);
  }

  lemma UpperParts(x: string, u: string, k: nat, n: int)
    requires k < |SizeSuffixes| && x != []
    requires ToUpper(TrimSpace(x + u)) == x + SizeSuffixes[k].0
    requires ParseInt(x) == Ok(n)
    ensures SizeParts(x + u) == if n < 0 then Err(NegativeSize) else Ok((n, SizeSuffixes[k].1))
  {
    SuffixFoundAfter(x, k);
    TrimSuffixAppended(x, k);
    SizePartsSuffixed(x + u, k, n);
  }

  lemma TrimSuffixAppended(x: string, k: nat)
    requires k < |SizeSuffixes|
    ensures TrimSuffix(x + SizeSuffixes[k].0, SizeSuffixes[k].0) == x
  {
    var up := x + SizeSuffixes[k].0;
    assert up[..|up| - |SizeSuffixes[k].0|] == x;
  }

  lemma SizePartsSuffixed(s: string, k: nat, n: int)
    requires s != [] && k < |SizeSuffixes|
    requires FirstSuffix(ToUpper(TrimSpace(s)), 0) == Some(k)
    requires TrimSuffix(ToUpper(TrimSpace(s)), SizeSuffixes[k].0) != ""
    requires ParseInt(TrimSuffix(ToUpper(TrimSpace(s)), SizeSuffixes[k].0)) == Ok(n)
    ensures SizeParts(s) == if n < 0 then Err(NegativeSize) else Ok((n, SizeSuffixes[k].1))
  {
  }

  lemma SizePartsPlain(s: string, n: int)
    requires s != []
    requires FirstSuffix(ToUpper(TrimSpace(s)), 0) == None
    requires ParseInt(TrimSpace(s)) == Ok(n)
    ensures SizeParts(s) == if n < 0 then Err(NegativeSize) else Ok((n, 1))
  {
  }

  /**
   * A number followed by any spelling of a table suffix ("100mb", "100Mb",
   * "100MB") is that many units of the suffix; a negative number is an error,
   * and so is a product that does not fit in an `int64`.
   */
  lemma {:induction false} SuffixedSize(n: int, u: string, k: nat)
    requires MinInt64 <= n <= MaxInt64
    requires k < |SizeSuffixes| && SpellsSuffix(u, k)
    ensures SizeValue(Itoa(n) + u)
            == if n < 0 then Err(NegativeSize)
               else if n > MaxInt64 / SizeSuffixes[k].1 then Err(SizeOverflow)
               else Ok(n * SizeSuffixes[k].1)
  {
    SuffixedParts(n, u, k);
    ValueOfParts(Itoa(n) + u);
  }

  /** A suffix on its own ("MB", "k") is missing its number. */
  lemma {:induction false} SuffixAlone(u: string, k: nat)
    requires k < |SizeSuffixes| && SpellsSuffix(u, k)
    ensures SizeValue(u) == Err(MissingNumber)
  {
    SpelledUpper([], u, k);
    assert [] + u == u;
    SuffixFoundAfter([], k);
    assert [] + SizeSuffixes[k].0 == SizeSuffixes[k].0;
    SuffixLetters(k);
    assert TrimSuffix(SizeSuffixes[k].0, SizeSuffixes[k].0) == "";
  }

  /** A plain integer without a suffix is a byte count; a negative one is an error. */
  lemma {:induction false} PlainSize(n: int)
    requires MinInt64 <= n <= MaxInt64
    ensures SizeValue(Itoa(n)) == if n < 0 then Err(NegativeSize) else Ok(n)
  {
    var x := Itoa(n);
    assert x != [] && IsDigit(x[|x| - 1]) && TrimSpace(x) == x by {
      ItoaChars(n);
      ItoaTrimmed(n);
    }
    assert ParseInt(x) == Ok(n) by {
      ParseItoa(n);
    }
    DigitEndNoSuffix(x);
    PlainValue(x, n);
  }

  lemma PlainValue(x: string, n: int)
    requires n <= MaxInt64
    requires x != [] && TrimSpace(x) == x
    requires ParseInt(x) == Ok(n)
    requires FirstSuffix(ToUpper(x), 0) == None
    ensures SizeValue(x) == if n < 0 then Err(NegativeSize) else Ok(n)
  {
    SizePartsPlain(x, n);
    ValueOfPlain(x, n);
  }

  lemma ValueOfPlain(s: string, n: int)
    requires n <= MaxInt64
    requires SizeParts(s) == if n < 0 then Err(NegativeSize) else Ok((n, 1))
    ensures SizeValue(s) == if n < 0 then Err(NegativeSize) else Ok(n)
  {
  }

  /** Upper-cased, a string that ends in a digit ends in none of the suffixes. */
  lemma DigitEndNoSuffix(x: string)
    requires |x| >= 1 && IsDigit(x[|x| - 1])
    ensures FirstSuffix(ToUpper(x), 0) == None
  {
    var up := ToUpper(x);
    assert IsDigit(up[|up| - 1]);
    forall j | 0 <= j < |SizeSuffixes|
      ensures !HasSuffix(up, SizeSuffixes[j].0)
    {
      SuffixLetters(j);
      var sj := SizeSuffixes[j].0;
      assert up[|up| - 1] != sj[|sj| - 1];
    }
    NoSuffixFrom(up, 0);
  }

  lemma MulDivBound(n: int, m: int)
    requires 0 <= n && 1 <= m && n <= MaxInt64 / m
    ensures n * m <= MaxInt64
  {
    var q := MaxInt64 / m;
    assert q * m <= MaxInt64;
    assert (q - n) * m >= 0;
  }

  /**
   * Wherever the checked parse succeeds or fails for a reason other than
   * overflow, the code as written gives the same answer.
   */
  lemma AsWrittenAgrees(s: string)
    requires SizeValue(s) != Err(SizeOverflow)
    ensures SizeValueAsWritten(s) == SizeValue(s)
  {
    match SizeParts(s)
    case Err(_) =>
    case Ok((n, mult)) =>
      MulDivBound(n, mult);
  }

  lemma Itoa8388608()
    ensures Itoa(8388608) == "8388608"
  {
    assert NatToString(8) == "8";
    assert NatToString(83) == "83";
    assert NatToString(838) == "838";
    assert NatToString(8388) == "8388";
    assert NatToString(83886) == "83886";
    assert NatToString(838860) == "838860";
  }

  /**
   * "8388608T" is 2^23 * 2^40 = 2^63 bytes: the code as written wraps the
   * product to the most negative int64 and returns it as a successful size,
   * although it rejects negative sizes everywhere else.
   */
  lemma OverflowWrapsNegative()
    ensures SizeValueAsWritten("8388608T") == Ok(MinInt64)
  {
    OverflowParts();
    assert 8388608 * 0x100_0000_0000 == 0x8000_0000_0000_0000;
    WrapTwoTo63();
  }

  /** The checked parse rejects the same string. */
  lemma OverflowRejected()
    ensures SizeValue("8388608T") == Err(SizeOverflow)
  {
    OverflowParts();
    ValueOfParts("8388608T");
  }

  lemma WrapTwoTo63()
    ensures Wrap64(0x8000_0000_0000_0000) == MinInt64
  {
  }

  lemma OverflowParts()
    ensures SizeParts("8388608T") == Ok((8388608, 0x100_0000_0000))
  {
    Itoa8388608();
    assert SpellsSuffix("T", 4);
    SuffixedParts(8388608, "T", 4);
    assert Itoa(8388608) + "T" == "8388608T";
  }

  // ---------------------------------------------------------------------------
  // Durations
  // ---------------------------------------------------------------------------

  /**
   * `ParseDuration`: "Nd" is N days (any integer N, in wrapping `int64`
   * arithmetic); anything else goes to Go's `time.ParseDuration` (`goParse`),
   * and what that rejects becomes 90 days.
   */
  function ParseDuration(s: string, goParse: string -> Option<int>): int {
    var t := TrimSpace(s);
    var days := if HasSuffix(t, "d") then ParseInt(TrimSuffix(t, "d")) else Err(ErrSyntax);
    match days
    case Ok(n) => DaysToDuration(n)
    case Err(_) =>
      match goParse(t)
      case Some(d) => d
      case None => 90 * Day
  }

  /** "Nd" is exactly N days whenever that many nanoseconds fit in an `int64`. */
  lemma {:induction false} DurationDays(n: int, goParse: string -> Option<int>)
    requires MinInt64 <= n * Day <= MaxInt64
    ensures ParseDuration(Itoa(n) + "d", goParse) == n * Day
  {
    var s := Itoa(n) + "d";
    DaysSuffixSplits(n);
    DaysInNanoseconds(n);
    ParseItoa(n);
    DurationOfDays(n, goParse, s);
  }

  lemma DurationOfDays(n: int, goParse: string -> Option<int>, s: string)
    requires TrimSpace(s) == s && HasSuffix(s, "d") && ParseInt(TrimSuffix(s, "d")) == Ok(n)
    ensures ParseDuration(s, goParse) == DaysToDuration(n)
  {
  }

  /** The empty string, which Go's parser rejects, falls back to 90 days. */
  lemma DurationEmpty(goParse: string -> Option<int>)
    requires goParse("") == None
    ensures ParseDuration("", goParse) == 90 * Day
  {
    assert TrimSpace("") == "";
  }

  // ---------------------------------------------------------------------------
  // Exclude patterns
  // ---------------------------------------------------------------------------

  /** `~/x` becomes home + "/x" and `~` becomes home, unless home is unknown (""). */
  function ExpandPattern(pattern: string, home: string): string {
    if home != "" && HasPrefix(pattern, "~/") then home + pattern[1..]
    else if pattern == "~" && home != "" then home
    else pattern
  }

  // Whether one exclude pattern matches `path`: a pattern "dir" + "/**"
  // matches `dir` and everything below it; any other pattern is a glob
  // (`glob(pattern, name)`) tried on the full path and on its base name.
  predicate PatternMatches(pattern: string, home: string, glob: (string, string) -> bool, path: string) {
    var p := ExpandPattern(pattern, home);
    if HasSuffix(p, "/**") then
      var prefix := TrimSuffix(p, "/**");
      HasPrefix(path, prefix + "/") || path == prefix
    else
      glob(p, path) || glob(p, Base(path))
  }

  /** `IsExcluded`: some configured pattern matches the path. */
  method IsExcluded(cfg: Config, home: string, glob: (string, string) -> bool, path: string) returns (excluded: bool)
    ensures excluded <==> exists i :: 0 <= i < |cfg.exclude| && PatternMatches(cfg.exclude[i], home, glob, path)
  {
    for i := 0 to |cfg.exclude|
      invariant forall j :: 0 <= j < i ==> !PatternMatches(cfg.exclude[j], home, glob, path)
    {
      var p := ExpandPattern(cfg.exclude[i], home);
      if HasSuffix(p, "/**") {
        var prefix := TrimSuffix(p, "/**");
        if HasPrefix(path, prefix + "/") || path == prefix {
          return true;
        }
        continue;
      }
      if glob(p, path) {
        return true;
      }
      if glob(p, Base(path)) {
        return true;
      }
    }
    return false;
  }

  // The pattern dir + "/**" matches exactly `dir` and the paths below it,
  // whatever the glob matcher does (for a `dir` that does not start with a
  // tilde).
  lemma DirPatternMatches(dir: string, home: string, glob: (string, string) -> bool, path: string)
    requires dir == [] || dir[0] != '~'
    ensures PatternMatches(dir + "/**", home, glob, path) <==> path == dir || HasPrefix(path, dir + "/")
  {
    var pattern := dir + "/**";
    assert !HasPrefix(pattern, "~/") by {
      if dir == [] { assert pattern[0] == '/'; } else { assert pattern[0] == dir[0]; }
    }
    assert pattern != "~";
    assert HasSuffix(pattern, "/**");
    assert TrimSuffix(pattern, "/**") == dir;
  }

  /** A leading "~/" in a pattern stands for the home directory. */
  lemma TildeExpansion(rest: string, home: string, glob: (string, string) -> bool, path: string)
    requires home != ""
    ensures PatternMatches("~/" + rest, home, glob, path) == PatternMatches(home + "/" + rest, "", glob, path)
    ensures PatternMatches("~", home, glob, path) == PatternMatches(home, "", glob, path)
  {
    var pattern := "~/" + rest;
    assert HasPrefix(pattern, "~/");
    assert pattern[1..] == "/" + rest;
    assert home + pattern[1..] == home + "/" + rest;
  }

  // ---------------------------------------------------------------------------
  // Validation
  // ---------------------------------------------------------------------------

  /** A non-fatal configuration issue. */
  datatype Warning = Warning(field: string, message: string, suggestion: string)

  /** `%q` for strings without quotes, backslashes or control characters. */
  function Quote(s: string): string {
    "\"" + s + "\""
  }

  /** The warnings that `check` raises for the elements of `xs`, in order. */
  function Warn(xs: seq<string>, check: string -> Option<Warning>): seq<Warning> {
    if xs == [] then []
    else
      var front := Warn(xs[..|xs| - 1], check);
      match check(xs[|xs| - 1])
      case Some(w) => front + [w]
      case None => front
  }

  /**
   * Every warning comes from some element, and every element that `check`
   * objects to has its warning in the list.
   */
  lemma {:induction false} WarnSpec(xs: seq<string>, check: string -> Option<Warning>)
    ensures |Warn(xs, check)| <= |xs|
    ensures forall k :: 0 <= k < |Warn(xs, check)| ==> exists i :: 0 <= i < |xs| && check(xs[i]) == Some(Warn(xs, check)[k])
    ensures forall i :: 0 <= i < |xs| && check(xs[i]).Some? ==> check(xs[i]).value in Warn(xs, check)
  {
    if xs != [] {
      var p := xs[..|xs| - 1];
      WarnSpec(p, check);
      assert forall i :: 0 <= i < |p| ==> p[i] == xs[i];
    }
  }

  lemma WarnSnoc(xs: seq<string>, x: string, check: string -> Option<Warning>)
    ensures Warn(xs + [x], check) == Warn(xs, check) + (match check(x) case Some(w) => [w] case None => [])
  {
    assert (xs + [x])[..|xs|] == xs;
  }

  /** `filepath.Match(p, "test")` reports a malformed pattern as an error text. */
  type PatternError = string -> Option<string>

  /** Validation expands only "~/" in exclude patterns, by string concatenation. */
  function ValidationPattern(pattern: string, home: Option<string>): string {
    if home.Some? && HasPrefix(pattern, "~/") then home.value + pattern[1..] else pattern
  }

  function ExcludeCheck(home: Option<string>, patternErr: PatternError): string -> Option<Warning> {
    pattern =>
      if HasSuffix(pattern, "/**") then None
      else match patternErr(ValidationPattern(pattern, home))
        case None => None
        case Some(e) =>
          Some(Warning("exclude", "invalid exclude pattern " + Quote(pattern) + ": " + e,
                       "Check glob syntax; avoid unmatched brackets"))
  }

  /** Paths are expanded with `filepath.Join(home, rest)` before `os.Stat`. */
  function StatPath(p: string, home: Option<string>): string {
    match home
    case None => p
    case Some(h) => if HasPrefix(p, "~/") then PathJoin(h, p[2..]) else if p == "~" then h else p
  }

  function PathWarning(field: string, p: string): Warning {
    Warning(field, "path " + Quote(p) + " does not exist", "Remove or correct the path")
  }

  function PathCheck(field: string, home: Option<string>, pathExists: string -> bool): string -> Option<Warning> {
    p => if pathExists(StatPath(p, home)) then None else Some(PathWarning(field, p))
  }

  /** The two halves of "HH:MM", each checked on its own. */
  predicate TimeValid(t: string) {
    var parts := Schedule.SplitColon(t);
    if |parts| != 2 then false
    else
      var hour := ParseInt(parts[0]);
      var minute := ParseInt(parts[1]);
      var hourOk := !(hour.Err? || hour.value < 0 || hour.value > 23);
      var minuteOk := !(minute.Err? || minute.value < 0 || minute.value > 59);
      hourOk && minuteOk
  }

  function TimeWarnings(t: string): seq<Warning> {
    if t != "" && !TimeValid(t) then
      [Warning("schedule.time", "invalid schedule time " + Quote(t) + ": expected HH:MM (0-23:0-59)",
               "Use format HH:MM, e.g. \"10:00\" or \"14:30\"")]
    else []
  }

  function IntervalWarnings(interval: string): seq<Warning> {
    var lower := ToLower(interval);
    if interval != "" && lower != "daily" && lower != "weekly" then
      [Warning("schedule.interval", "invalid schedule interval " + Quote(interval), "Use \"daily\" or \"weekly\"")]
    else []
  }

  const ValidScheduleCategories: set<string> := {
    "system", "browser", "xcode", "large", "docker", "node", "homebrew", "simulator",
    "python", "rust", "go", "jetbrains", "maven", "gradle", "ruby", "dev", "caches", "all"}

  function CategoryCheck(cat: string): Option<Warning> {
    if cat in ValidScheduleCategories then None
    else Some(Warning("schedule.categories", "unknown schedule category " + Quote(cat),
                      "Valid categories: system, browser, xcode, large, docker, node, homebrew, simulator, python, rust, go, jetbrains, maven, gradle, ruby, dev, caches, all"))
  }

  /** Everything `Validate` reports about `cfg`, in its order. */
  function Warnings(cfg: Config, home: Option<string>, patternErr: PatternError, pathExists: string -> bool): seq<Warning> {
    Warn(cfg.exclude, ExcludeCheck(home, patternErr))
    + Warn(cfg.largeFiles.paths, PathCheck("large_files.paths", home, pathExists))
    + Warn(cfg.devTools.searchPaths, PathCheck("dev_tools.search_paths", home, pathExists))
    + TimeWarnings(cfg.schedule.time)
    + IntervalWarnings(cfg.schedule.interval)
    + Warn(cfg.schedule.categories, CategoryCheck)
  }

  /** One validation loop: the warnings for `xs`, appended in order. */
  method CollectWarnings(xs: seq<string>, check: string -> Option<Warning>) returns (ws: seq<Warning>)
    ensures ws == Warn(xs, check)
  {
    ws := [];
    for i := 0 to |xs|
      invariant ws == Warn(xs[..i], check)
    {
      WarnSnoc(xs[..i], xs[i], check);
      assert xs[..i + 1] == xs[..i] + [xs[i]];
      match check(xs[i]) {
        case Some(w) => ws := ws + [w];
        case None =>
      }
    }
    assert xs[..|xs|] == xs;
  }

  /** `Validate`: the exclude, path and schedule checks, in that order. */
  method Validate(cfg: Config, home: Option<string>, patternErr: PatternError, pathExists: string -> bool)
    returns (warnings: seq<Warning>)
    ensures warnings == Warnings(cfg, home, patternErr, pathExists)
  {
    warnings := CollectWarnings(cfg.exclude, ExcludeCheck(home, patternErr));
    var large := CollectWarnings(cfg.largeFiles.paths, PathCheck("large_files.paths", home, pathExists));
    warnings := warnings + large;
    var dev := CollectWarnings(cfg.devTools.searchPaths, PathCheck("dev_tools.search_paths", home, pathExists));
    warnings := warnings + dev;
    warnings := warnings + TimeWarnings(cfg.schedule.time);
    warnings := warnings + IntervalWarnings(cfg.schedule.interval);
    var cats := CollectWarnings(cfg.schedule.categories, CategoryCheck);
    warnings := warnings + cats;
  }

  /**
   * Validation accepts exactly the schedule times the LaunchAgent generator
   * can parse, so a validated configuration never produces an empty plist.
   */
  lemma TimeCheckMatchesSchedule(t: string)
    ensures TimeWarnings(t) == [] <==> t == "" || Schedule.ParseTime(t).Ok?
  {
  }

  /** The interval check ignores case, like the LaunchAgent generator. */
  lemma IntervalCaseInsensitive(interval: string)
    ensures IntervalWarnings(ToUpper(interval)) == [] <==> IntervalWarnings(interval) == []
  {
    Schedule.LowerUpper(interval);
  }

  /** A path is reported exactly when its expanded form does not exist. */
  lemma PathWarned(field: string, paths: seq<string>, home: Option<string>, pathExists: string -> bool, i: nat)
    requires i < |paths|
    ensures !pathExists(StatPath(paths[i], home)) <==> PathWarning(field, paths[i]) in Warn(paths, PathCheck(field, home, pathExists))
  {
    var check := PathCheck(field, home, pathExists);
    var w := PathWarning(field, paths[i]);
    WarnSpec(paths, check);
    if w in Warn(paths, check) {
      var j :| 0 <= j < |paths| && check(paths[j]) == Some(w);
      PathWarningNames(field, paths[j], paths[i]);
    }
  }

  /** The warning text names the path: different paths give different warnings. */
  lemma PathWarningNames(field: string, p: string, q: string)
    requires PathWarning(field, p) == PathWarning(field, q)
    ensures p == q
  {
    var mp := PathWarning(field, p).message;
    var mq := PathWarning(field, q).message;
    assert |p| == |q|;
    assert mp[6..6 + |p|] == p;
    assert mq[6..6 + |q|] == q;
  }

  /** The default schedule settings pass validation. */
  lemma DefaultScheduleValid()
    ensures TimeWarnings("10:00") == [] && IntervalWarnings("daily") == []
  {
    TenOClock("10:00");
    TimeCheckMatchesSchedule("10:00");
    assert ToLower("daily") == "daily";
  }

  lemma TenOClock(t: string)
    requires t == "10:00"
    ensures Schedule.ParseTime(t) == Ok((10, 0))
  {
    assert Schedule.Pad2(10) == "10" by { assert DigitChar(1) == '1' && DigitChar(0) == '0'; }
    assert Schedule.Pad2(0) == "00" by { assert DigitChar(0) == '0'; }
    Schedule.ParseTimePadded(10, 0);
    assert Schedule.Pad2(10) + ":" + Schedule.Pad2(0) == t;
  }

  /**
   * The default configuration raises no exclude or schedule warning: only its
   * search paths can be reported, when they do not exist.
   */
  lemma DefaultWarnings(home: Option<string>, patternErr: PatternError, pathExists: string -> bool)
    ensures Warnings(Default(), home, patternErr, pathExists)
            == Warn(Default().largeFiles.paths, PathCheck("large_files.paths", home, pathExists))
               + Warn(Default().devTools.searchPaths, PathCheck("dev_tools.search_paths", home, pathExists))
  {
    DefaultScheduleValid();
    OnlyPathWarnings(Default(), home, patternErr, pathExists);
  }

  lemma OnlyPathWarnings(cfg: Config, home: Option<string>, patternErr: PatternError, pathExists: string -> bool)
    requires cfg.exclude == [] && cfg.schedule.categories == []
    requires TimeWarnings(cfg.schedule.time) == [] && IntervalWarnings(cfg.schedule.interval) == []
    ensures Warnings(cfg, home, patternErr, pathExists)
            == Warn(cfg.largeFiles.paths, PathCheck("large_files.paths", home, pathExists))
               + Warn(cfg.devTools.searchPaths, PathCheck("dev_tools.search_paths", home, pathExists))
  {
    DropEmpty(Warn(cfg.exclude, ExcludeCheck(home, patternErr)),
              Warn(cfg.largeFiles.paths, PathCheck("large_files.paths", home, pathExists)),
              Warn(cfg.devTools.searchPaths, PathCheck("dev_tools.search_paths", home, pathExists)),
              TimeWarnings(cfg.schedule.time), IntervalWarnings(cfg.schedule.interval),
              Warn(cfg.schedule.categories, CategoryCheck));
  }

  lemma DropEmpty(e: seq<Warning>, a: seq<Warning>, b: seq<Warning>, t: seq<Warning>, i: seq<Warning>, c: seq<Warning>)
    requires e == [] && t == [] && i == [] && c == []
    ensures e + a + b + t + i + c == a + b
  {
  }

  /** "100MB" is a hundred mebibytes. */
  lemma HundredMegabytes(s: string)
    requires s == "100MB"
    ensures SizeValue(s) == Ok(100 * MiB)
  {
    assert Itoa(100) == "100" by {
      assert NatToString(10) == "10";
    }
    assert SpellsSuffix("MB", 2);
    SuffixedSize(100, "MB", 2);
    assert Itoa(100) + "MB" == s;
  }

  lemma NinetyDays(s: string, goParse: string -> Option<int>)
    requires s == "90d"
    ensures ParseDuration(s, goParse) == 90 * Day
  {
    Spelled(90, "9", s);
    DurationDays(90, goParse);
  }

  lemma ThirtyDays(s: string, goParse: string -> Option<int>)
    requires s == "30d"
    ensures ParseDuration(s, goParse) == 30 * Day
  {
    Spelled(30, "3", s);
    DurationDays(30, goParse);
  }

  /** A two-digit count of days ending in 0, spelled out. */
  lemma Spelled(n: nat, tens: string, s: string)
    requires 10 <= n < 100 && n % 10 == 0 && tens == NatToString(n / 10) && s == tens + "0d"
    ensures s == Itoa(n) + "d"
  {
    assert NatToString(n) == NatToString(n / 10) + "0";
  }

  /** The default minimum size and ages agree with their string forms. */
  lemma DefaultsConsistent(goParse: string -> Option<int>)
    ensures SizeValue(Default().largeFiles.minSizeStr) == Ok(Default().largeFiles.minSize)
    ensures ParseDuration(Default().largeFiles.minAge, goParse) == 90 * Day
    ensures ParseDuration(Default().devTools.minAge, goParse) == 30 * Day
  {
    HundredMegabytes(Default().largeFiles.minSizeStr);
    NinetyDays(Default().largeFiles.minAge, goParse);
    ThirtyDays(Default().devTools.minAge, goParse);
  }

  // ---------------------------------------------------------------------------
  // Loading
  // ---------------------------------------------------------------------------

  const KnownTopLevelKeys: set<string> := {"large_files", "dev_tools", "exclude", "scanners", "spacelens", "schedule"}

  const KnownScannerKeys: set<string> := {
    "system", "browser", "xcode", "large_files", "docker", "node", "homebrew", "ios_simulators",
    "python", "rust", "go", "jetbrains", "maven", "gradle", "ruby"}

  /**
   * What the YAML decoder makes of a file: the configuration with the file's
   * values over the defaults, the top-level keys of the file read as a
   * generic map (None when that second decode fails) and the keys under
   * "scanners" (None when absent or not a map).
   */
  datatype Document = Document(decoded: Config, topKeys: Option<set<string>>, scannerKeys: Option<set<string>>)

  /**
   * The keys of `keys` that are not `known`, each once, in the order a map
   * iteration happens to visit them.
   */
  method UnknownKeys(keys: set<string>, known: set<string>) returns (order: seq<string>)
    ensures forall i :: 0 <= i < |order| ==> order[i] in keys && order[i] !in known
    ensures forall k :: k in keys && k !in known ==> k in order
    ensures Distinct(order)
  {
    order := [];
    var rest := keys;
    while rest != {}
      invariant rest <= keys
      invariant forall i :: 0 <= i < |order| ==> order[i] in keys - rest && order[i] !in known
      invariant forall k :: k in keys - rest && k !in known ==> k in order
      invariant Distinct(order)
      decreases rest
    {
      ghost var some := Pick(rest);
      var key :| key in rest;
      if key !in known {
        order := order + [key];
      }
      rest := rest - {key};
    }
  }

  function UnknownKeyWarning(key: string): Warning {
    Warning(key, "unknown config key " + Quote(key),
            "Check spelling; valid keys: large_files, dev_tools, exclude, scanners, spacelens, schedule")
  }

  function UnknownScannerWarning(key: string): Warning {
    Warning("scanners." + key, "unknown scanner " + Quote(key),
            "Valid scanners: system, browser, xcode, large_files, docker, node, homebrew, ios_simulators, python, rust, go, jetbrains, maven, gradle, ruby")
  }

  /** The configuration with `MinSize` taken from `MinSizeStr` when that parses. */
  function ResolveMinSize(cfg: Config): Config {
    if cfg.largeFiles.minSizeStr != "" && SizeValue(cfg.largeFiles.minSizeStr).Ok? then
      cfg.(largeFiles := cfg.largeFiles.(minSize := SizeValue(cfg.largeFiles.minSizeStr).value))
    else cfg
  }

  function MinSizeWarning(str: string, e: SizeError): Warning {
    Warning("large_files.min_size", "invalid min_size " + Quote(str) + ": " + SizeErrorText(e),
            "Use a size string like \"100MB\" or \"1GB\"")
  }

  function MinSizeWarnings(cfg: Config): seq<Warning> {
    var str := cfg.largeFiles.minSizeStr;
    if str != "" && SizeValue(str).Err? then [MinSizeWarning(str, SizeValue(str).error)] else []
  }

  /** The `min_size` step of loading: resolve the size or warn about it. */
  method ResolveSize(decoded: Config) returns (cfg: Config, warnings: seq<Warning>)
    ensures cfg == ResolveMinSize(decoded)
    ensures warnings == MinSizeWarnings(decoded)
  {
    cfg, warnings := decoded, [];
    var str := decoded.largeFiles.minSizeStr;
    if str != "" {
      var size := ParseSize(str);
      match size {
        case Err(e) =>
          warnings := [MinSizeWarning(str, e)];
        case Ok(v) =>
          cfg := decoded.(largeFiles := decoded.largeFiles.(minSize := v));
      }
    }
  }

  /** The unknown-key step of loading: top-level keys, then keys under "scanners". */
  method KeyWarnings(doc: Document) returns (warnings: seq<Warning>, ghost topOrder: seq<string>, ghost scannerOrder: seq<string>)
    ensures warnings == Map(topOrder, UnknownKeyWarning) + Map(scannerOrder, UnknownScannerWarning)
    ensures forall k :: (doc.topKeys.Some? && k in doc.topKeys.value && k !in KnownTopLevelKeys) <==> k in topOrder
    ensures Distinct(topOrder)
    ensures forall k :: (doc.topKeys.Some? && "scanners" in doc.topKeys.value && doc.scannerKeys.Some?
                         && k in doc.scannerKeys.value && k !in KnownScannerKeys) <==> k in scannerOrder
    ensures Distinct(scannerOrder)
  {
    warnings, topOrder, scannerOrder := [], [], [];
    if doc.topKeys.Some? {
      var top := UnknownKeys(doc.topKeys.value, KnownTopLevelKeys);
      topOrder := top;
      warnings := Map(top, UnknownKeyWarning);
      if "scanners" in doc.topKeys.value && doc.scannerKeys.Some? {
        var sc := UnknownKeys(doc.scannerKeys.value, KnownScannerKeys);
        scannerOrder := sc;
        warnings := warnings + Map(sc, UnknownScannerWarning);
      }
    }
  }

  /**
   * `LoadAndValidate`: a file that does not decode gives the defaults and one
   * warning; otherwise the minimum size is resolved, unknown top-level and
   * scanner keys are reported, and the validation warnings follow.
   */
  method LoadAndValidate(parsed: Result<Document, string>, home: Option<string>, patternErr: PatternError,
                         pathExists: string -> bool)
    returns (cfg: Config, warnings: seq<Warning>, ghost topOrder: seq<string>, ghost scannerOrder: seq<string>)
    ensures parsed.Err? ==> cfg == Default() && warnings == [Warning("", "failed to parse config: " + parsed.error, "")]
    ensures parsed.Ok? ==> cfg == ResolveMinSize(parsed.value.decoded)
    ensures parsed.Ok? ==>
              warnings == MinSizeWarnings(parsed.value.decoded) + Map(topOrder, UnknownKeyWarning)
                          + Map(scannerOrder, UnknownScannerWarning) + Warnings(cfg, home, patternErr, pathExists)
    ensures forall k :: (parsed.Ok? && parsed.value.topKeys.Some? && k in parsed.value.topKeys.value
                         && k !in KnownTopLevelKeys) <==> k in topOrder
    ensures Distinct(topOrder)
    ensures forall k :: (parsed.Ok? && parsed.value.topKeys.Some? && "scanners" in parsed.value.topKeys.value
                         && parsed.value.scannerKeys.Some? && k in parsed.value.scannerKeys.value
                         && k !in KnownScannerKeys) <==> k in scannerOrder
    ensures Distinct(scannerOrder)
  {
    if parsed.Err? {
      return Default(), [Warning("", "failed to parse config: " + parsed.error, "")], [], [];
    }
    var sizeWarnings, keyWarnings, validation;
    cfg, sizeWarnings := ResolveSize(parsed.value.decoded);
    keyWarnings, topOrder, scannerOrder := KeyWarnings(parsed.value);
    validation := Validate(cfg, home, patternErr, pathExists);
    warnings := sizeWarnings + keyWarnings + validation;
    Regrouped(sizeWarnings, Map(topOrder, UnknownKeyWarning), Map(scannerOrder, UnknownScannerWarning), validation);
  }

  lemma Regrouped<T>(a: seq<T>, b: seq<T>, c: seq<T>, d: seq<T>)
    ensures a + (b + c) + d == a + b + c + d
  {
  }
}
