/**
 * Storage trends: one disk-usage snapshot parsed from `df -k /`, a snapshot
 * store that keeps the most recent year, the window of snapshots a trend
 * report looks at, and the integer side of the fill-up forecast.
 *
 * The `df` output, the clock (`now`, in nanoseconds), the RFC 3339
 * timestamp parser and Go's `time.ParseDuration` are parameters; the store's
 * file is a field whose value says whether it is missing, unreadable or
 * holds a list of snapshots.
 */
module Trends {
  import opened Wrappers
  import opened StrUtil
  import opened Folds
  import opened GoTime

  // ---------------------------------------------------------------------------
  // Snapshots from `df -k /`
  // ---------------------------------------------------------------------------

  /** Disk usage at one moment, in bytes. */
  datatype StorageSnapshot = StorageSnapshot(timestamp: string, total: int, used: int, available: int)

  datatype DfError = TooFewLines | TooFewFields | BadTotal | BadUsed | BadAvailable

  /** Kilobyte blocks to bytes, wrapping in `int64` like the Go product. */
  function KiB(n: int): int {
    Wrap64(n * 1024)
  }

  /**
   * `parseDF`: the second line of the trimmed output holds the file system,
   * the total, used and available 1024-byte blocks, and possibly more.
   */
  function ParseDF(output: string, now: string): (r: Result<StorageSnapshot, DfError>)
    ensures r.Ok? ==> r.value.timestamp == now
    ensures '\n' !in TrimSpace(output) ==> r == Err(TooFewLines)
  {
    var lines := Split(TrimSpace(output), '\n');
    if |lines| < 2 then Err(TooFewLines)
    else
      var fields := Fields(lines[1]);
      if |fields| < 4 then Err(TooFewFields)
      else
        match ParseInt(fields[1])
        case Err(_) => Err(BadTotal)
        case Ok(totalKB) =>
          match ParseInt(fields[2])
          case Err(_) => Err(BadUsed)
          case Ok(usedKB) =>
            match ParseInt(fields[3])
            case Err(_) => Err(BadAvailable)
            case Ok(availKB) => Ok(StorageSnapshot(now, KiB(totalKB), KiB(usedKB), KiB(availKB)))
  }

  /** The data line `df` prints for a file system with the given block counts. */
  function DfLine(device: string, totalKB: int, usedKB: int, availKB: int): string {
    device + " " + (Itoa(totalKB) + " " + (Itoa(usedKB) + " " + Itoa(availKB)))
  }

  /**
   * A header line followed by a data line parses to the block counts in
   * bytes, whenever those fit in an `int64`.
   */
  lemma {:induction false} ParseDFDataLine(header: string, device: string, totalKB: int, usedKB: int, availKB: int, now: string)
    requires header != [] && !IsSpace(header[0]) && '\n' !in header
    requires device != [] && NoSpace(device) && '\n' !in device
    requires MinInt64 <= totalKB * 1024 <= MaxInt64
    requires MinInt64 <= usedKB * 1024 <= MaxInt64
    requires MinInt64 <= availKB * 1024 <= MaxInt64
    ensures ParseDF(header + "\n" + DfLine(device, totalKB, usedKB, availKB), now)
            == Ok(StorageSnapshot(now, totalKB * 1024, usedKB * 1024, availKB * 1024))
  {
    DfLineFields(device, totalKB, usedKB, availKB);
    ParseDFLine(header, DfLine(device, totalKB, usedKB, availKB), now, device, totalKB, usedKB, availKB);
  }

  lemma ParseDFLine(header: string, line: string, now: string, device: string, t: int, u: int, a: int)
    requires header != [] && !IsSpace(header[0]) && '\n' !in header
    requires line != [] && IsDigit(line[|line| - 1]) && '\n' !in line
    requires Fields(line) == [device, Itoa(t), Itoa(u), Itoa(a)]
    requires MinInt64 <= t * 1024 <= MaxInt64 && MinInt64 <= u * 1024 <= MaxInt64 && MinInt64 <= a * 1024 <= MaxInt64
    ensures ParseDF(header + "\n" + line, now) == Ok(StorageSnapshot(now, t * 1024, u * 1024, a * 1024))
  {
    var output := header + "\n" + line;
    assert Split(TrimSpace(output), '\n') == [header, line] by {
      DfOutputLines(header, line);
    }
    var fields := [device, Itoa(t), Itoa(u), Itoa(a)];
    assert ParseInt(fields[1]) == Ok(t) by { ParseItoa(t); }
    assert ParseInt(fields[2]) == Ok(u) by { ParseItoa(u); }
    assert ParseInt(fields[3]) == Ok(a) by { ParseItoa(a); }
    ParseDFFields(output, now, [header, line], fields, t, u, a);
  }

  lemma ParseDFFields(output: string, now: string, lines: seq<string>, fields: seq<string>, t: int, u: int, a: int)
    requires Split(TrimSpace(output), '\n') == lines && |lines| >= 2
    requires Fields(lines[1]) == fields && |fields| == 4
    requires ParseInt(fields[1]) == Ok(t) && ParseInt(fields[2]) == Ok(u) && ParseInt(fields[3]) == Ok(a)
    requires MinInt64 <= t * 1024 <= MaxInt64 && MinInt64 <= u * 1024 <= MaxInt64 && MinInt64 <= a * 1024 <= MaxInt64
    ensures ParseDF(output, now) == Ok(StorageSnapshot(now, t * 1024, u * 1024, a * 1024))
  {
  }

  /** The output is already trimmed and splits into the header and the data line. */
  lemma DfOutputLines(header: string, line: string)
    requires header != [] && !IsSpace(header[0]) && '\n' !in header
    requires line != [] && IsDigit(line[|line| - 1]) && '\n' !in line
    ensures TrimSpace(header + "\n" + line) == header + "\n" + line
    ensures Split(TrimSpace(header + "\n" + line), '\n') == [header, line]
  {
    var s := header + "\n" + line;
    assert s[0] == header[0];
    assert s[|s| - 1] == line[|line| - 1];
    TrimSpaceNoop(s);
    assert s == header + ['\n'] + line;
    SplitPair(header, '\n', line);
  }

  lemma ItoaWord(n: int)
    ensures Itoa(n) != [] && NoSpace(Itoa(n)) && '\n' !in Itoa(n) && IsDigit(Itoa(n)[|Itoa(n)| - 1])
  {
    ItoaChars(n);
    var s := Itoa(n);
    assert forall i :: 0 <= i < |s| ==> s[i] != '\n';
  }

  /** The data line has the device and the three counts as its fields. */
  lemma DfLineFields(device: string, t: int, u: int, a: int)
    requires device != [] && NoSpace(device) && '\n' !in device
    ensures Fields(DfLine(device, t, u, a)) == [device, Itoa(t), Itoa(u), Itoa(a)]
    ensures DfLine(device, t, u, a) != [] && '\n' !in DfLine(device, t, u, a)
    ensures IsDigit(DfLine(device, t, u, a)[|DfLine(device, t, u, a)| - 1])
  {
    ItoaWord(t);
    ItoaWord(u);
    ItoaWord(a);
    WordsFields(device, Itoa(t), Itoa(u), Itoa(a));
  }

  lemma WordsFields(w0: string, w1: string, w2: string, w3: string)
    requires w0 != [] && NoSpace(w0) && '\n' !in w0
    requires w1 != [] && NoSpace(w1) && '\n' !in w1
    requires w2 != [] && NoSpace(w2) && '\n' !in w2
    requires w3 != [] && NoSpace(w3) && '\n' !in w3 && IsDigit(w3[|w3| - 1])
    ensures var line := w0 + " " + (w1 + " " + (w2 + " " + w3));
            Fields(line) == [w0, w1, w2, w3] && line != [] && '\n' !in line && IsDigit(line[|line| - 1])
  {
    var rest2 := w2 + " " + w3;
    var rest1 := w1 + " " + rest2;
    FieldsSingle(w3);
    FieldsTwo(w2, w3);
    FieldsThree(w1, rest2, w2, w3);
    FieldsFour(w0, rest1, w1, w2, w3);
    JoinLine(w2, w3);
    JoinLine(w1, rest2);
    JoinLine(w0, rest1);
  }

  lemma FieldsTwo(w2: string, w3: string)
    requires w2 != [] && NoSpace(w2) && Fields(w3) == [w3]
    ensures Fields(w2 + " " + w3) == [w2, w3]
  {
    FieldsPush(w2, w3, [w3]);
    assert [w2] + [w3] == [w2, w3];
  }

  lemma FieldsThree(w1: string, rest: string, w2: string, w3: string)
    requires w1 != [] && NoSpace(w1) && Fields(rest) == [w2, w3]
    ensures Fields(w1 + " " + rest) == [w1, w2, w3]
  {
    FieldsPush(w1, rest, [w2, w3]);
    assert [w1] + [w2, w3] == [w1, w2, w3];
  }

  lemma FieldsFour(w0: string, rest: string, w1: string, w2: string, w3: string)
    requires w0 != [] && NoSpace(w0) && Fields(rest) == [w1, w2, w3]
    ensures Fields(w0 + " " + rest) == [w0, w1, w2, w3]
  {
    FieldsPush(w0, rest, [w1, w2, w3]);
    ConsFour(w0, w1, w2, w3);
  }

  lemma ConsFour<T>(a: T, b: T, c: T, d: T)
    ensures [a] + [b, c, d] == [a, b, c, d]
  {
    var l := [a] + [b, c, d];
    assert |l| == 4 && l[0] == a && l[1] == b && l[2] == c && l[3] == d;
  }

  lemma FieldsPush(w: string, rest: string, fs: seq<string>)
    requires w != [] && NoSpace(w) && Fields(rest) == fs
    ensures Fields(w + " " + rest) == [w] + fs
  {
    FieldsWord(w, rest);
  }

  lemma JoinLine(w: string, rest: string)
    requires '\n' !in w && rest != [] && '\n' !in rest && IsDigit(rest[|rest| - 1])
    ensures var line := w + " " + rest; line != [] && '\n' !in line && IsDigit(line[|line| - 1])
  {
    var line := w + " " + rest;
    assert line[|line| - 1] == rest[|rest| - 1];
  }

  /** A data line with fewer than four fields is rejected before any number is read. */
  lemma ShortDataLine(header: string, line: string, now: string)
    requires header != [] && !IsSpace(header[0]) && '\n' !in header
    requires line != [] && IsDigit(line[|line| - 1]) && '\n' !in line
    requires |Fields(line)| < 4
    ensures ParseDF(header + "\n" + line, now) == Err(TooFewFields)
  {
    DfOutputLines(header, line);
  }

  // ---------------------------------------------------------------------------
  // Durations
  // ---------------------------------------------------------------------------

  datatype DurationError = EmptyDuration | BadDayCount | NegativeDuration | BadDuration

  /**
   * `ParseDuration`: "Nd" is N days for N >= 0; anything else must be
   * accepted by Go's parser (`goParse`).
   */
  function ParseDuration(s: string, goParse: string -> Option<int>): (r: Result<int, DurationError>)
    ensures TrimSpace(s) == "" ==> r == Err(EmptyDuration)
  {
    var t := TrimSpace(s);
    if t == "" then Err(EmptyDuration)
    else if HasSuffix(t, "d") then
      match ParseInt(TrimSuffix(t, "d"))
      case Err(_) => Err(BadDayCount)
      case Ok(days) => if days < 0 then Err(NegativeDuration) else Ok(DaysToDuration(days))
    else
      match goParse(t)
      case None => Err(BadDuration)
      case Some(d) => Ok(d)
  }

  lemma DurationOfDays(s: string, n: int, goParse: string -> Option<int>)
    requires TrimSpace(s) == s && s != "" && HasSuffix(s, "d") && ParseInt(TrimSuffix(s, "d")) == Ok(n)
    ensures ParseDuration(s, goParse) == if n < 0 then Err(NegativeDuration) else Ok(DaysToDuration(n))
  {
  }

  /**
   * "Nd" is N days for every N >= 0 whose nanoseconds fit in an `int64`, and
   * an error for every N < 0, whatever Go's parser does.
   */
  lemma {:induction false} DaysDuration(n: int, goParse: string -> Option<int>)
    requires MinInt64 <= n * Day <= MaxInt64
    ensures ParseDuration(Itoa(n) + "d", goParse) == if n < 0 then Err(NegativeDuration) else Ok(n * Day)
  {
    DaysSuffixSplits(n);
    DaysInNanoseconds(n);
    ParseItoa(n);
    DaysDurationOf(Itoa(n), n, goParse);
  }

  lemma DaysDurationOf(x: string, n: int, goParse: string -> Option<int>)
    requires var s := x + "d"; TrimSpace(s) == s && HasSuffix(s, "d") && TrimSuffix(s, "d") == x
    requires ParseInt(x) == Ok(n) && DaysToDuration(n) == n * Day
    ensures ParseDuration(x + "d", goParse) == if n < 0 then Err(NegativeDuration) else Ok(n * Day)
  {
    DurationOfDays(x + "d", n, goParse);
  }

  // ---------------------------------------------------------------------------
  // The snapshot store
  // ---------------------------------------------------------------------------

  /** At most a year of daily snapshots is kept. */
  const MaxEntries: nat := 365

  /** What the store's file holds. */
  datatype StoreFile = Missing | Unreadable | Saved(snapshots: seq<StorageSnapshot>)

  /** A load that fails for any reason starts from an empty list. */
  function Loaded(f: StoreFile): seq<StorageSnapshot> {
    if f.Saved? then f.snapshots else []
  }

  /** The most recent `MaxEntries` snapshots. */
  function Retain(xs: seq<StorageSnapshot>): seq<StorageSnapshot> {
    if |xs| > MaxEntries then xs[|xs| - MaxEntries..] else xs
  }

  /**
   * Appending keeps the last min(n + 1, 365) snapshots of the old list
   * followed by the new one, with the new one last.
   */
  lemma RetainAppend(xs: seq<StorageSnapshot>, snap: StorageSnapshot)
    ensures var r := Retain(xs + [snap]);
            |r| == (if |xs| + 1 < MaxEntries then |xs| + 1 else MaxEntries)
            && r == (xs + [snap])[|xs| + 1 - |r|..]
            && r[|r| - 1] == snap
  {
  }

  /** A list that already fits is kept whole. */
  lemma RetainShort(xs: seq<StorageSnapshot>, snap: StorageSnapshot)
    requires |xs| < MaxEntries
    ensures Retain(xs + [snap]) == xs + [snap]
  {
  }

  datatype StoreError = SnapshotFailed(cause: DfError) | SaveFailed

  datatype TrendsError = LoadFailed | InvalidDuration(cause: DurationError)

  /** Whether a snapshot's timestamp parses and is not before `cutoff`. */
  predicate InWindow(snap: StorageSnapshot, cutoff: int, parseTime: string -> Option<int>) {
    parseTime(snap.timestamp).Some? && parseTime(snap.timestamp).value >= cutoff
  }

  function WindowKey(cutoff: int, parseTime: string -> Option<int>): StorageSnapshot -> bool {
    snap => InWindow(snap, cutoff, parseTime)
  }

  /** The snapshots inside the window, in stored order. */
  function Window(xs: seq<StorageSnapshot>, cutoff: int, parseTime: string -> Option<int>): seq<StorageSnapshot> {
    Select(xs, WindowKey(cutoff, parseTime), true)
  }

  /**
   * The window holds exactly the stored snapshots whose timestamp parses and
   * is not before the cutoff, in their stored order.
   */
  lemma WindowMembers(xs: seq<StorageSnapshot>, cutoff: int, parseTime: string -> Option<int>, snap: StorageSnapshot)
    ensures snap in Window(xs, cutoff, parseTime) <==> snap in xs && InWindow(snap, cutoff, parseTime)
    ensures IsSubseq(Window(xs, cutoff, parseTime), xs)
  {
    SelectIsSubseq(xs, WindowKey(cutoff, parseTime), true);
    if snap in xs && InWindow(snap, cutoff, parseTime) {
      var i :| 0 <= i < |xs| && xs[i] == snap;
      assert WindowKey(cutoff, parseTime)(xs[i]) == true;
    }
  }

  /** The loop of `GetTrends`: keep the snapshots inside the window. */
  method InWindowOf(snapshots: seq<StorageSnapshot>, cutoff: int, parseTime: string -> Option<int>)
    returns (filtered: seq<StorageSnapshot>)
    ensures filtered == Window(snapshots, cutoff, parseTime)
  {
    filtered := [];
    for i := 0 to |snapshots|
      invariant filtered == Window(snapshots[..i], cutoff, parseTime)
    {
      SelectSnoc(snapshots[..i], snapshots[i], WindowKey(cutoff, parseTime), true);
      assert snapshots[..i + 1] == snapshots[..i] + [snapshots[i]];
      var t := parseTime(snapshots[i].timestamp);
      if t.None? {
        continue;
      }
      if t.value >= cutoff {
        filtered := filtered + [snapshots[i]];
      }
    }
    assert snapshots[..|snapshots|] == snapshots;
  }

  /** The snapshot history on disk. */
  class Store {
    var file: StoreFile

    constructor(file: StoreFile)
      ensures this.file == file
    {
      this.file := file;
    }

    /**
     * `append`: load (or start empty), append, keep the last year and save.
     * A failed save leaves the file as it was.
     */
    method Append(snap: StorageSnapshot, saveOk: bool) returns (r: Result<StorageSnapshot, StoreError>)
      modifies this
      ensures saveOk ==> r == Ok(snap) && file == Saved(Retain(Loaded(old(file)) + [snap]))
      ensures !saveOk ==> r == Err(SaveFailed) && file == old(file)
    {
      var snapshots := Loaded(file);
      snapshots := snapshots + [snap];
      if |snapshots| > MaxEntries {
        snapshots := snapshots[|snapshots| - MaxEntries..];
      }
      if !saveOk {
        return Err(SaveFailed);
      }
      file := Saved(snapshots);
      return Ok(snap);
    }

    /** `Record`: a snapshot that cannot be taken changes nothing. */
    method Record(taken: Result<StorageSnapshot, DfError>, saveOk: bool) returns (r: Result<StorageSnapshot, StoreError>)
      modifies this
      ensures taken.Err? ==> r == Err(SnapshotFailed(taken.error)) && file == old(file)
      ensures taken.Ok? && saveOk ==> r == Ok(taken.value) && file == Saved(Retain(Loaded(old(file)) + [taken.value]))
      ensures taken.Ok? && !saveOk ==> r == Err(SaveFailed) && file == old(file)
    {
      if taken.Err? {
        return Err(SnapshotFailed(taken.error));
      }
      r := Append(taken.value, saveOk);
    }

    /**
     * `GetTrends`: no file means no snapshots; an unreadable file or a bad
     * duration is an error; otherwise the snapshots from `now - duration` on.
     */
    method GetTrends(lastDuration: string, now: int, parseTime: string -> Option<int>, goParse: string -> Option<int>)
      returns (r: Result<seq<StorageSnapshot>, TrendsError>)
      ensures file.Missing? ==> r == Ok([])
      ensures file.Unreadable? ==> r == Err(LoadFailed)
      ensures file.Saved? && ParseDuration(lastDuration, goParse).Err? ==>
                r == Err(InvalidDuration(ParseDuration(lastDuration, goParse).error))
      ensures file.Saved? && ParseDuration(lastDuration, goParse).Ok? ==>
                r == Ok(Window(file.snapshots, now - ParseDuration(lastDuration, goParse).value, parseTime))
    {
      if file.Missing? {
        return Ok([]);
      }
      if file.Unreadable? {
        return Err(LoadFailed);
      }
      var snapshots := file.snapshots;
      var dur := ParseDuration(lastDuration, goParse);
      if dur.Err? {
        return Err(InvalidDuration(dur.error));
      }
      var filtered := InWindowOf(snapshots, now - dur.value, parseTime);
      return Ok(filtered);
    }
  }

  // ---------------------------------------------------------------------------
  // Forecast
  // ---------------------------------------------------------------------------

  datatype Confidence = Low | Medium | High

  function ConfidenceName(c: Confidence): string {
    match c
    case Low => "low"
    case Medium => "medium"
    case High => "high"
  }

  /**
   * The forecast: bytes per day, days until the disk is full (-1 when it is
   * not filling up), the projected date as a number of days from now, and
   * the confidence.
   */
  datatype StorageForecast = StorageForecast(growthRatePerDay: int, daysUntilFull: int, projectedInDays: Option<int>,
                                             confidence: Confidence)

  const NoForecast: StorageForecast := StorageForecast(0, -1, None, Low)

  /** A snapshot whose timestamp parsed: when (in nanoseconds) and how much was used. */
  datatype DataPoint = DataPoint(t: int, used: int)

  /** The snapshots with a parsable timestamp, as data points, in order. */
  function Points(snaps: seq<StorageSnapshot>, parseTime: string -> Option<int>): (ps: seq<DataPoint>)
    ensures |ps| <= |snaps|
  {
    if snaps == [] then []
    else
      var front := Points(snaps[..|snaps| - 1], parseTime);
      var last := snaps[|snaps| - 1];
      match parseTime(last.timestamp)
      case None => front
      case Some(t) => front + [DataPoint(t, last.used)]
  }

  /** 0.01 days in nanoseconds: spans shorter than this give no rate. */
  const MinSpan: int := 864_000_000_000

  /** Go's integer conversion of a quotient: truncation toward zero. */
  function TruncDiv(a: int, b: int): (q: int)
    requires b > 0
    ensures a >= 0 ==> 0 <= a - q * b < b
    ensures a < 0 ==> -b < a - q * b <= 0
  {
    if a >= 0 then a / b else -((-a) / b)
  }

  /** Growth per day over `span` nanoseconds, truncated toward zero. */
  function GrowthPerDay(growth: int, span: int): int
    requires span > 0
  {
    TruncDiv(growth * Day, span)
  }

  /** More than 30 points is high confidence, 7 to 30 medium, fewer low. */
  function ConfidenceFor(n: nat): (c: Confidence)
    ensures c == High <==> n > 30
    ensures c == Medium <==> 7 <= n <= 30
    ensures c == Low <==> n < 7
  {
    if n > 30 then High else if n >= 7 then Medium else Low
  }

  /** The days until `available` bytes are used up at `rate` bytes a day. */
  function DaysUntilFull(rate: int, available: int): int {
    if rate <= 0 then -1 else if available <= 0 then 0 else available / rate
  }

  /**
   * -1 when the disk is not filling up, 0 when nothing is left, and
   * otherwise the number of whole days the available space lasts.
   */
  lemma DaysUntilFullMeaning(rate: int, available: int)
    ensures rate <= 0 ==> DaysUntilFull(rate, available) == -1
    ensures rate > 0 && available <= 0 ==> DaysUntilFull(rate, available) == 0
    ensures rate > 0 && available > 0 ==>
              var d := DaysUntilFull(rate, available);
              d >= 0 && d * rate <= available < (d + 1) * rate
  {
    if rate > 0 && available > 0 {
      var d := available / rate;
      assert available == d * rate + available % rate;
    }
  }

  /** The forecast from the data points and the last snapshot's available space. */
  function ForecastFrom(points: seq<DataPoint>, lastAvailable: int): StorageForecast {
    if |points| < 2 then NoForecast
    else
      var span := points[|points| - 1].t - points[0].t;
      if span < MinSpan then NoForecast
      else
        var rate := GrowthPerDay(points[|points| - 1].used - points[0].used, span);
        var days := DaysUntilFull(rate, lastAvailable);
        StorageForecast(rate, days, if rate <= 0 then None else Some(days), ConfidenceFor(|points|))
  }

  /**
   * What every forecast promises: -1 days exactly when the disk is not
   * filling up, no projected date then, the projected date is the day count
   * otherwise, and fewer than two points or a span under 0.01 days gives no
   * forecast at all.
   */
  lemma ForecastMeaning(points: seq<DataPoint>, lastAvailable: int)
    ensures var f := ForecastFrom(points, lastAvailable);
            (f.daysUntilFull == -1 <==> f.growthRatePerDay <= 0)
            && (f.projectedInDays.None? <==> f.growthRatePerDay <= 0)
            && (f.projectedInDays.Some? ==> f.projectedInDays.value == f.daysUntilFull >= 0)
            && (f.growthRatePerDay > 0 ==> f.confidence == ConfidenceFor(|points|))
    ensures |points| < 2 ==> ForecastFrom(points, lastAvailable) == NoForecast
    ensures |points| >= 2 && points[|points| - 1].t - points[0].t < MinSpan ==> ForecastFrom(points, lastAvailable) == NoForecast
  {
    if |points| >= 2 {
      var span := points[|points| - 1].t - points[0].t;
      if span >= MinSpan {
        var rate := GrowthPerDay(points[|points| - 1].used - points[0].used, span);
        DaysUntilFullMeaning(rate, lastAvailable);
        if rate > 0 && lastAvailable > 0 {
          assert lastAvailable / rate >= 0;
        }
      }
    }
  }

  /** The rate has the sign of the growth, and no growth means no rate. */
  lemma GrowthSign(growth: int, span: int)
    requires span > 0
    ensures growth == 0 ==> GrowthPerDay(growth, span) == 0
    ensures growth > 0 ==> GrowthPerDay(growth, span) >= 0
    ensures growth < 0 ==> GrowthPerDay(growth, span) <= 0
    ensures growth > 0 && span <= Day ==> GrowthPerDay(growth, span) >= growth
  {
    if growth > 0 {
      assert growth * Day >= 0;
      if span <= Day {
        GrowthAtLeast(growth, span);
      }
    } else if growth < 0 {
      assert -(growth * Day) >= 0;
    }
  }

  lemma GrowthAtLeast(growth: int, span: int)
    requires growth > 0 && 0 < span <= Day
    ensures (growth * Day) / span >= growth
  {
    var q := (growth * Day) / span;
    assert growth * Day >= growth * span;
    assert growth * Day == q * span + (growth * Day) % span;
  }

  /** `Forecast`: collects the parsable points, then forecasts from them. */
  method Forecast(snapshots: seq<StorageSnapshot>, parseTime: string -> Option<int>) returns (f: StorageForecast)
    ensures |snapshots| < 2 ==> f == NoForecast
    ensures |snapshots| >= 2 ==> f == ForecastFrom(Points(snapshots, parseTime), snapshots[|snapshots| - 1].available)
  {
    if |snapshots| < 2 {
      return NoForecast;
    }
    var points: seq<DataPoint> := [];
    for i := 0 to |snapshots|
      invariant points == Points(snapshots[..i], parseTime)
    {
      assert snapshots[..i + 1][..i] == snapshots[..i];
      var t := parseTime(snapshots[i].timestamp);
      if t.None? {
        continue;
      }
      points := points + [DataPoint(t.value, snapshots[i].used)];
    }
    assert snapshots[..|snapshots|] == snapshots;
    if |points| < 2 {
      return NoForecast;
    }
    var first := points[0];
    var last := points[|points| - 1];
    var span := last.t - first.t;
    if span < MinSpan {
      return NoForecast;
    }
    var growthPerDay := GrowthPerDay(last.used - first.used, span);
    var confidence := Low;
    if |points| > 30 {
      confidence := High;
    } else if |points| >= 7 {
      confidence := Medium;
    }
    f := StorageForecast(growthPerDay, 0, None, confidence);
    if growthPerDay <= 0 {
      f := f.(daysUntilFull := -1);
      return f;
    }
    var lastSnap := snapshots[|snapshots| - 1];
    if lastSnap.available <= 0 {
      f := f.(daysUntilFull := 0, projectedInDays := Some(0));
      return f;
    }
    var days := lastSnap.available / growthPerDay;
    f := f.(daysUntilFull := days, projectedInDays := Some(days));
  }
}
