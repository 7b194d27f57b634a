/**
 * The LaunchAgent schedule: the "HH:MM" time, the daily/weekly interval, the
 * plist text produced from them and the gate that refuses to write an empty
 * plist. The file system is a map from path to contents.
 */
module Schedule {
  import opened Wrappers
  import opened StrUtil

  const BundleId: string := "com.macbroom.cleanup"

  datatype TimeError = BadFormat | BadHour | BadMinute

  /** `strings.SplitN(s, ":", 2)`: the text before and after the first colon. */
  function SplitColon(s: string): (parts: seq<string>)
    ensures 1 <= |parts| <= 2
    ensures |parts| == 1 <==> ':' !in s
    ensures |parts| == 1 ==> parts[0] == s
    ensures |parts| == 2 ==> s == parts[0] + ":" + parts[1] && ':' !in parts[0]
  {
    match IndexOf(s, ':')
    case None => [s]
    case Some(i) =>
      assert s == s[..i] + ":" + s[i + 1..];
      [s[..i], s[i + 1..]]
  }

  /** `parseTime`: hour 0-23 and minute 0-59 around the first colon. */
  function ParseTime(s: string): (r: Result<(int, int), TimeError>)
    ensures r.Ok? ==> 0 <= r.value.0 <= 23 && 0 <= r.value.1 <= 59
    ensures ':' !in s ==> r == Err(BadFormat)
  {
    var parts := SplitColon(s);
    if |parts| != 2 then Err(BadFormat)
    else
      var hour := ParseInt(parts[0]);
      if hour.Err? || hour.value < 0 || hour.value > 23 then Err(BadHour)
      else
        var minute := ParseInt(parts[1]);
        if minute.Err? || minute.value < 0 || minute.value > 59 then Err(BadMinute)
        else Ok((hour.value, minute.value))
  }

  /** A number below 100 written with two digits ("09"). */
  function Pad2(n: nat): (s: string)
    requires n < 100
    ensures |s| == 2 && AllDigits(s) && DigitsValue(s) == n
  {
    var s := [DigitChar(n / 10), DigitChar(n % 10)];
    assert s[..1] == [DigitChar(n / 10)];
    assert s[..1][..0] == [];
    assert DigitsValue(s[..1]) == n / 10;
    assert DigitsValue(s) == DigitsValue(s[..1]) * 10 + n % 10;
    s
  }

  lemma NoColonInDigits(s: string)
    requires AllDigits(s)
    ensures ':' !in s
  {
  }

  /** Every time written as zero-padded HH:MM in range parses back to itself. */
  lemma {:induction false} ParseTimePadded(h: nat, m: nat)
    requires h <= 23 && m <= 59
    ensures ParseTime(Pad2(h) + ":" + Pad2(m)) == Ok((h, m))
  {
    var s := Pad2(h) + ":" + Pad2(m);
    NoColonInDigits(Pad2(h));
    assert s[2] == ':';
    assert s[..2] == Pad2(h);
    assert IndexOf(s, ':') == Some(2) by {
      var r := IndexOf(s, ':');
      assert r.Some? by { assert s[2] == ':'; }
      assert ':' !in s[..2];
    }
    assert s[3..] == Pad2(m);
    assert SplitColon(s) == [Pad2(h), Pad2(m)];
  }

  /** The same for times written without padding, as `strconv.Itoa` prints them. */
  lemma {:induction false} ParseTimeItoa(h: nat, m: nat)
    requires h <= 23 && m <= 59
    ensures ParseTime(Itoa(h) + ":" + Itoa(m)) == Ok((h, m))
  {
    var a, b := Itoa(h), Itoa(m);
    var s := a + ":" + b;
    NoColonInDigits(a);
    assert s[|a|] == ':';
    assert s[..|a|] == a;
    assert IndexOf(s, ':') == Some(|a|) by {
      var r := IndexOf(s, ':');
      assert r.Some? by { assert s[|a|] == ':'; }
      assert ':' !in s[..|a|];
    }
    assert s[|a| + 1..] == b;
    assert SplitColon(s) == [a, b];
    ParseItoa(h);
    ParseItoa(m);
  }

  /** `intervalWeekday`: Monday (1) for "weekly" in any case, otherwise 0 (daily). */
  function IntervalWeekday(interval: string): int {
    if ToLower(interval) == "weekly" then 1 else 0
  }

  lemma LowerUpper(s: string)
    ensures ToLower(ToUpper(s)) == ToLower(s)
  {
    assert forall i :: 0 <= i < |s| ==> ToLower(ToUpper(s))[i] == ToLower(s)[i];
  }

  /** The interval is read case-insensitively, and only "weekly" gives a weekday. */
  lemma IntervalCaseInsensitive(interval: string)
    ensures IntervalWeekday(ToUpper(interval)) == IntervalWeekday(interval)
    ensures IntervalWeekday(interval) == 1 <==> ToLower(interval) == "weekly"
    ensures IntervalWeekday(interval) != 1 ==> IntervalWeekday(interval) == 0
  {
    LowerUpper(interval);
  }

  /**
   * Where the LaunchAgent writes its log: under the home directory, or in
   * /tmp when the home directory is unknown.
   */
  function LogPath(home: Option<string>): string {
    match home
    case None => "/tmp/macbroom.log"
    case Some(h) => PathJoin(h, ".local/share/macbroom/macbroom.log")
  }

  /** The plist file path under ~/Library/LaunchAgents. */
  function DefaultPath(home: Option<string>): string {
    match home
    case None => "Library/LaunchAgents/" + BundleId + ".plist"
    case Some(h) => PathJoin(h, "Library/LaunchAgents/" + BundleId + ".plist")
  }

  /** The values filled into the plist template. */
  datatype PlistData = PlistData(agentLabel: string, binary: string, hour: int, minute: int, weekday: int, logPath: string)

  // The fixed text of the plist template between the substituted values.
  const Prologue: string := "<?xml version=\"1.0\" encoding=\"UTF-8\"?>\n<!DOCTYPE plist PUBLIC \"-//Apple//DTD PLIST 1.0//EN\" \"http://www.apple.com/DTDs/PropertyList-1.0.dtd\">\n<plist version=\"1.0\">\n<dict>\n\t<key>Label</key>\n\t<string>"
  const AfterLabel: string := "</string>\n\t<key>ProgramArguments</key>\n\t<array>\n\t\t<string>"
  const AfterBinary: string := "</string>\n\t\t<string>clean</string>\n\t\t<string>--yes</string>\n\t\t<string>--quiet</string>\n\t</array>\n\t<key>StartCalendarInterval</key>\n\t<dict>\n\t\t<key>Hour</key>\n\t\t<integer>"
  const AfterHour: string := "</integer>\n\t\t<key>Minute</key>\n\t\t<integer>"
  const AfterMinute: string := "</integer>"
  const WeekdayOpen: string := "\n\t\t<key>Weekday</key>\n\t\t<integer>"
  const WeekdayClose: string := "</integer>"
  const BeforeOutPath: string := "\n\t</dict>\n\t<key>StandardOutPath</key>\n\t<string>"
  const BeforeErrPath: string := "</string>\n\t<key>StandardErrorPath</key>\n\t<string>"
  const Epilogue: string := "</string>\n</dict>\n</plist>\n"

  /** The rendered template up to and including the Minute entry. */
  function PlistHead(d: PlistData): (r: string)
    ensures HasPrefix(r, Prologue)
  {
    Prologue + d.agentLabel + AfterLabel + d.binary + AfterBinary + Itoa(d.hour) + AfterHour + Itoa(d.minute) + AfterMinute
  }

  /** The optional Weekday entry (`{{if .Weekday}}`: only for a non-zero weekday). */
  function WeekdayEntry(w: int): string {
    if w != 0 then WeekdayOpen + Itoa(w) + WeekdayClose else ""
  }

  /** The rendered template after the calendar interval. */
  function PlistTail(d: PlistData): string {
    BeforeOutPath + d.logPath + BeforeErrPath + d.logPath + Epilogue
  }

  /** The template rendered with `d`. */
  function Render(d: PlistData): string {
    PlistHead(d) + WeekdayEntry(d.weekday) + PlistTail(d)
  }

  /**
   * `GeneratePlistWithBinary`: the rendered plist for a valid time, and the
   * empty string when the time does not parse.
   */
  function GeneratePlist(timeStr: string, interval: string, binary: string, home: Option<string>): (r: string)
    ensures r == "" <==> ParseTime(timeStr).Err?
  {
    match ParseTime(timeStr)
    case Err(_) => ""
    case Ok((hour, minute)) =>
      var d := PlistData(BundleId, binary, hour, minute, IntervalWeekday(interval), LogPath(home));
      assert |Prologue| > 0;
      Render(d)
  }

  /**
   * The daily plist is the template without a Weekday entry, and the plist
   * for "weekly" (in any case) is the same text with the Weekday entry for
   * Monday inserted after the Minute entry.
   */
  lemma {:induction false} WeeklyAddsWeekday(timeStr: string, interval: string, binary: string, home: Option<string>)
    requires ParseTime(timeStr).Ok?
    ensures var d := PlistData(BundleId, binary, ParseTime(timeStr).value.0, ParseTime(timeStr).value.1, 0, LogPath(home));
            && GeneratePlist(timeStr, "daily", binary, home) == PlistHead(d) + PlistTail(d)
            && GeneratePlist(timeStr, interval, binary, home)
               == if ToLower(interval) == "weekly"
                  then PlistHead(d) + WeekdayOpen + "1" + WeekdayClose + PlistTail(d)
                  else PlistHead(d) + PlistTail(d)
  {
    var (hour, minute) := ParseTime(timeStr).value;
    var d := PlistData(BundleId, binary, hour, minute, 0, LogPath(home));
    DailyIsZero();
    GenerateRenders(timeStr, "daily", binary, home);
    RenderWith(d);
    var w := IntervalWeekday(interval);
    var dw := PlistData(BundleId, binary, hour, minute, w, LogPath(home));
    GenerateRenders(timeStr, interval, binary, home);
    RenderWith(dw);
    assert PlistHead(dw) == PlistHead(d);
    assert PlistTail(dw) == PlistTail(d);
  }

  lemma DailyIsZero()
    ensures IntervalWeekday("daily") == 0
  {
    assert ToLower("daily") == "daily";
  }

  lemma GenerateRenders(timeStr: string, interval: string, binary: string, home: Option<string>)
    requires ParseTime(timeStr).Ok?
    ensures GeneratePlist(timeStr, interval, binary, home)
            == Render(PlistData(BundleId, binary, ParseTime(timeStr).value.0, ParseTime(timeStr).value.1,
                                IntervalWeekday(interval), LogPath(home)))
  {
  }

  lemma RenderWith(d: PlistData)
    ensures d.weekday == 0 ==> Render(d) == PlistHead(d) + PlistTail(d)
    ensures d.weekday == 1 ==> Render(d) == PlistHead(d) + WeekdayOpen + "1" + WeekdayClose + PlistTail(d)
  {
    if d.weekday == 1 {
      WeekdayOne();
      Regrouped(PlistHead(d), WeekdayOpen, "1", WeekdayClose, PlistTail(d));
    } else if d.weekday == 0 {
      EmptyMiddle(PlistHead(d), PlistTail(d));
    }
  }

  lemma WeekdayOne()
    ensures WeekdayEntry(1) == WeekdayOpen + "1" + WeekdayClose
  {
    assert Itoa(1) == "1";
  }

  lemma Regrouped(a: string, b: string, c: string, e: string, f: string)
    ensures a + (b + c + e) + f == a + b + c + e + f
  {
  }

  lemma EmptyMiddle(a: string, b: string)
    ensures a + "" + b == a + b
  {
    assert a + "" == a;
  }

  datatype InstallError = GenerateFailed | MkdirFailed | WriteFailed

  /**
   * `InstallWithBinary` over a file system given as a map from path to
   * contents; `mkdirOk` and `writeOk` say whether creating the directory and
   * writing the file succeed.
   */
  function Install(files: map<string, string>, path: string, timeStr: string, interval: string, binary: string,
                   home: Option<string>, mkdirOk: bool, writeOk: bool): (r: Result<map<string, string>, InstallError>)
    ensures r == Err(GenerateFailed) <==> ParseTime(timeStr).Err?
    ensures r.Ok? <==> ParseTime(timeStr).Ok? && mkdirOk && writeOk
    ensures r.Ok? ==> r.value.Keys == files.Keys + {path} && r.value[path] != ""
    ensures r.Ok? ==> r.value[path] == GeneratePlist(timeStr, interval, binary, home)
    ensures r.Ok? ==> forall p :: p in files && p != path ==> r.value[p] == files[p]
  {
    var plist := GeneratePlist(timeStr, interval, binary, home);
    if plist == "" then Err(GenerateFailed)
    else if !mkdirOk then Err(MkdirFailed)
    else if !writeOk then Err(WriteFailed)
    else Ok(Written(files, path, plist))
  }

  /** The file system after `path` is written with `text`. */
  function Written(files: map<string, string>, path: string, text: string): (r: map<string, string>)
    ensures r.Keys == files.Keys + {path} && r[path] == text
    ensures forall p :: p in files && p != path ==> r[p] == files[p]
  {
    files[path := text]
  }
}
