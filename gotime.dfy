/**
 * Go's `time.Duration` arithmetic: nanosecond counts in a wrapping `int64`,
 * and the "Nd" day strings that the configuration and the storage trends
 * both accept.
 */
module GoTime {
  import opened StrUtil

  /** Nanoseconds in an hour and in a day. */
  const Hour: int := 3_600_000_000_000
  const Day: int := 24 * Hour

  /** `time.Duration(n) * 24 * time.Hour`, each product wrapping in `int64`. */
  function DaysToDuration(n: int): int {
    Wrap64(Wrap64(n * 24) * Hour)
  }

  /** Whenever `n` days fit in an `int64`, the wrapping products are exact. */
  lemma DaysInNanoseconds(n: int)
    requires MinInt64 <= n * Day <= MaxInt64
    ensures MinInt64 <= n <= MaxInt64
    ensures DaysToDuration(n) == n * Day
  {
    assert MinInt64 <= n * 24 <= MaxInt64;
  }

  /** `Itoa(n) + "d"` is already trimmed, ends in "d", and loses exactly it to `TrimSuffix`. */
  lemma DaysSuffixSplits(n: int)
    ensures var s := Itoa(n) + "d"; TrimSpace(s) == s && HasSuffix(s, "d") && TrimSuffix(s, "d") == Itoa(n)
  {
    var s := Itoa(n) + "d";
    ItoaChars(n);
    assert !IsSpace(s[0]) by { assert s[0] == Itoa(n)[0]; }
    TrimSpaceNoop(s);
    assert HasSuffix(s, "d");
    assert s[..|s| - 1] == Itoa(n);
  }
}
