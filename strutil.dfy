/**
 * The parts of Go's `strings`, `strconv` and `path/filepath` packages that the
 * modelled code calls. A Go string is a byte sequence; here it is a `string`
 * whose characters stand for bytes, and case mapping and white space are the
 * ASCII ones.
 */
module StrUtil {
  import opened Wrappers

  const MinInt64: int := -0x8000_0000_0000_0000
  const MaxInt64: int := 0x7FFF_FFFF_FFFF_FFFF

  /** Two's-complement wrap-around of Go's `int64` arithmetic. */
  function Wrap64(x: int): (r: int)
    ensures MinInt64 <= r <= MaxInt64
    ensures MinInt64 <= x <= MaxInt64 ==> r == x
  {
    (x - MinInt64) % 0x1_0000_0000_0000_0000 + MinInt64
  }

  // ---------------------------------------------------------------------------
  // Prefixes, suffixes, case
  // ---------------------------------------------------------------------------

  predicate HasPrefix(s: string, p: string) {
    |p| <= |s| && s[..|p|] == p
  }

  predicate HasSuffix(s: string, p: string) {
    |p| <= |s| && s[|s| - |p|..] == p
  }

  function TrimSuffix(s: string, p: string): (r: string)
    ensures HasSuffix(s, p) ==> r + p == s
    ensures !HasSuffix(s, p) ==> r == s
  {
    if HasSuffix(s, p) then s[..|s| - |p|] else s
  }

  /** `strings.Contains`: `sub` occurs somewhere in `s`. */
  predicate Contains(s: string, sub: string)
    decreases |s|
  {
    HasPrefix(s, sub) || (|s| > 0 && Contains(s[1..], sub))
  }

  function LowerChar(c: char): char {
    if 'A' <= c <= 'Z' then (c as int + 32) as char else c
  }

  function UpperChar(c: char): char {
    if 'a' <= c <= 'z' then (c as int - 32) as char else c
  }

  function ToLower(s: string): (r: string)
    ensures |r| == |s|
    ensures forall i :: 0 <= i < |s| ==> r[i] == LowerChar(s[i])
  {
    seq(|s|, i requires 0 <= i < |s| => LowerChar(s[i]))
  }

  function ToUpper(s: string): (r: string)
    ensures |r| == |s|
    ensures forall i :: 0 <= i < |s| ==> r[i] == UpperChar(s[i])
  {
    seq(|s|, i requires 0 <= i < |s| => UpperChar(s[i]))
  }

  // ---------------------------------------------------------------------------
  // White space, splitting
  // ---------------------------------------------------------------------------

  predicate IsSpace(c: char) {
    c == ' ' || c == '\t' || c == '\n' || c == '\r' || c == '\U{000B}' || c == '\U{000C}'
  }

  function TrimLeftSpace(s: string): (r: string)
    ensures |r| <= |s| && r == s[|s| - |r|..]
    ensures r == [] || !IsSpace(r[0])
    decreases |s|
  {
    if |s| > 0 && IsSpace(s[0]) then TrimLeftSpace(s[1..]) else s
  }

  function TrimRightSpace(s: string): (r: string)
    ensures |r| <= |s| && r == s[..|r|]
    ensures r == [] || !IsSpace(r[|r| - 1])
    decreases |s|
  {
    if |s| > 0 && IsSpace(s[|s| - 1]) then TrimRightSpace(s[..|s| - 1]) else s
  }

  /** `strings.TrimSpace`. */
  function TrimSpace(s: string): (r: string)
    ensures r == [] || (!IsSpace(r[0]) && !IsSpace(r[|r| - 1]))
  {
    TrimRightSpace(TrimLeftSpace(s))
  }

  /** Index of the first `c` in `s`. */
  function IndexOf(s: string, c: char): (r: Option<nat>)
    ensures r.Some? ==> r.value < |s| && s[r.value] == c && c !in s[..r.value]
    ensures r.None? ==> c !in s
    decreases |s|
  {
    if |s| == 0 then None
    else if s[0] == c then Some(0)
    else match IndexOf(s[1..], c)
      case None => None
      case Some(i) =>
        assert s[..i + 1] == [s[0]] + s[1..][..i];
        Some(i + 1)
  }

  /** `strings.Split(s, [c])`: the pieces between the occurrences of `c`. */
  function Split(s: string, c: char): (parts: seq<string>)
    ensures |parts| >= 1
    ensures forall k :: 0 <= k < |parts| ==> c !in parts[k]
    ensures c !in s ==> parts == [s]
    decreases |s|
  {
    match IndexOf(s, c)
    case None => [s]
    case Some(i) => [s[..i]] + Split(s[i + 1..], c)
  }

  lemma IndexOfAfter(h: string, c: char, rest: string)
    requires c !in h
    ensures IndexOf(h + [c] + rest, c) == Some(|h|)
  {
    if h != [] {
      assert (h + [c] + rest)[1..] == h[1..] + [c] + rest;
      IndexOfAfter(h[1..], c, rest);
    }
  }

  /** Two pieces joined by one separator split back into those pieces. */
  lemma SplitPair(h: string, c: char, l: string)
    requires c !in h && c !in l
    ensures Split(h + [c] + l, c) == [h, l]
  {
    var s := h + [c] + l;
    IndexOfAfter(h, c, l);
    assert s[..|h|] == h;
    assert s[|h| + 1..] == l;
  }

  /** The first `c` of `s` stays the first one when text is appended. */
  lemma IndexOfPrefix(s: string, c: char, i: nat, r: string)
    requires IndexOf(s, c) == Some(i)
    ensures IndexOf(s + r, c) == Some(i)
  {
    assert s + r == s[..i] + [c] + (s[i + 1..] + r);
    IndexOfAfter(s[..i], c, s[i + 1..] + r);
  }

  /** A separator and a piece without it, appended to `s`, add that piece to the split. */
  lemma {:induction false} SplitSnoc(s: string, c: char, l: string)
    requires c !in l
    ensures Split(s + [c] + l, c) == Split(s, c) + [l]
    decreases |s|
  {
    var t := s + [c] + l;
    match IndexOf(s, c)
    case None =>
      IndexOfAfter(s, c, l);
      assert t[..|s|] == s && t[|s| + 1..] == l;
      assert Split(t, c) == [s] + Split(l, c);
    case Some(i) =>
      IndexOfPrefix(s, c, i, [c] + l);
      assert t == s + ([c] + l);
      assert t[..i] == s[..i];
      assert t[i + 1..] == s[i + 1..] + [c] + l;
      SplitSnoc(s[i + 1..], c, l);
      assert Split(t, c) == [s[..i]] + Split(t[i + 1..], c);
      assert Split(s, c) == [s[..i]] + Split(s[i + 1..], c);
  }

  /**
   * The last piece of a split is what follows the last separator: the split
   * has two pieces or more exactly when `c` occurs, and then `s` ends with
   * `c` followed by the last piece.
   */
  lemma {:induction false} SplitLast(s: string, c: char)
    ensures |Split(s, c)| >= 2 <==> c in s
    ensures c in s ==> HasSuffix(s, [c] + Split(s, c)[|Split(s, c)| - 1])
    decreases |s|
  {
    if c in s {
      var i := IndexOf(s, c).value;
      var rest := s[i + 1..];
      SplitLast(rest, c);
      var p := Split(rest, c);
      var q := Split(s, c);
      assert q == [s[..i]] + p;
      assert q[|q| - 1] == p[|p| - 1];
      SuffixStep(s, i, c, p[|p| - 1], c in rest);
    }
  }

  lemma SuffixStep(s: string, i: nat, c: char, last: string, again: bool)
    requires i < |s| && s[i] == c
    requires again ==> HasSuffix(s[i + 1..], [c] + last)
    requires !again ==> last == s[i + 1..]
    ensures HasSuffix(s, [c] + last)
  {
    if again {
      SuffixOfTail(s, i + 1, [c] + last);
    } else {
      assert s[i..] == [c] + last;
    }
  }

  lemma SuffixOfTail(s: string, n: nat, x: string)
    requires n <= |s| && HasSuffix(s[n..], x)
    ensures HasSuffix(s, x)
  {
    assert s[|s| - |x|..] == s[n..][|s[n..]| - |x|..];
  }

  /** Length of the longest prefix of `s` without white space. */
  function SpanNonSpace(s: string): (n: nat)
    ensures n <= |s|
    ensures forall i :: 0 <= i < n ==> !IsSpace(s[i])
    ensures n == |s| || IsSpace(s[n])
    decreases |s|
  {
    if |s| == 0 || IsSpace(s[0]) then 0 else 1 + SpanNonSpace(s[1..])
  }

  /** `strings.Fields`: the maximal runs of non-space characters. */
  function Fields(s: string): seq<string>
    decreases |s|
  {
    var t := TrimLeftSpace(s);
    if t == [] then []
    else
      var n := SpanNonSpace(t);
      assert n >= 1;
      [t[..n]] + Fields(t[n..])
  }

  /** Every field is a non-empty word without white space. */
  lemma {:induction false} FieldsAreWords(s: string)
    ensures forall k :: 0 <= k < |Fields(s)| ==> Fields(s)[k] != [] && NoSpace(Fields(s)[k])
    decreases |s|
  {
    var t := TrimLeftSpace(s);
    if t != [] {
      var n := SpanNonSpace(t);
      var w := t[..n];
      var more := Fields(t[n..]);
      FieldsAreWords(t[n..]);
      var fs := Fields(s);
      assert fs == [w] + more;
      assert NoSpace(w) by {
        forall i | 0 <= i < |w|
          ensures !IsSpace(w[i])
        {
          assert w[i] == t[i];
        }
      }
      forall k | 0 <= k < |fs|
        ensures fs[k] != [] && NoSpace(fs[k])
      {
        if k > 0 {
          assert fs[k] == more[k - 1];
        }
      }
    }
  }

  predicate NoSpace(w: string) {
    forall i :: 0 <= i < |w| ==> !IsSpace(w[i])
  }

  lemma SpanWord(w: string, rest: string)
    requires NoSpace(w)
    ensures SpanNonSpace(w + " " + rest) == |w|
  {
    if w != [] {
      assert (w + " " + rest)[1..] == w[1..] + " " + rest;
      SpanWord(w[1..], rest);
    }
  }

  lemma SpanAll(w: string)
    requires NoSpace(w)
    ensures SpanNonSpace(w) == |w|
  {
    if w != [] {
      SpanAll(w[1..]);
    }
  }

  /** A word followed by a space and more text is the first field of it. */
  lemma FieldsWord(w: string, rest: string)
    requires w != [] && NoSpace(w)
    ensures Fields(w + " " + rest) == [w] + Fields(rest)
  {
    var s := w + " " + rest;
    assert TrimLeftSpace(s) == s;
    SpanWord(w, rest);
    assert s[..|w|] == w;
    assert s[|w|..] == " " + rest;
    assert (" " + rest)[1..] == rest;
    assert TrimLeftSpace(" " + rest) == TrimLeftSpace(rest);
  }

  /** A single non-empty word is its own only field. */
  lemma FieldsSingle(w: string)
    requires w != [] && NoSpace(w)
    ensures Fields(w) == [w]
  {
    assert TrimLeftSpace(w) == w;
    SpanAll(w);
    assert w[..|w|] == w;
    assert w[|w|..] == [];
    assert Fields([]) == [];
  }

  // ---------------------------------------------------------------------------
  // Decimal integers (`strconv.ParseInt(s, 10, 64)`, `strconv.Atoi`, `Itoa`)
  // ---------------------------------------------------------------------------

  datatype NumError = ErrSyntax | ErrRange

  predicate IsDigit(c: char) { '0' <= c <= '9' }

  predicate AllDigits(s: string) {
    forall i :: 0 <= i < |s| ==> IsDigit(s[i])
  }

  function DigitsValue(s: string): nat
    requires AllDigits(s)
  {
    if s == [] then 0 else DigitsValue(s[..|s| - 1]) * 10 + (s[|s| - 1] as int - '0' as int)
  }

  /**
   * `strconv.ParseInt(s, 10, 64)` (and `strconv.Atoi` on a 64-bit platform):
   * an optional sign followed by one or more decimal digits, whose value must
   * fit in an `int64`.
   */
  function ParseInt(s: string): (r: Result<int, NumError>)
    ensures r.Ok? ==> MinInt64 <= r.value <= MaxInt64
    ensures s == [] ==> r == Err(ErrSyntax)
  {
    if s == [] then Err(ErrSyntax)
    else
      var body := if s[0] == '+' || s[0] == '-' then s[1..] else s;
      if body == [] || !AllDigits(body) then Err(ErrSyntax)
      else
        var v: int := if s[0] == '-' then -(DigitsValue(body) as int) else DigitsValue(body);
        if v < MinInt64 || v > MaxInt64 then Err(ErrRange) else Ok(v)
  }

  function DigitChar(d: nat): (c: char)
    requires d < 10
    ensures IsDigit(c) && c as int - '0' as int == d
  {
    ('0' as int + d) as char
  }

  function NatToString(n: nat): (s: string)
    ensures |s| >= 1 && AllDigits(s) && DigitsValue(s) == n
    ensures s[0] != '+' && s[0] != '-'
  {
    if n < 10 then [DigitChar(n)]
    else
      var front := NatToString(n / 10);
      var s := front + [DigitChar(n % 10)];
      assert s[..|s| - 1] == front;
      s
  }

  /** `strconv.Itoa` / `fmt` `%d`. */
  function Itoa(n: int): string {
    if n < 0 then "-" + NatToString(-n) else NatToString(n)
  }

  /** `Itoa` and `ParseInt` are inverse on the `int64` range. */
  lemma ParseItoa(n: int)
    requires MinInt64 <= n <= MaxInt64
    ensures ParseInt(Itoa(n)) == Ok(n)
  {
    if n < 0 {
      var s := Itoa(n);
      assert s[1..] == NatToString(-n);
    }
  }

  /** Distinct natural numbers print differently. */
  lemma ItoaInjective(a: nat, b: nat)
    requires Itoa(a) == Itoa(b)
    ensures a == b
  {
    assert DigitsValue(NatToString(a)) == a && DigitsValue(NatToString(b)) == b;
  }

  /** A string without white space at either end is its own `TrimSpace`. */
  lemma TrimSpaceNoop(s: string)
    requires s == [] || (!IsSpace(s[0]) && !IsSpace(s[|s| - 1]))
    ensures TrimSpace(s) == s
  {
  }

  lemma ToUpperAppend(a: string, b: string)
    ensures ToUpper(a + b) == ToUpper(a) + ToUpper(b)
  {
    assert forall i :: 0 <= i < |a + b| ==> ToUpper(a + b)[i] == (ToUpper(a) + ToUpper(b))[i];
  }

  /** `Itoa` prints only digits and a leading minus sign. */
  lemma ItoaChars(n: int)
    ensures |Itoa(n)| >= 1 && IsDigit(Itoa(n)[|Itoa(n)| - 1])
    ensures forall i :: 0 <= i < |Itoa(n)| ==> IsDigit(Itoa(n)[i]) || Itoa(n)[i] == '-'
    ensures ToUpper(Itoa(n)) == Itoa(n)
  {
    var s := Itoa(n);
    assert forall i :: 0 <= i < |s| ==> ToUpper(s)[i] == s[i];
  }

  lemma ItoaTrimmed(n: int)
    ensures TrimSpace(Itoa(n)) == Itoa(n)
  {
    ItoaChars(n);
    var s := Itoa(n);
    assert !IsSpace(s[0]) && !IsSpace(s[|s| - 1]);
    TrimSpaceNoop(s);
  }

  // ---------------------------------------------------------------------------
  // Paths
  // ---------------------------------------------------------------------------

  /** `filepath.Join(a, b)` without the `Clean` normalisation. */
  function PathJoin(a: string, b: string): (r: string)
    ensures a != [] && b != [] ==> r == a + "/" + b
  {
    if a == [] then b else if b == [] then a else a + "/" + b
  }

  function TrimTrailingSlashes(s: string): (r: string)
    ensures |r| <= |s|
    decreases |s|
  {
    if |s| > 0 && s[|s| - 1] == '/' then TrimTrailingSlashes(s[..|s| - 1]) else s
  }

  /** `filepath.Base`: the last element of a slash-separated path. */
  function Base(path: string): (r: string)
    ensures '/' !in r || r == "/"
  {
    if path == [] then "."
    else
      var t := TrimTrailingSlashes(path);
      if t == [] then "/"
      else
        var parts := Split(t, '/');
        parts[|parts| - 1]
  }
}
