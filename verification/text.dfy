/**
 * String operations the servers rely on: substring containment, the
 * whitespace trimming of Python's `str.strip()` and JavaScript's
 * `String.prototype.trim()`, splitting on a separator, and the two
 * integer parsers (Python's `int(str)` and Go's `strconv.Atoi`).
 */
module Text {
  import opened Common

  // ---------------------------------------------------------------- containment

  predicate IsPrefix(p: string, s: string) {
    |p| <= |s| && p == s[..|p|]
  }

  /** Python `needle in hay`, Go `strings.Contains(hay, needle)`. */
  predicate Contains(hay: string, needle: string)
    decreases |hay|
  {
    IsPrefix(needle, hay) || (|hay| > 0 && Contains(hay[1..], needle))
  }

  /** Containment holds exactly when the needle occurs at some offset. */
  lemma {:induction false} ContainsAt(hay: string, needle: string, i: nat)
    requires i + |needle| <= |hay| && hay[i..i + |needle|] == needle
    ensures Contains(hay, needle)
    decreases i
  {
    if i > 0 {
      assert hay[1..][i - 1..i - 1 + |needle|] == hay[i..i + |needle|];
      ContainsAt(hay[1..], needle, i - 1);
    }
  }

  lemma {:induction false} ContainsGivesOffset(hay: string, needle: string) returns (i: nat)
    requires Contains(hay, needle)
    ensures i + |needle| <= |hay| && hay[i..i + |needle|] == needle
    decreases |hay|
  {
    if IsPrefix(needle, hay) {
      i := 0;
    } else {
      var j := ContainsGivesOffset(hay[1..], needle);
      assert hay[1..][j..j + |needle|] == hay[j + 1..j + 1 + |needle|];
      i := j + 1;
    }
  }

  /** Every character of a contained string is a character of the string that contains it. */
  lemma ContainedChars(hay: string, needle: string)
    requires Contains(hay, needle)
    ensures forall c :: c in needle ==> c in hay
  {
    var i := ContainsGivesOffset(hay, needle);
    forall c | c in needle ensures c in hay {
      var k :| 0 <= k < |needle| && needle[k] == c;
      assert hay[i..i + |needle|][k] == hay[i + k];
    }
  }

  /** A longer string never occurs inside a shorter one. */
  lemma {:induction false} LongerNotContained(hay: string, needle: string)
    requires |needle| > |hay|
    ensures !Contains(hay, needle)
    decreases |hay|
  {
    if |hay| > 0 {
      LongerNotContained(hay[1..], needle);
    }
  }

  /** Every string contains itself; equality is a special case of containment. */
  lemma ContainsSelf(s: string)
    ensures Contains(s, s)
  {
    assert IsPrefix(s, s);
  }

  // ---------------------------------------------------------------- whitespace

  /** Python's `str.isspace()` on one character. */
  predicate IsPySpace(c: char) {
    ('\t' <= c <= '\r') || ('\U{1C}' <= c <= ' ') || c == '\U{85}' || c == '\U{A0}'
    || c == '\U{1680}' || ('\U{2000}' <= c <= '\U{200A}') || c == '\U{2028}'
    || c == '\U{2029}' || c == '\U{202F}' || c == '\U{205F}' || c == '\U{3000}'
  }

  /** The WhiteSpace and LineTerminator characters `String.prototype.trim` removes. */
  predicate IsJsSpace(c: char) {
    ('\t' <= c <= '\r') || c == ' ' || c == '\U{A0}' || c == '\U{FEFF}'
    || c == '\U{1680}' || ('\U{2000}' <= c <= '\U{200A}') || c == '\U{2028}'
    || c == '\U{2029}' || c == '\U{202F}' || c == '\U{205F}' || c == '\U{3000}'
  }

  /** Drop the leading characters that satisfy `space`. */
  function TrimStart(s: string, space: char -> bool): (r: string)
    ensures |r| <= |s| && r == s[|s| - |r|..]
    ensures |r| > 0 ==> !space(r[0])
    ensures forall i :: 0 <= i < |s| - |r| ==> space(s[i])
    decreases |s|
  {
    if |s| > 0 && space(s[0]) then TrimStart(s[1..], space) else s
  }

  /** Drop the trailing characters that satisfy `space`. */
  function TrimEnd(s: string, space: char -> bool): (r: string)
    ensures |r| <= |s| && r == s[..|r|]
    ensures |r| > 0 ==> !space(r[|r| - 1])
    ensures forall i :: |r| <= i < |s| ==> space(s[i])
    decreases |s|
  {
    if |s| > 0 && space(s[|s| - 1]) then TrimEnd(s[..|s| - 1], space) else s
  }

  /** Python `s.strip()`. */
  function PyStrip(s: string): string {
    TrimEnd(TrimStart(s, IsPySpace), IsPySpace)
  }

  /** JavaScript `s.trim()`. */
  function JsTrim(s: string): string {
    TrimEnd(TrimStart(s, IsJsSpace), IsJsSpace)
  }

  /**
   * Trimming keeps a contiguous run of the input, removes only whitespace,
   * leaves no whitespace at either end, and is idempotent.
   */
  lemma TrimProperties(s: string, space: char -> bool)
    ensures var r := TrimEnd(TrimStart(s, space), space);
      && Contains(s, r)
      && (|r| > 0 ==> !space(r[0]) && !space(r[|r| - 1]))
      && TrimEnd(TrimStart(r, space), space) == r
      && (r == [] <==> forall k :: 0 <= k < |s| ==> space(s[k]))
  {
    var t := TrimStart(s, space);
    var r := TrimEnd(t, space);
    var i := |s| - |t|;
    assert t == s[i..];
    assert r == t[..|r|];
    assert r == s[i..i + |r|];
    ContainsAt(s, r, i);
    if |r| > 0 {
      assert r[0] == t[0];
    }
    if r == [] {
      forall k | 0 <= k < |s| ensures space(s[k]) {
        if k >= |s| - |t| {
          assert s[k] == t[k - (|s| - |t|)];
        }
      }
    }
  }

  /** Python `s.replace(c, "")`. */
  function RemoveAll(s: string, c: char): (r: string)
    ensures c !in r
    ensures forall x :: x in r <==> x in s && x != c
    ensures |r| <= |s|
    ensures c !in s ==> r == s
    decreases |s|
  {
    if |s| == 0 then ""
    else if s[0] == c then RemoveAll(s[1..], c)
    else [s[0]] + RemoveAll(s[1..], c)
  }

  /** ASCII-only `lower()`: letters A-Z become a-z, every other character is kept. */
  function AsciiLower(s: string): (r: string)
    ensures |r| == |s|
    ensures forall i :: 0 <= i < |s| ==> r[i] == if 'A' <= s[i] <= 'Z' then (s[i] as int + 32) as char else s[i]
  {
    seq(|s|, i requires 0 <= i < |s| => if 'A' <= s[i] <= 'Z' then (s[i] as int + 32) as char else s[i])
  }

  // ---------------------------------------------------------------- splitting

  function Count(s: string, c: char): nat
    decreases |s|
  {
    if |s| == 0 then 0 else (if s[0] == c then 1 else 0) + Count(s[1..], c)
  }

  /** Python `s.split(sep)` for a one-character separator. */
  function Split(s: string, sep: char): (parts: seq<string>)
    ensures |parts| >= 1
    decreases |s|
  {
    if |s| == 0 then [""]
    else
      var rest := Split(s[1..], sep);
      if s[0] == sep then [""] + rest else [[s[0]] + rest[0]] + rest[1..]
  }

  function Join(parts: seq<string>, sep: char): string
    decreases |parts|
  {
    if |parts| == 0 then ""
    else if |parts| == 1 then parts[0]
    else parts[0] + [sep] + Join(parts[1..], sep)
  }

  /** Splitting yields one more part than there are separators, none of them containing one. */
  lemma {:induction false} SplitCount(s: string, sep: char)
    ensures |Split(s, sep)| == Count(s, sep) + 1
    ensures forall k :: 0 <= k < |Split(s, sep)| ==> sep !in Split(s, sep)[k]
    decreases |s|
  {
    if |s| > 0 {
      SplitCount(s[1..], sep);
    }
  }

  /** Joining the parts back with the separator restores the input. */
  lemma {:induction false} SplitJoin(s: string, sep: char)
    ensures Join(Split(s, sep), sep) == s
    decreases |s|
  {
    if |s| > 0 {
      SplitJoin(s[1..], sep);
      var rest := Split(s[1..], sep);
      if s[0] != sep {
        if |rest| == 1 {
        } else {
          assert Join(rest, sep) == rest[0] + [sep] + Join(rest[1..], sep);
          assert ([[s[0]] + rest[0]] + rest[1..])[1..] == rest[1..];
        }
      }
    }
  }

  // ---------------------------------------------------------------- decimal numbers

  predicate IsDigit(c: char) { '0' <= c <= '9' }

  predicate AllDigits(d: string) { forall i :: 0 <= i < |d| ==> IsDigit(d[i]) }

  function DigitChar(n: nat): (c: char)
    requires n < 10
    ensures IsDigit(c) && c as int - '0' as int == n
  {
    ('0' as int + n) as char
  }

  function DigitsValue(d: string): nat
    requires AllDigits(d)
    decreases |d|
  {
    if |d| == 0 then 0 else DigitsValue(d[..|d| - 1]) * 10 + (d[|d| - 1] as int - '0' as int)
  }

  /** The shortest decimal spelling of a natural number. */
  function Decimal(n: nat): (d: string)
    ensures |d| >= 1 && AllDigits(d)
    decreases n
  {
    if n < 10 then [DigitChar(n)] else Decimal(n / 10) + [DigitChar(n % 10)]
  }

  /** Reading the decimal spelling back gives the number, and it has no leading zero. */
  lemma {:induction false} DecimalRoundTrip(n: nat)
    ensures DigitsValue(Decimal(n)) == n
    ensures Decimal(n)[0] == '0' <==> n == 0
    decreases n
  {
    if n >= 10 {
      DecimalRoundTrip(n / 10);
      var d := Decimal(n);
      assert d[..|d| - 1] == Decimal(n / 10);
    }
  }

  /** Python `int(s)` on ASCII input: strip, optional sign, digits with single `_` between them. */
  function PyInt(s: string): (r: Option<int>)
  {
    var t := PyStrip(s);
    if |t| > 0 && (t[0] == '+' || t[0] == '-') then
      match PyDigits(t[1..])
      case None => None
      case Some(v) => var m: int := v; Some(if t[0] == '-' then -m else m)
    else
      match PyDigits(t)
      case None => None
      case Some(v) => Some(v)
  }

  /** The unsigned body of a Python integer literal: digits, underscores only between digits. */
  predicate PyDigitsOk(d: string) {
    |d| > 0 && IsDigit(d[0]) && IsDigit(d[|d| - 1])
    && (forall i :: 0 <= i < |d| ==> IsDigit(d[i]) || d[i] == '_')
    && (forall i :: 0 <= i < |d| - 1 ==> !(d[i] == '_' && d[i + 1] == '_'))
  }

  function PyDigits(d: string): (r: Option<nat>)
    ensures r.Some? <==> PyDigitsOk(d)
    ensures r.Some? ==> var ds := RemoveAll(d, '_'); AllDigits(ds) && r.value == DigitsValue(ds)
  {
    if PyDigitsOk(d) then
      var digits := RemoveAll(d, '_');
      assert AllDigits(digits) by {
        forall i | 0 <= i < |digits| ensures IsDigit(digits[i]) {
          assert digits[i] in digits;
        }
      }
      Some(DigitsValue(digits))
    else None
  }

  /** Sign followed by the decimal spelling of the magnitude, as Python's `str(int)` and Go's `strconv.Itoa` print it. */
  function SignedDecimal(n: int): string {
    if n < 0 then "-" + Decimal(-n) else Decimal(n)
  }

  const MinInt64: int := -0x8000_0000_0000_0000
  const MaxInt64: int := 0x7FFF_FFFF_FFFF_FFFF

  /** Go `strconv.Atoi(s)` on a 64-bit platform: optional sign, ASCII digits, value within int64. */
  function GoAtoi(s: string): (r: Option<int>)
    ensures r.Some? ==> MinInt64 <= r.value <= MaxInt64
  {
    var body := if |s| > 0 && (s[0] == '+' || s[0] == '-') then s[1..] else s;
    if |body| == 0 || !AllDigits(body) then None
    else
      var m: int := DigitsValue(body);
      var v := if s[0] == '-' then -m else m;
      if MinInt64 <= v <= MaxInt64 then Some(v) else None
  }

  lemma DigitsAreNotSpace(d: string)
    requires AllDigits(d)
    ensures forall i :: 0 <= i < |d| ==> !IsPySpace(d[i])
  {
  }

  lemma StripKeeps(s: string)
    requires |s| > 0 && !IsPySpace(s[0]) && !IsPySpace(s[|s| - 1])
    ensures PyStrip(s) == s
  {
  }

  lemma PyDigitsOfDecimal(m: nat)
    ensures PyDigits(Decimal(m)) == Some(m)
  {
    var d := Decimal(m);
    DecimalRoundTrip(m);
    assert RemoveAll(d, '_') == d by {
      assert forall i :: 0 <= i < |d| ==> d[i] != '_';
    }
  }

  /** Python's `int` reads back what `str` wrote. */
  lemma PyIntRoundTrip(n: int)
    ensures PyInt(SignedDecimal(n)) == Some(n)
  {
    if n < 0 {
      PyIntOfNegative(-n);
      assert SignedDecimal(n) == "-" + Decimal(-n);
    } else {
      PyIntOfDecimal(n);
      assert SignedDecimal(n) == Decimal(n);
    }
  }

  lemma PyIntOfDecimal(m: nat)
    ensures PyInt(Decimal(m)) == Some(m)
  {
    var d := Decimal(m);
    PyDigitsOfDecimal(m);
    assert IsDigit(d[0]) && IsDigit(d[|d| - 1]);
    StripKeeps(d);
    assert PyStrip(d) == d;
    assert d[0] != '+' && d[0] != '-';
  }

  lemma PyIntOfNegative(m: nat)
    requires m > 0
    ensures PyInt("-" + Decimal(m)) == Some(-(m as int))
  {
    var d := Decimal(m);
    var s := "-" + d;
    PyDigitsOfDecimal(m);
    assert s[|s| - 1] == d[|d| - 1] && IsDigit(d[|d| - 1]);
    StripKeeps(s);
    assert PyStrip(s) == s;
    assert s[1..] == d;
  }

  /** Go's `Atoi` reads back every int64 that `Itoa` writes. */
  lemma GoAtoiRoundTrip(n: int)
    requires MinInt64 <= n <= MaxInt64
    ensures GoAtoi(SignedDecimal(n)) == Some(n)
  {
    var m: nat := if n < 0 then -n else n;
    DecimalRoundTrip(m);
    var s := SignedDecimal(n);
    if n < 0 {
      assert s[1..] == Decimal(m);
    }
  }
}
