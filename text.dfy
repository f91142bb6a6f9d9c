/** The integer width and the string helpers the card query uses:
    `strconv.FormatInt(i, 10)` and `strings.Join`, with `Split` and
    `ParseDecimal` as their inverses (what a reader of the query gets back). */
module Text {
  import opened Outcomes

  /** Go's `int` on the 64-bit platforms the client targets. */
  const MinInt64: int := -0x8000_0000_0000_0000
  const MaxInt64: int := 0x7FFF_FFFF_FFFF_FFFF
  type Int64 = x: int | MinInt64 <= x <= MaxInt64

  predicate IsDigit(c: char)
  {
    '0' <= c <= '9'
  }

  predicate AllDigits(s: string)
  {
    forall i :: 0 <= i < |s| ==> IsDigit(s[i])
  }

  function DigitChar(d: nat): (c: char)
    requires d < 10
    ensures IsDigit(c)
  {
    ('0' as int + d) as char
  }

  function DigitValue(c: char): (d: nat)
    requires IsDigit(c)
    ensures d < 10
  {
    c as int - '0' as int
  }

  /** The decimal digits of `n`, most significant first, without leading zeros. */
  function Digits(n: nat): (s: string)
    ensures |s| > 0 && AllDigits(s)
    decreases n
  {
    if n < 10 then [DigitChar(n)] else Digits(n / 10) + [DigitChar(n % 10)]
  }

  /** `strconv.FormatInt(n, 10)`: an optional minus sign and the digits of |n|. */
  function FormatInt(n: int): (s: string)
    ensures |s| > 0 && ',' !in s
  {
    if n < 0 then "-" + Digits(-n) else Digits(n)
  }

  /** The value of a string of decimal digits. */
  function DigitsValue(s: string): nat
    requires AllDigits(s)
    decreases |s|
  {
    if |s| == 0 then 0 else 10 * DigitsValue(s[..|s| - 1]) + DigitValue(s[|s| - 1])
  }

  /** Reads back an optionally negative decimal integer. */
  function ParseDecimal(s: string): Result<int>
  {
    if |s| > 1 && s[0] == '-' && AllDigits(s[1..]) then Success(-(DigitsValue(s[1..]) as int))
    else if |s| > 0 && AllDigits(s) then Success(DigitsValue(s))
    else Failure("invalid syntax")
  }

  lemma {:induction false} DigitsRoundTrip(n: nat)
    ensures DigitsValue(Digits(n)) == n
    decreases n
  {
    if n >= 10 {
      var s := Digits(n);
      assert s[..|s| - 1] == Digits(n / 10);
      DigitsRoundTrip(n / 10);
    }
  }

  /** Every formatted integer reads back as itself. */
  lemma FormatIntRoundTrip(n: int)
    ensures ParseDecimal(FormatInt(n)) == Success(n)
  {
    var s := FormatInt(n);
    if n < 0 {
      assert s[0] == '-' && s[1..] == Digits(-n);
      DigitsRoundTrip(-n);
    } else {
      assert s == Digits(n) && IsDigit(s[0]);
      DigitsRoundTrip(n);
    }
  }

  /** `strings.Join(parts, sep)`. */
  function Join(parts: seq<string>, sep: string): string
    decreases |parts|
  {
    if |parts| == 0 then ""
    else if |parts| == 1 then parts[0]
    else parts[0] + sep + Join(parts[1..], sep)
  }

  /** The pieces of `s` between occurrences of `sep` (at least one piece). */
  function Split(s: string, sep: char): (r: seq<string>)
    ensures |r| > 0
    decreases |s|
  {
    if |s| == 0 then [""]
    else
      var rest := Split(s[1..], sep);
      if s[0] == sep then [""] + rest else [[s[0]] + rest[0]] + rest[1..]
  }

  lemma {:induction false} SplitNoSeparator(s: string, sep: char)
    requires sep !in s
    ensures Split(s, sep) == [s]
    decreases |s|
  {
    if |s| > 0 {
      SplitNoSeparator(s[1..], sep);
      assert [s[0]] + s[1..] == s;
    }
  }

  lemma {:induction false} SplitAfterPiece(p: string, sep: char, s: string)
    requires sep !in p
    ensures Split(p + [sep] + s, sep) == [p] + Split(s, sep)
    decreases |p|
  {
    var t := p + [sep] + s;
    if |p| == 0 {
      assert t[1..] == s;
    } else {
      assert t[1..] == p[1..] + [sep] + s;
      SplitAfterPiece(p[1..], sep, s);
      assert [p[0]] + p[1..] == p;
    }
  }

  /** Splitting a join on a separator that no part contains gives the parts back. */
  lemma {:induction false} SplitJoin(parts: seq<string>, sep: char)
    requires |parts| > 0
    requires forall i :: 0 <= i < |parts| ==> sep !in parts[i]
    ensures Split(Join(parts, [sep]), sep) == parts
    decreases |parts|
  {
    if |parts| == 1 {
      SplitNoSeparator(parts[0], sep);
    } else {
      SplitJoin(parts[1..], sep);
      SplitAfterPiece(parts[0], sep, Join(parts[1..], [sep]));
      assert [parts[0]] + parts[1..] == parts;
    }
  }
}
