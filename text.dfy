/**
 * String operations the code relies on: JavaScript's String.prototype.trim,
 * the integer subset of Number(string), and code-point lexicographic order.
 */
module Text {
  import opened Wrappers

  /** WhiteSpace and LineTerminator code points as ECMAScript's trim removes them. */
  predicate IsWhitespace(c: char) {
    c == '\t' || c == '\n' || c == '\U{000B}' || c == '\U{000C}' || c == '\r' || c == ' '
    || c == '\U{00A0}' || c == '\U{1680}' || ('\U{2000}' <= c <= '\U{200A}')
    || c == '\U{2028}' || c == '\U{2029}' || c == '\U{202F}' || c == '\U{205F}'
    || c == '\U{3000}' || c == '\U{FEFF}'
  }

  /** The number of whitespace characters `s` starts with. */
  function LeadingBlanks(s: string): (n: nat)
    ensures n <= |s|
    ensures forall i :: 0 <= i < n ==> IsWhitespace(s[i])
    ensures n == |s| || !IsWhitespace(s[n])
  {
    if |s| > 0 && IsWhitespace(s[0]) then 1 + LeadingBlanks(s[1..]) else 0
  }

  /** The number of whitespace characters `s` ends with. */
  function TrailingBlanks(s: string): (n: nat)
    ensures n <= |s|
    ensures forall i :: |s| - n <= i < |s| ==> IsWhitespace(s[i])
    ensures n == |s| || !IsWhitespace(s[|s| - n - 1])
  {
    if |s| > 0 && IsWhitespace(s[|s| - 1]) then 1 + TrailingBlanks(s[..|s| - 1]) else 0
  }

  /** `s` without its leading whitespace. */
  function TrimStart(s: string): (r: string)
    ensures |r| <= |s| && r == s[|s| - |r|..]
    ensures forall i :: 0 <= i < |s| - |r| ==> IsWhitespace(s[i])
    ensures r == [] || !IsWhitespace(r[0])
  {
    s[LeadingBlanks(s)..]
  }

  /** `s` without its trailing whitespace. */
  function TrimEnd(s: string): (r: string)
    ensures |r| <= |s| && r == s[..|r|]
    ensures forall i :: |r| <= i < |s| ==> IsWhitespace(s[i])
    ensures r == [] || !IsWhitespace(r[|r| - 1])
  {
    s[..|s| - TrailingBlanks(s)]
  }

  /** String.prototype.trim. */
  function Trim(s: string): (r: string)
    ensures |r| <= |s|
    ensures r == [] || (!IsWhitespace(r[0]) && !IsWhitespace(r[|r| - 1]))
  {
    TrimEnd(TrimStart(s))
  }

  /** A string that neither starts nor ends with whitespace is its own trim. */
  lemma TrimmedIsFixed(s: string)
    requires s == [] || (!IsWhitespace(s[0]) && !IsWhitespace(s[|s| - 1]))
    ensures Trim(s) == s
  {
  }

  /** Trimming twice is trimming once. */
  lemma TrimIdempotent(s: string)
    ensures Trim(Trim(s)) == Trim(s)
  {
    TrimmedIsFixed(Trim(s));
  }

  /** Trim keeps a contiguous slice of the input, starting where TrimStart stops, and removes only whitespace. */
  lemma {:induction false} TrimIsSlice(s: string)
    ensures var lo := |s| - |TrimStart(s)|;
      lo + |Trim(s)| <= |s| && Trim(s) == s[lo..lo + |Trim(s)|]
  {
    var t := TrimStart(s);
    var r := TrimEnd(t);
    var lo := |s| - |t|;
    assert t == s[lo..] && r == t[..|r|];
    SliceOfSuffix(s, lo, |r|);
    assert Trim(s) == r;
  }

  /** What trim removes around that slice is whitespace. */
  lemma {:induction false} TrimRemovesOnlyWhitespace(s: string)
    ensures var lo := |s| - |TrimStart(s)|;
      && (forall i :: 0 <= i < lo ==> IsWhitespace(s[i]))
      && (forall i :: lo + |Trim(s)| <= i < |s| ==> IsWhitespace(s[i]))
  {
    var t := TrimStart(s);
    TrailingShift(s, t, |TrimEnd(t)|, |s| - |t|);
  }

  /** A prefix of a suffix of `s` is a slice of `s`. */
  lemma SliceOfSuffix<T>(s: seq<T>, lo: int, n: int)
    requires 0 <= lo && 0 <= n && lo + n <= |s|
    ensures s[lo..][..n] == s[lo..lo + n]
  {
  }

  /** Characters past a prefix of the suffix `t` of `s` are whitespace in `s` too. */
  lemma TrailingShift(s: string, t: string, n: int, lo: int)
    requires 0 <= lo <= |s| && t == s[lo..] && 0 <= n <= |t|
    requires forall i :: n <= i < |t| ==> IsWhitespace(t[i])
    ensures forall i :: lo + n <= i < |s| ==> IsWhitespace(s[i])
  {
    forall i | lo + n <= i < |s| ensures IsWhitespace(s[i]) {
      assert s[i] == t[i - lo];
    }
  }

  /** A string made of whitespace only trims to the empty string. */
  lemma {:induction false} BlankTrimsToEmpty(s: string)
    requires forall i :: 0 <= i < |s| ==> IsWhitespace(s[i])
    ensures Trim(s) == ""
  {
    if |s| > 0 {
      BlankTrimsToEmpty(s[1..]);
    }
  }

  predicate IsDigit(c: char) { '0' <= c <= '9' }

  predicate AllDigits(s: string) { forall i :: 0 <= i < |s| ==> IsDigit(s[i]) }

  /** The value of a string of decimal digits. */
  function DigitsValue(s: string): (n: nat)
    requires AllDigits(s)
  {
    if |s| == 0 then 0 else 10 * DigitsValue(s[..|s| - 1]) + (s[|s| - 1] as int - '0' as int)
  }

  /** The shortest decimal spelling of `n` (String(n) for a non-negative integer). */
  function Decimal(n: nat): (s: string)
    ensures |s| > 0 && AllDigits(s)
    ensures s[0] != '0' || n == 0
  {
    var d := ['0' + ((n % 10) as char)];
    if n < 10 then d else Decimal(n / 10) + d
  }

  /** The digits of Decimal(n) are worth n. */
  lemma {:induction false} DecimalValue(n: nat)
    ensures DigitsValue(Decimal(n)) == n
  {
    var s := Decimal(n);
    if n >= 10 {
      DecimalValue(n / 10);
      assert s[..|s| - 1] == Decimal(n / 10);
    }
  }

  /** A sign followed by at least one decimal digit. */
  predicate SignedDigits(t: string) {
    |t| > 1 && (t[0] == '-' || t[0] == '+') && AllDigits(t[1..])
  }

  /**
   * Number(s) where the result is an integer, for the forms this model reads:
   * surrounding whitespace, an optional sign and decimal digits; a blank string
   * is 0. Any other spelling yields None (NaN, a fraction, or a form not modelled).
   */
  function ParseInteger(s: string): (r: Option<int>)
    ensures Trim(s) == "" ==> r == Some(0)
    ensures var t := Trim(s); |t| > 0 && AllDigits(t) ==> r == Some(DigitsValue(t))
    ensures var t := Trim(s); SignedDigits(t) && t[0] == '-' ==> r == Some(-(DigitsValue(t[1..]) as int))
    ensures var t := Trim(s); SignedDigits(t) && t[0] == '+' ==> r == Some(DigitsValue(t[1..]))
    ensures r.Some? <==> AllDigits(Trim(s)) || SignedDigits(Trim(s))
  {
    var t := Trim(s);
    if t == "" then Some(0)
    else if t[0] == '-' && |t| > 1 && AllDigits(t[1..]) then Some(-(DigitsValue(t[1..]) as int))
    else if t[0] == '+' && |t| > 1 && AllDigits(t[1..]) then Some(DigitsValue(t[1..]))
    else if AllDigits(t) then Some(DigitsValue(t))
    else None
  }

  /** Padding, a sign and leading zeros are accepted: Number(" +05 ") is 5. */
  lemma PaddedSignedReading()
    ensures ParseInteger(" +05 ") == Some(5)
  {
    assert " +05 "[1..] == "+05 ";
    assert TrimStart(" +05 ") == "+05 ";
    assert "+05 "[..3] == "+05";
    assert Trim(" +05 ") == "+05";
    assert "+05"[1..] == "05" && "05"[..1] == "0" && "0"[..0] == "";
  }

  /** A negative integer reads as itself: Number("-3") is -3. */
  lemma NegativeReading()
    ensures ParseInteger("-3") == Some(-3)
  {
    TrimmedIsFixed("-3");
    assert "-3"[1..] == "3" && "3"[..0] == "";
  }

  /** Text that is not a signed run of digits is rejected: Number("12a") and Number("-") are NaN. */
  lemma NonNumericRejected()
    ensures ParseInteger("12a").None? && ParseInteger("-").None?
  {
    TrimmedIsFixed("12a");
    assert !IsDigit("12a"[2]);
    TrimmedIsFixed("-");
  }

  /** A digit is not whitespace. */
  lemma DigitIsNotWhitespace(c: char)
    requires IsDigit(c)
    ensures !IsWhitespace(c)
  {
  }

  /** A non-empty run of digits reads as the value of its digits. */
  lemma ParseDigits(s: string)
    requires |s| > 0 && AllDigits(s)
    ensures ParseInteger(s) == Some(DigitsValue(s))
  {
    DigitIsNotWhitespace(s[0]);
    DigitIsNotWhitespace(s[|s| - 1]);
    TrimmedIsFixed(s);
  }

  /** Reading back the decimal spelling of a natural number gives the number. */
  lemma {:induction false} DecimalRoundTrip(n: nat)
    ensures ParseInteger(Decimal(n)) == Some(n)
  {
    ParseDigits(Decimal(n));
    DecimalValue(n);
  }

  /** Lexicographic order on code points (a binary-collation `orderBy` on a text column). */
  predicate LexLe(a: string, b: string) {
    if a == [] then true
    else if b == [] then false
    else if a[0] != b[0] then a[0] < b[0]
    else LexLe(a[1..], b[1..])
  }

  lemma {:induction false} LexTotal(a: string, b: string)
    ensures LexLe(a, b) || LexLe(b, a)
  {
    if a != [] && b != [] && a[0] == b[0] {
      LexTotal(a[1..], b[1..]);
    }
  }

  lemma {:induction false} LexAntisymmetric(a: string, b: string)
    requires LexLe(a, b) && LexLe(b, a)
    ensures a == b
  {
    if a != [] && b != [] {
      LexAntisymmetric(a[1..], b[1..]);
      assert a == [a[0]] + a[1..] && b == [b[0]] + b[1..];
    }
  }

  lemma {:induction false} LexTransitive(a: string, b: string, c: string)
    requires LexLe(a, b) && LexLe(b, c)
    ensures LexLe(a, c)
  {
    if a != [] && b != [] && c != [] && a[0] == b[0] && b[0] == c[0] {
      LexTransitive(a[1..], b[1..], c[1..]);
    }
  }
}
