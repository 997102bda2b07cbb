/** The string primitives the prompt and schema builders rely on: Python's `str(int)`
    and its inverse, `str.strip()`, `sep.join(...)`, `str(date)` and the `repr` of a
    list of symbols. */
module Text {
  import opened Common

  predicate IsDigit(c: char) { '0' <= c <= '9' }

  predicate AllDigits(s: string) { forall k :: 0 <= k < |s| ==> IsDigit(s[k]) }

  function DigitChar(d: nat): (c: char)
    requires d < 10
    ensures IsDigit(c) && c as int - '0' as int == d
  {
    ('0' as int + d) as char
  }

  /** Decimal rendering of a natural number, most significant digit first. */
  function NatToString(n: nat): (s: string)
    ensures |s| >= 1 && AllDigits(s)
    ensures n < 10 <==> |s| == 1
  {
    if n < 10 then [DigitChar(n)] else NatToString(n / 10) + [DigitChar(n % 10)]
  }

  /** Python's `str(i)` for an integer: a minus sign in front of negative values. */
  function IntToString(i: int): (s: string)
  {
    if i < 0 then "-" + NatToString(-i) else NatToString(i)
  }

  /** The texts `int(...)` accepts in the form `str` produces them. */
  predicate IsIntText(s: string) {
    (|s| >= 1 && AllDigits(s)) || (|s| >= 2 && s[0] == '-' && AllDigits(s[1..]))
  }

  function ParseNat(s: string): nat
    requires AllDigits(s)
  {
    if |s| == 0 then 0 else ParseNat(s[..|s| - 1]) * 10 + (s[|s| - 1] as int - '0' as int)
  }

  /** Reading back an id that was rendered with `str`, as a validator of `List[int]` does. */
  function ParseInt(s: string): int
    requires IsIntText(s)
  {
    if s[0] == '-' then -(ParseNat(s[1..]) as int) else ParseNat(s)
  }

  lemma {:induction false} NatRoundTrip(n: nat)
    ensures ParseNat(NatToString(n)) == n
  {
    if n >= 10 {
      var s := NatToString(n);
      assert s[..|s| - 1] == NatToString(n / 10);
      NatRoundTrip(n / 10);
    }
  }

  /** `str` renders every integer as a text that `int` reads back unchanged. */
  lemma {:induction false} IntRoundTrip(i: int)
    ensures IsIntText(IntToString(i))
    ensures ParseInt(IntToString(i)) == i
  {
    var s := IntToString(i);
    if i < 0 {
      assert s[1..] == NatToString(-i);
      NatRoundTrip(-i);
    } else {
      assert IsDigit(s[0]);
      NatRoundTrip(i);
    }
  }

  /** Hence distinct ids never collapse into one rendered text. */
  lemma {:induction false} IntToStringInjective(i: int, j: int)
    ensures IntToString(i) == IntToString(j) <==> i == j
  {
    IntRoundTrip(i);
    IntRoundTrip(j);
  }

  /** The characters for which Python's `str.isspace()` holds. */
  predicate IsSpace(c: char) {
    c == ' ' || ('\t' <= c <= '\r') || ('\U{1c}' <= c <= '\U{1f}')
    || c == '\U{85}' || c == '\U{a0}' || c == '\U{1680}' || ('\U{2000}' <= c <= '\U{200a}')
    || c == '\U{2028}' || c == '\U{2029}' || c == '\U{202f}' || c == '\U{205f}' || c == '\U{3000}'
  }

  /** Number of whitespace characters `strip` removes from the front of `s`. */
  function LeadingSpaces(s: string): (n: nat)
    ensures n <= |s|
    ensures forall k :: 0 <= k < n ==> IsSpace(s[k])
    ensures n == |s| || !IsSpace(s[n])
  {
    if s == [] || !IsSpace(s[0]) then 0 else 1 + LeadingSpaces(s[1..])
  }

  /** Number of whitespace characters `strip` removes from the back of `s`. */
  function TrailingSpaces(s: string): (n: nat)
    ensures n <= |s|
    ensures forall k :: |s| - n <= k < |s| ==> IsSpace(s[k])
    ensures n == |s| || !IsSpace(s[|s| - 1 - n])
  {
    if s == [] || !IsSpace(s[|s| - 1]) then 0 else 1 + TrailingSpaces(s[..|s| - 1])
  }

  /** Python's `str.strip()` with no argument: the longest middle slice of `s` that
      neither starts nor ends with whitespace; everything cut off is whitespace. */
  function Strip(s: string): (r: string)
    ensures LeadingSpaces(s) + |r| <= |s|
    ensures r == s[LeadingSpaces(s) .. LeadingSpaces(s) + |r|]
    ensures forall k :: LeadingSpaces(s) + |r| <= k < |s| ==> IsSpace(s[k])
    ensures r == [] || (!IsSpace(r[0]) && !IsSpace(r[|r| - 1]))
  {
    var t := s[LeadingSpaces(s)..];
    assert t == [] || !IsSpace(t[0]);
    t[..|t| - TrailingSpaces(t)]
  }

  /** `sep.join(parts)`. */
  function Join(sep: string, parts: seq<string>): string
  {
    if |parts| == 0 then "" else if |parts| == 1 then parts[0] else parts[0] + sep + Join(sep, parts[1..])
  }

  /** The text of `sep.join(parts)` has one separator fewer than it has parts. */
  lemma {:induction false} JoinLength(sep: string, parts: seq<string>)
    requires |parts| >= 1
    ensures |Join(sep, parts)| == Sum(parts) + (|parts| - 1) * |sep|
  {
    if |parts| > 1 {
      JoinLength(sep, parts[1..]);
    }
  }

  function Sum(parts: seq<string>): nat
  {
    if parts == [] then 0 else |parts[0]| + Sum(parts[1..])
  }

  /** `width` characters at least, padded on the left with zeros (`%0Nd`). */
  function ZeroPad(n: nat, width: nat): (s: string)
    ensures |s| >= width
    ensures AllDigits(s) && ParseNat(s) == n
  {
    var digits := NatToString(n);
    NatRoundTrip(n);
    PadZeros(digits, width)
  }

  function PadZeros(digits: string, width: nat): (s: string)
    requires AllDigits(digits)
    ensures |s| >= width && |s| >= |digits|
    ensures AllDigits(s) && ParseNat(s) == ParseNat(digits)
    decreases width - |digits|
  {
    if |digits| >= width then digits
    else
      var padded := "0" + digits;
      LeadingZero(digits);
      PadZeros(padded, width)
  }

  lemma {:induction false} LeadingZero(digits: string)
    requires AllDigits(digits)
    ensures ParseNat("0" + digits) == ParseNat(digits)
  {
    if |digits| > 0 {
      var s := "0" + digits;
      assert s[..|s| - 1] == "0" + digits[..|digits| - 1];
      LeadingZero(digits[..|digits| - 1]);
    }
  }

  /** `str(date)`: `YYYY-MM-DD`. */
  function DateText(d: Date): string
  {
    ZeroPad(d.year, 4) + "-" + ZeroPad(d.month, 2) + "-" + ZeroPad(d.day, 2)
  }

  /** Python's `repr` of a list of strings, `['AAPL', 'MSFT']`, as `str.format` prints a
      list (symbols never contain quotes or backslashes). */
  function SymbolListRepr(symbols: seq<string>): string
  {
    "[" + Join(", ", QuoteAll(symbols)) + "]"
  }

  function QuoteAll(symbols: seq<string>): (r: seq<string>)
    ensures |r| == |symbols|
    ensures forall k :: 0 <= k < |r| ==> r[k] == "'" + symbols[k] + "'"
  {
    if symbols == [] then [] else ["'" + symbols[0] + "'"] + QuoteAll(symbols[1..])
  }

  /** `sub` occurs in `s` starting at index `at`. */
  predicate OccursAt(s: string, sub: string, at: nat) {
    at + |sub| <= |s| && s[at..at + |sub|] == sub
  }
}
