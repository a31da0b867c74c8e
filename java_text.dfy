/** Java string behaviour the handlers rely on: `String.isBlank`,
    `Long.toString` and `Collectors.joining`. */
module JavaText {
  import opened Wrappers

  /** `Character.isWhitespace`: the ASCII controls U+0009..U+000D and
      U+001C..U+001F, and the Unicode space, line and paragraph separators
      except the non-breaking ones (U+00A0, U+2007, U+202F). */
  predicate IsWhitespace(c: char) {
    || ('\U{9}' <= c <= '\U{D}')
    || ('\U{1C}' <= c <= '\U{20}')
    || c == '\U{1680}'
    || ('\U{2000}' <= c <= '\U{2006}')
    || ('\U{2008}' <= c <= '\U{200A}')
    || c == '\U{2028}' || c == '\U{2029}'
    || c == '\U{205F}' || c == '\U{3000}'
  }

  /** The index of the first character that is not white space, or |s|
      when there is none: the scan `String.isBlank` is built on. */
  function IndexOfNonWhitespace(s: string): (i: nat)
    ensures i <= |s|
    ensures forall k :: 0 <= k < i ==> IsWhitespace(s[k])
    ensures i < |s| ==> !IsWhitespace(s[i])
  {
    if s == [] || !IsWhitespace(s[0]) then 0
    else 1 + IndexOfNonWhitespace(s[1..])
  }

  /** `String.isBlank`: the scan for a non-white-space character runs off
      the end, that is, the string is empty or white space only. */
  predicate IsBlank(s: string): (b: bool)
    ensures b <==> forall i :: 0 <= i < |s| ==> IsWhitespace(s[i])
  {
    IndexOfNonWhitespace(s) == |s|
  }

  /** The guard `s == null || s.isBlank()` the handlers repeat. */
  predicate NullOrBlank(s: Option<string>) {
    s.None? || IsBlank(s.value)
  }

  /** Java's `"" + obj` for a possibly-null string: `null` prints as "null". */
  function Stringify(s: Option<string>): (r: string)
    ensures s.Some? ==> r == s.value
    ensures s.None? ==> r == "null"
  {
    s.GetOr("null")
  }

  // ---------------------------------------------------------------------
  // Decimal rendering of a `long` (`Long.toString`) and its inverse.
  // ---------------------------------------------------------------------

  predicate IsDigit(c: char) { '0' <= c <= '9' }

  predicate AllDigits(s: string) {
    forall i :: 0 <= i < |s| ==> IsDigit(s[i])
  }

  function DigitChar(d: nat): (c: char)
    requires d < 10
    ensures IsDigit(c) && c as int - '0' as int == d
  {
    (d + '0' as int) as char
  }

  /** The value of a string of decimal digits, most significant first. */
  function DecimalValue(s: string): nat
    requires AllDigits(s)
  {
    if s == [] then 0
    else DecimalValue(s[..|s| - 1]) * 10 + (s[|s| - 1] as int - '0' as int)
  }

  /** Decimal rendering of a natural number, without leading zeros; reading
      the digits back gives the number. */
  function NatToDecimal(n: nat): (s: string)
    ensures 1 <= |s| && AllDigits(s)
    ensures DecimalValue(s) == n
    ensures s[0] == '0' ==> s == "0"
  {
    if n < 10 then [DigitChar(n)]
    else
      var prefix := NatToDecimal(n / 10);
      var s := prefix + [DigitChar(n % 10)];
      assert s[..|s| - 1] == prefix;
      s
  }

  /** `Long.toString(n)`: an optional minus sign, then the digits. */
  function LongToString(n: int): (s: string)
    ensures ParseLong(s) == Some(n)
    ensures 1 <= |s| && (s[0] == '-' <==> n < 0)
    ensures s[0] == '0' ==> s == "0"
    ensures n < 0 ==> s[1] != '0'
  {
    if n < 0 then
      var digits := NatToDecimal(-n);
      assert ("-" + digits)[1..] == digits;
      "-" + digits
    else NatToDecimal(n)
  }

  /** Reads back what `LongToString` writes: "-" followed by digits, or
      digits alone; anything else is `None`. */
  function ParseLong(s: string): Option<int> {
    if 2 <= |s| && s[0] == '-' && AllDigits(s[1..]) then Some(-(DecimalValue(s[1..]) as int))
    else if 1 <= |s| && AllDigits(s) then Some(DecimalValue(s))
    else None
  }

  // ---------------------------------------------------------------------
  // `Collectors.joining(sep)`.
  // ---------------------------------------------------------------------

  /** The summed lengths of the parts. */
  function TotalLength(parts: seq<string>): nat {
    if parts == [] then 0 else |parts[0]| + TotalLength(parts[1..])
  }

  /** The parts with `sep` between each adjacent pair and nowhere else:
      exactly |parts| - 1 separators and the first part leading the result
      (`JoinEndsWithLast`: the last part ends it). */
  function Join(parts: seq<string>, sep: string): (r: string)
    ensures parts == [] ==> r == ""
    ensures parts != [] ==> |r| == TotalLength(parts) + (|parts| - 1) * |sep|
    ensures parts != [] ==> parts[0] <= r
  {
    if parts == [] then ""
    else if |parts| == 1 then parts[0]
    else
      parts[0] + sep + Join(parts[1..], sep)
  }

  /** Joining is also a left fold: appending one more part appends the
      separator and that part, so consecutive parts are separated by
      exactly `sep`. */
  lemma {:induction false} JoinSnoc(parts: seq<string>, p: string, sep: string)
    requires parts != []
    ensures Join(parts + [p], sep) == Join(parts, sep) + sep + p
  {
    var all := parts + [p];
    assert all[0] == parts[0] && |all| >= 2;
    if |parts| == 1 {
      assert all[1..] == [p];
    } else {
      assert all[1..] == parts[1..] + [p];
      JoinSnoc(parts[1..], p, sep);
      calc {
        Join(all, sep);
        parts[0] + sep + Join(parts[1..] + [p], sep);
        parts[0] + sep + (Join(parts[1..], sep) + sep + p);
        (parts[0] + sep + Join(parts[1..], sep)) + sep + p;
      }
    }
  }

  /** Two parts are joined with the separator between them and nothing else. */
  lemma JoinPair(a: string, b: string, sep: string)
    ensures Join([a, b], sep) == a + sep + b
  {
    JoinSnoc([a], b, sep);
  }

  /** The last part ends the joined string: there is no trailing separator. */
  lemma {:induction false} JoinEndsWithLast(parts: seq<string>, sep: string)
    requires parts != []
    ensures var r := Join(parts, sep);
      |parts[|parts| - 1]| <= |r| && r[|r| - |parts[|parts| - 1]|..] == parts[|parts| - 1]
  {
    if |parts| > 1 {
      var init := parts[..|parts| - 1];
      assert parts == init + [parts[|parts| - 1]];
      JoinSnoc(init, parts[|parts| - 1], sep);
    }
  }
}
