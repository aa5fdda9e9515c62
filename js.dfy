/**
 * The pieces of JavaScript semantics the controllers lean on: truthiness of
 * optional strings (`if (name)`), `parseInt(x, 10)`, `String.prototype.split`
 * with a one-character separator and `String.prototype.toUpperCase`.
 */
module Js {

  /** `undefined` (None) or a string value (Some). */
  datatype Option<+T> = None | Some(value: T) {
    function GetOr(default: T): T {
      if Some? then value else default
    }
  }

  /** A query or body field is truthy when it is present and not the empty string. */
  predicate Truthy(v: Option<string>) {
    v.Some? && v.value != ""
  }

  // ---------------------------------------------------------------------------
  // parseInt(s, 10)
  // ---------------------------------------------------------------------------

  /** The characters ECMAScript's StrWhiteSpaceChar admits: WhiteSpace and LineTerminator. */
  predicate IsWhiteSpace(c: char) {
    c == '\t' || c == '\n' || c == '\U{B}' || c == '\U{C}' || c == '\r' || c == ' '
    || c == '\U{A0}' || c == '\U{1680}' || ('\U{2000}' <= c <= '\U{200A}')
    || c == '\U{2028}' || c == '\U{2029}' || c == '\U{202F}' || c == '\U{205F}'
    || c == '\U{3000}' || c == '\U{FEFF}'
  }

  predicate IsDigit(c: char) {
    '0' <= c <= '9'
  }

  function DigitValue(c: char): (d: nat)
    requires IsDigit(c)
    ensures d < 10
  {
    c as int - '0' as int
  }

  /** Number of leading white-space characters of `s`. */
  function SpaceRun(s: string): (n: nat)
    ensures n <= |s|
    ensures forall i :: 0 <= i < n ==> IsWhiteSpace(s[i])
    ensures n < |s| ==> !IsWhiteSpace(s[n])
  {
    if s != [] && IsWhiteSpace(s[0]) then 1 + SpaceRun(s[1..]) else 0
  }

  /** Length of the longest prefix of `s` made of decimal digits. */
  function DigitRun(s: string): (n: nat)
    ensures n <= |s|
    ensures forall i :: 0 <= i < n ==> IsDigit(s[i])
    ensures n < |s| ==> !IsDigit(s[n])
  {
    if s != [] && IsDigit(s[0]) then 1 + DigitRun(s[1..]) else 0
  }

  predicate AllDigits(s: string) {
    forall i :: 0 <= i < |s| ==> IsDigit(s[i])
  }

  /** The value of a string of decimal digits, most significant first. */
  function DigitsValue(s: string): nat
    requires AllDigits(s)
  {
    if s == [] then 0 else DigitsValue(s[..|s| - 1]) * 10 + DigitValue(s[|s| - 1])
  }

  /** What is left of `s` once leading white space is skipped. */
  function TrimStart(s: string): string {
    s[SpaceRun(s)..]
  }

  /** After the white space: a digit, or a sign followed by a digit. */
  predicate StartsWithNumber(t: string) {
    (|t| > 0 && IsDigit(t[0])) || (|t| > 1 && (t[0] == '-' || t[0] == '+') && IsDigit(t[1]))
  }

  /**
   * `parseInt(s, 10)`: skip leading white space, take an optional sign, then
   * the longest run of decimal digits; no digits gives NaN (None). Anything
   * after the digits is ignored. A negative zero is the integer 0 here.
   */
  function ParseInt(s: string): (r: Option<int>)
    ensures r.Some? <==> StartsWithNumber(TrimStart(s))
    ensures r.Some? && r.value < 0 ==> TrimStart(s)[0] == '-'
    ensures r.Some? && TrimStart(s)[0] != '-' ==> r.value >= 0
  {
    var t := TrimStart(s);
    var negative := |t| > 0 && t[0] == '-';
    var body := if |t| > 0 && (t[0] == '-' || t[0] == '+') then t[1..] else t;
    var n := DigitRun(body);
    if n == 0 then None
    else
      var magnitude: int := DigitsValue(body[..n]);
      Some(if negative then -magnitude else magnitude)
  }

  /** `parseInt(v, 10)` where `v` may be `undefined` (which gives NaN). */
  function ParseIntOf(v: Option<string>): Option<int> {
    if v.None? then None else ParseInt(v.value)
  }

  /** `parseInt(v, 10) || fallback`: NaN and 0 are both falsy. */
  function IntOr(v: Option<int>, fallback: int): int {
    if v.Some? && v.value != 0 then v.value else fallback
  }

  /** Reference rendering of a natural number in decimal, no leading zeros. */
  function Digits(n: nat): (s: string)
    ensures |s| >= 1 && AllDigits(s)
  {
    var last := ('0' as int + n % 10) as char;
    if n < 10 then [last] else Digits(n / 10) + [last]
  }

  /** Reference rendering of an integer: a minus sign for negatives, then its digits. */
  function Decimal(n: int): string {
    if n < 0 then "-" + Digits(-n) else Digits(n)
  }

  lemma {:induction false} DigitsValueOfDigits(n: nat)
    ensures DigitsValue(Digits(n)) == n
  {
    var s := Digits(n);
    assert s[..|s| - 1] == (if n < 10 then [] else Digits(n / 10));
    if n >= 10 {
      DigitsValueOfDigits(n / 10);
    }
  }

  /** The digit run of a digit string followed by a non-digit is exactly that string. */
  lemma DigitRunOfDigitsThen(ds: string, rest: string)
    requires AllDigits(ds)
    requires rest == [] || !IsDigit(rest[0])
    ensures DigitRun(ds + rest) == |ds|
  {
    var s := ds + rest;
    assert forall i :: 0 <= i < |ds| ==> s[i] == ds[i];
    assert |ds| < |s| ==> s[|ds|] == rest[0];
  }

  /**
   * `parseInt` inverts the decimal rendering of every integer, whatever
   * non-digit text follows it (`parseInt("12abc", 10) == 12`).
   */
  lemma ParseIntOfDecimal(n: int, rest: string)
    requires rest == [] || !IsDigit(rest[0])
    ensures ParseInt(Decimal(n) + rest) == Some(n)
  {
    var m: nat := if n < 0 then -n else n;
    DigitsValueOfDigits(m);
    if n < 0 {
      ParseIntOfNegative(Digits(m), rest);
      assert Decimal(n) + rest == "-" + Digits(m) + rest;
    } else {
      ParseIntOfUnsigned(Digits(m), rest);
    }
  }

  /** Text that does not start with white space is its own `TrimStart`. */
  lemma NoLeadingSpace(s: string)
    requires s != [] && !IsWhiteSpace(s[0])
    ensures TrimStart(s) == s
  {
    assert SpaceRun(s) == 0;
  }

  /** Digits followed by a non-digit: `parseInt` reads the digits. */
  lemma ParseIntOfUnsigned(ds: string, rest: string)
    requires ds != [] && AllDigits(ds)
    requires rest == [] || !IsDigit(rest[0])
    ensures ParseInt(ds + rest) == Some(DigitsValue(ds))
  {
    var s := ds + rest;
    assert s[0] == ds[0] && IsDigit(ds[0]);
    NoLeadingSpace(s);
    DigitRunOfDigitsThen(ds, rest);
    assert s[..|ds|] == ds;
  }

  /** A minus, digits, then a non-digit: `parseInt` reads the negated digits. */
  lemma ParseIntOfNegative(ds: string, rest: string)
    requires ds != [] && AllDigits(ds)
    requires rest == [] || !IsDigit(rest[0])
    ensures ParseInt("-" + ds + rest) == Some(-(DigitsValue(ds) as int))
  {
    var s := "-" + ds + rest;
    assert s[0] == '-' && s[1..] == ds + rest;
    ParseIntAfterMinus(s, ds, rest);
  }

  /** A text that is a minus followed by `ds + rest` is read as the negated digits `ds`. */
  lemma ParseIntAfterMinus(s: string, ds: string, rest: string)
    requires |s| > 0 && s[0] == '-' && s[1..] == ds + rest
    requires ds != [] && AllDigits(ds)
    requires rest == [] || !IsDigit(rest[0])
    ensures ParseInt(s) == Some(-(DigitsValue(ds) as int))
  {
    NoLeadingSpace(s);
    var body := s[1..];
    assert body[0] == ds[0];
    DigitRunOfDigitsThen(ds, rest);
    assert body[..|ds|] == ds;
  }

  // ---------------------------------------------------------------------------
  // String.prototype.split with a one-character separator, and its inverse
  // ---------------------------------------------------------------------------

  /**
   * `s.split(sep)`: the pieces between separators, empty pieces included;
   * the empty string gives `[""]`.
   */
  function Split(s: string, sep: char): (parts: seq<string>)
    ensures |parts| >= 1
    ensures forall i :: 0 <= i < |parts| ==> sep !in parts[i]
  {
    if s == [] then [""]
    else
      var rest := Split(s[1..], sep);
      if s[0] == sep then [""] + rest
      else [[s[0]] + rest[0]] + rest[1..]
  }

  /** `parts.join(sep)`. */
  function Join(parts: seq<string>, sep: char): string
    requires |parts| >= 1
  {
    if |parts| == 1 then parts[0] else parts[0] + [sep] + Join(parts[1..], sep)
  }

  /** Joining the pieces of a split gives the string back. */
  lemma {:induction false} JoinSplit(s: string, sep: char)
    ensures Join(Split(s, sep), sep) == s
  {
    if s != [] {
      var rest := Split(s[1..], sep);
      JoinSplit(s[1..], sep);
      if s[0] == sep {
        assert ([""] + rest)[1..] == rest;
      } else {
        var parts := [[s[0]] + rest[0]] + rest[1..];
        if |rest| == 1 {
          assert parts == [[s[0]] + rest[0]];
        } else {
          assert parts[1..] == rest[1..];
          assert Join(rest, sep) == rest[0] + [sep] + Join(rest[1..], sep);
        }
      }
    }
  }

  /** A string free of the separator splits into itself alone. */
  lemma {:induction false} SplitWithoutSep(a: string, sep: char)
    requires sep !in a
    ensures Split(a, sep) == [a]
  {
    if a != [] {
      SplitWithoutSep(a[1..], sep);
      assert [a[0]] + a[1..] == a;
    }
  }

  /** A piece free of the separator, the separator, then `t`: the piece comes first. */
  lemma {:induction false} SplitPieceThenSep(a: string, sep: char, t: string)
    requires sep !in a
    ensures Split(a + [sep] + t, sep) == [a] + Split(t, sep)
  {
    var s := a + [sep] + t;
    if a == [] {
      assert s[0] == sep && s[1..] == t;
    } else {
      assert s[0] == a[0] && s[1..] == a[1..] + [sep] + t;
      SplitPieceThenSep(a[1..], sep, t);
      assert [a[0]] + a[1..] == a;
    }
  }

  /** Splitting a join of separator-free pieces gives the pieces back. */
  lemma {:induction false} SplitJoin(parts: seq<string>, sep: char)
    requires |parts| >= 1
    requires forall i :: 0 <= i < |parts| ==> sep !in parts[i]
    ensures Split(Join(parts, sep), sep) == parts
  {
    if |parts| == 1 {
      SplitWithoutSep(parts[0], sep);
    } else {
      SplitJoin(parts[1..], sep);
      SplitPieceThenSep(parts[0], sep, Join(parts[1..], sep));
      assert parts == [parts[0]] + parts[1..];
    }
  }

  // ---------------------------------------------------------------------------
  // String.prototype.toUpperCase
  // ---------------------------------------------------------------------------

  /**
   * The lower-case letters of Basic Latin and Latin-1: a-z, U+00E0 to U+00FE
   * except the division sign U+00F7, and the three with special upper
   * cases: U+00B5 (micro sign), U+00DF (sharp s) and U+00FF (y diaeresis).
   */
  predicate IsLowerLetter(c: char) {
    'a' <= c <= 'z' || ('\U{E0}' <= c <= '\U{FE}' && c != '\U{F7}')
    || c == '\U{B5}' || c == '\U{DF}' || c == '\U{FF}'
  }

  /**
   * Upper case of one character, as Unicode's case mapping gives it:
   * U+00B5 becomes Greek capital mu U+039C, U+00DF becomes the two letters
   * "SS", U+00FF becomes U+0178, every other lower-case letter moves down by
   * 0x20, and every other character is kept.
   */
  function UpperOf(c: char): (u: string)
    ensures |u| >= 1
    ensures forall i :: 0 <= i < |u| ==> !IsLowerLetter(u[i])
    ensures !IsLowerLetter(c) ==> u == [c]
  {
    if !IsLowerLetter(c) then [c]
    else if c == '\U{B5}' then "\U{39C}"
    else if c == '\U{DF}' then "SS"
    else if c == '\U{FF}' then "\U{178}"
    else [(c as int - 32) as char]
  }

  /** `s.toUpperCase()`, character by character. */
  function ToUpper(s: string): (r: string)
    ensures |r| >= |s|
    ensures forall i :: 0 <= i < |r| ==> !IsLowerLetter(r[i])
  {
    if s == [] then []
    else
      var head, tail := UpperOf(s[0]), ToUpper(s[1..]);
      assert forall i :: |head| <= i < |head + tail| ==> (head + tail)[i] == tail[i - |head|];
      head + tail
  }

  /** A string with no lower-case letter of the table is its own upper case. */
  lemma {:induction false} ToUpperKeepsUpper(s: string)
    requires forall i :: 0 <= i < |s| ==> !IsLowerLetter(s[i])
    ensures ToUpper(s) == s
  {
    if s != [] {
      ToUpperKeepsUpper(s[1..]);
      assert s == [s[0]] + s[1..];
    }
  }

  /** Upper-casing twice is upper-casing once. */
  lemma ToUpperIdempotent(s: string)
    ensures ToUpper(ToUpper(s)) == ToUpper(s)
  {
    ToUpperKeepsUpper(ToUpper(s));
  }

  /** The sharp s grows into two letters: `"straße".toUpperCase()` is `"STRASSE"`. */
  lemma SharpSUpperCase()
    ensures ToUpper("stra\U{DF}e") == "STRASSE"
  {
    var s := "stra\U{DF}e";
    assert s[1..] == "tra\U{DF}e" && s[1..][1..] == "ra\U{DF}e" && s[1..][1..][1..] == "a\U{DF}e";
    assert s[1..][1..][1..][1..] == "\U{DF}e" && s[1..][1..][1..][1..][1..] == "e";
    assert ToUpper("e") == "E";
    assert ToUpper("\U{DF}e") == "SSE";
  }

  /** Every string of `ss`, upper-cased, in the same order (`ss.map(s => s.toUpperCase())`). */
  function UpperAll(ss: seq<string>): (r: seq<string>)
    ensures |r| == |ss|
    ensures forall i :: 0 <= i < |ss| ==> r[i] == ToUpper(ss[i])
  {
    if ss == [] then [] else [ToUpper(ss[0])] + UpperAll(ss[1..])
  }

  // ---------------------------------------------------------------------------
  // String.prototype.length
  // ---------------------------------------------------------------------------

  /**
   * `s.length`: the number of UTF-16 code units, so a character above U+FFFF
   * (a surrogate pair) counts twice.
   */
  function Utf16Length(s: string): (n: nat)
    ensures |s| <= n <= 2 * |s|
    ensures (forall i :: 0 <= i < |s| ==> s[i] as int <= 0xFFFF) ==> n == |s|
  {
    if s == [] then 0 else (if s[0] as int > 0xFFFF then 2 else 1) + Utf16Length(s[1..])
  }

  /** Four emoji make a string of length 8. */
  lemma EmojiLength()
    ensures Utf16Length("\U{1F600}\U{1F600}\U{1F600}\U{1F600}") == 8
  {
    var s := "\U{1F600}\U{1F600}\U{1F600}\U{1F600}";
    assert s[1..] == "\U{1F600}\U{1F600}\U{1F600}" && s[1..][1..] == "\U{1F600}\U{1F600}";
    assert s[1..][1..][1..] == "\U{1F600}" && s[1..][1..][1..][1..] == "";
  }
}
