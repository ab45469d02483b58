/**
 * The small pieces of JavaScript string semantics the application relies on:
 * `String.prototype.trim`, the `/\s+/g` whitespace strip, the falsiness of
 * missing and empty values (`a || b`), number-to-string conversion in template
 * literals and the global `parseInt` used on route parameters.
 */
module Js {

  datatype Option<T> = None | Some(value: T)

  /** A string value that JavaScript treats as true: present and non-empty. */
  predicate Truthy(v: Option<string>) {
    v.Some? && v.value != ""
  }

  /** `v || d` where `v` is a string field that may be missing. */
  function OrElse(v: Option<string>, d: string): string {
    if Truthy(v) then v.value else d
  }

  /** A number field that JavaScript treats as true: present and not zero. */
  function OrElseInt(v: Option<int>, d: int): int {
    if v.Some? && v.value != 0 then v.value else d
  }

  /**
   * The characters `trim` removes and `\s` matches: WhiteSpace and
   * LineTerminator of the ECMAScript grammar.
   */
  predicate IsSpace(c: char) {
    || c == '\t' || c == '\n' || c == '\U{B}' || c == '\U{C}' || c == '\r'
    || c == ' ' || c == '\U{A0}' || c == '\U{1680}'
    || ('\U{2000}' <= c <= '\U{200A}')
    || c == '\U{2028}' || c == '\U{2029}' || c == '\U{202F}' || c == '\U{205F}'
    || c == '\U{3000}' || c == '\U{FEFF}'
  }

  /** A string that `trim` reduces to the empty string. */
  predicate IsBlank(s: string) {
    forall i :: 0 <= i < |s| ==> IsSpace(s[i])
  }

  /** `trimStart`: drops the leading whitespace, keeps the rest as it is. */
  function TrimStart(s: string): (r: string)
    ensures |r| <= |s| && r == s[|s| - |r|..]
    ensures forall i :: 0 <= i < |s| - |r| ==> IsSpace(s[i])
    ensures r == [] || !IsSpace(r[0])
  {
    if s != [] && IsSpace(s[0]) then TrimStart(s[1..]) else s
  }

  /**
   * `r` is `s` with its whitespace ends cut off: a slice of `s` with only
   * whitespace before and after it, and neither of whose ends is whitespace.
   */
  ghost predicate IsTrimOf(r: string, s: string) {
    && (r == [] || (!IsSpace(r[0]) && !IsSpace(r[|r| - 1])))
    && exists i, j :: 0 <= i <= j <= |s| && r == s[i..j] && BlankOutside(s, i, j)
  }

  /** Everything in `s` before position `i` and from position `j` on is whitespace. */
  ghost predicate BlankOutside(s: string, i: int, j: int) {
    (forall k :: 0 <= k < i && k < |s| ==> IsSpace(s[k])) && (forall k :: j <= k < |s| && 0 <= k ==> IsSpace(s[k]))
  }

  /** Each string has exactly one trimmed form. */
  lemma TrimOfIsUnique(s: string, r1: string, r2: string)
    requires IsTrimOf(r1, s) && IsTrimOf(r2, s)
    ensures r1 == r2
  {
    var i1, j1 :| 0 <= i1 <= j1 <= |s| && r1 == s[i1..j1] && BlankOutside(s, i1, j1);
    var i2, j2 :| 0 <= i2 <= j2 <= |s| && r2 == s[i2..j2] && BlankOutside(s, i2, j2);
    SlicesTrimmedAlike(s, r1, i1, j1, r2, i2, j2);
  }

  lemma SlicesTrimmedAlike(s: string, r1: string, i1: int, j1: int, r2: string, i2: int, j2: int)
    requires r1 == [] || (!IsSpace(r1[0]) && !IsSpace(r1[|r1| - 1]))
    requires r2 == [] || (!IsSpace(r2[0]) && !IsSpace(r2[|r2| - 1]))
    requires 0 <= i1 <= j1 <= |s| && r1 == s[i1..j1] && BlankOutside(s, i1, j1)
    requires 0 <= i2 <= j2 <= |s| && r2 == s[i2..j2] && BlankOutside(s, i2, j2)
    ensures r1 == r2
  {
    if r1 != [] && r2 != [] {
      assert r1[0] == s[i1] && r2[0] == s[i2];
      assert r1[|r1| - 1] == s[j1 - 1] && r2[|r2| - 1] == s[j2 - 1];
      SameBounds(s, i1, j1, i2, j2);
    } else if r1 != [] {
      NoTrimOfBlank(s, i2, r1, i1, j1);
    } else if r2 != [] {
      NoTrimOfBlank(s, i1, r2, i2, j2);
    }
  }

  /** When everything outside an empty slice is whitespace, no non-empty trimmed form exists. */
  lemma NoTrimOfBlank(s: string, m: int, r: string, i: int, j: int)
    requires 0 <= m <= |s| && BlankOutside(s, m, m)
    requires 0 <= i <= j <= |s| && r == s[i..j]
    ensures r == [] || IsSpace(r[0])
  {
    if r != [] {
      assert r[0] == s[i];
    }
  }

  lemma SameBounds(s: string, i1: int, j1: int, i2: int, j2: int)
    requires 0 <= i1 < j1 <= |s| && 0 <= i2 < j2 <= |s|
    requires !IsSpace(s[i1]) && !IsSpace(s[i2]) && !IsSpace(s[j1 - 1]) && !IsSpace(s[j2 - 1])
    requires BlankOutside(s, i1, j1) && BlankOutside(s, i2, j2)
    ensures i1 == i2 && j1 == j2
  {
  }

  /**
   * `trim`: whitespace is dropped from both ends; the result is empty
   * exactly when `s` is blank. `TrimCutsBlankEnds` states what is kept.
   */
  function Trim(s: string): (r: string)
    ensures |r| <= |s|
    ensures r == [] || (!IsSpace(r[0]) && !IsSpace(r[|r| - 1]))
    ensures r == [] <==> IsBlank(s)
  {
    if s != [] && IsSpace(s[0]) then
      BlankCons(s);
      Trim(s[1..])
    else if s != [] && IsSpace(s[|s| - 1]) then
      BlankSnoc(s);
      Trim(s[..|s| - 1])
    else
      s
  }

  /** `trim` cuts off the whitespace at both ends of `s` and keeps everything in between. */
  lemma {:induction false} TrimCutsBlankEnds(s: string)
    ensures IsTrimOf(Trim(s), s)
  {
    var r := Trim(s);
    if s != [] && IsSpace(s[0]) {
      TrimCutsBlankEnds(s[1..]);
      var i, j :| 0 <= i <= j <= |s| - 1 && r == s[1..][i..j] && BlankOutside(s[1..], i, j);
      BlankOutsideAfterSpace(s, i, j);
    } else if s != [] && IsSpace(s[|s| - 1]) {
      TrimCutsBlankEnds(s[..|s| - 1]);
      var i, j :| 0 <= i <= j <= |s| - 1 && r == s[..|s| - 1][i..j] && BlankOutside(s[..|s| - 1], i, j);
      BlankOutsideBeforeSpace(s, i, j);
    } else {
      assert r == s[0..|s|];
    }
  }

  /** Putting a whitespace character in front of a string shifts a slice with blank surroundings by one. */
  lemma BlankOutsideAfterSpace(s: string, i: int, j: int)
    requires s != [] && IsSpace(s[0])
    requires 0 <= i <= j <= |s| - 1 && BlankOutside(s[1..], i, j)
    ensures s[1..][i..j] == s[i + 1..j + 1] && BlankOutside(s, i + 1, j + 1)
  {
    var t := s[1..];
    forall k | 0 <= k < i + 1 ensures IsSpace(s[k]) {
      if k > 0 {
        assert s[k] == t[k - 1];
      }
    }
    forall k | j + 1 <= k < |s| ensures IsSpace(s[k]) {
      assert s[k] == t[k - 1];
    }
  }

  /** Putting a whitespace character after a string keeps a slice with blank surroundings in place. */
  lemma BlankOutsideBeforeSpace(s: string, i: int, j: int)
    requires s != [] && IsSpace(s[|s| - 1])
    requires 0 <= i <= j <= |s| - 1 && BlankOutside(s[..|s| - 1], i, j)
    ensures s[..|s| - 1][i..j] == s[i..j] && BlankOutside(s, i, j)
  {
    var t := s[..|s| - 1];
    forall k | 0 <= k < i ensures IsSpace(s[k]) {
      assert s[k] == t[k];
    }
    forall k | j <= k < |s| ensures IsSpace(s[k]) {
      if k < |t| {
        assert s[k] == t[k];
      }
    }
  }

  /** A non-empty string is blank when its first character is whitespace and the rest is blank. */
  lemma BlankCons(s: string)
    requires s != []
    ensures IsBlank(s) <==> IsSpace(s[0]) && IsBlank(s[1..])
  {
    if IsSpace(s[0]) && IsBlank(s[1..]) {
      forall i | 0 <= i < |s| ensures IsSpace(s[i]) {
        if i > 0 {
          assert s[i] == s[1..][i - 1];
        }
      }
    }
  }

  /** A non-empty string is blank when its last character is whitespace and the rest is blank. */
  lemma BlankSnoc(s: string)
    requires s != []
    ensures IsBlank(s) <==> IsSpace(s[|s| - 1]) && IsBlank(s[..|s| - 1])
  {
    if IsSpace(s[|s| - 1]) && IsBlank(s[..|s| - 1]) {
      forall i | 0 <= i < |s| ensures IsSpace(s[i]) {
        if i < |s| - 1 {
          assert s[i] == s[..|s| - 1][i];
        }
      }
    }
  }

  lemma TrimStartNoop(s: string)
    requires s == [] || !IsSpace(s[0])
    ensures TrimStart(s) == s
  {
  }

  /**
   * `s.replace(/\s+/g, '')`: every whitespace character is removed and every
   * other character is kept, as often as it occurs in `s` and in its order.
   */
  function StripWhitespace(s: string): (r: string)
    ensures forall i :: 0 <= i < |r| ==> !IsSpace(r[i])
    ensures forall c :: multiset(r)[c] == if IsSpace(c) then 0 else multiset(s)[c]
    ensures IsSubsequence(r, s)
    ensures r == [] <==> IsBlank(s)
  {
    if s == [] then []
    else
      var rest := StripWhitespace(s[1..]);
      assert s == [s[0]] + s[1..];
      BlankCons(s);
      if IsSpace(s[0]) then rest else [s[0]] + rest
  }

  /** `a` is `b` with some elements left out and the rest in their order. */
  ghost predicate IsSubsequence<T>(a: seq<T>, b: seq<T>)
    decreases |b|
  {
    a == [] || (b != [] && if a[0] == b[0] then IsSubsequence(a[1..], b[1..]) else IsSubsequence(a, b[1..]))
  }

  predicate IsDigit(c: char) {
    '0' <= c <= '9'
  }

  function DigitChar(d: nat): (c: char)
    requires d < 10
    ensures IsDigit(c) && DigitValue(c, 10) == d
  {
    ('0' as int + d) as char
  }

  /** `${n}` for a non-negative integer: its shortest decimal numeral. */
  function Decimal(n: nat): (r: string)
    ensures r != [] && forall i :: 0 <= i < |r| ==> IsDigit(r[i])
    ensures r[0] == '0' ==> n == 0
  {
    if n < 10 then [DigitChar(n)] else Decimal(n / 10) + [DigitChar(n % 10)]
  }

  /** The value of a digit in the given radix (10 or 16), or -1 when it is not one. */
  function DigitValue(c: char, radix: nat): int {
    if '0' <= c <= '9' && (c as int) - ('0' as int) < radix then (c as int) - ('0' as int)
    else if radix == 16 && 'a' <= c <= 'f' then (c as int) - ('a' as int) + 10
    else if radix == 16 && 'A' <= c <= 'F' then (c as int) - ('A' as int) + 10
    else -1
  }

  /** The longest prefix of `s` made of digits of the radix. */
  function LeadingDigits(s: string, radix: nat): (r: string)
    ensures |r| <= |s| && r == s[..|r|]
    ensures forall i :: 0 <= i < |r| ==> DigitValue(r[i], radix) >= 0
    ensures |r| < |s| ==> DigitValue(s[|r|], radix) < 0
  {
    if s != [] && DigitValue(s[0], radix) >= 0 then [s[0]] + LeadingDigits(s[1..], radix) else []
  }

  /** The value of a numeral, most significant digit first. */
  function NumeralValue(digits: string, radix: nat): nat
    requires forall i :: 0 <= i < |digits| ==> DigitValue(digits[i], radix) >= 0
  {
    if digits == [] then 0
    else NumeralValue(digits[..|digits| - 1], radix) * radix + DigitValue(digits[|digits| - 1], radix)
  }

  /**
   * The global `parseInt(s)` without a radix, with `None` for NaN: leading
   * whitespace is skipped and the rest is read as a signed numeral.
   */
  function ParseInt(s: string): (r: Option<int>)
    ensures r.Some? ==> exists i :: 0 <= i < |s| && DigitValue(s[i], 16) >= 0
  {
    var t := TrimStart(s);
    var r := ParseSigned(t);
    assert r.Some? ==> exists i :: 0 <= i < |s| && DigitValue(s[i], 16) >= 0 by {
      if r.Some? {
        var i :| 0 <= i < |t| && DigitValue(t[i], 16) >= 0;
        assert t[i] == s[|s| - |t| + i];
      }
    }
    r
  }

  /** The signed part of `parseInt`: one sign is read, and the numeral after it gives the magnitude. */
  function ParseSigned(t: string): (r: Option<int>)
    ensures r.Some? ==> exists i :: 0 <= i < |t| && DigitValue(t[i], 16) >= 0
  {
    var negative := t != [] && t[0] == '-';
    var u := if t != [] && (t[0] == '-' || t[0] == '+') then t[1..] else t;
    match ParseMagnitude(u)
    case None => None
    case Some(m) =>
      assert DigitValue(t[|t| - |u|], 16) >= 0 by {
        assert u[0] == t[|t| - |u|];
      }
      var v: int := m;
      Some(if negative then -v else v)
  }

  /**
   * The unsigned part of `parseInt`: a `0x`/`0X` prefix selects radix 16,
   * and the longest run of digits that follows is the value; whatever comes
   * after it is ignored. Without a digit the result is NaN.
   */
  function ParseMagnitude(u: string): (r: Option<nat>)
    ensures r.Some? ==> u != [] && DigitValue(u[0], 16) >= 0
  {
    var hex := |u| >= 2 && u[0] == '0' && (u[1] == 'x' || u[1] == 'X');
    var radix := if hex then 16 else 10;
    var body := if hex then u[2..] else u;
    var digits := LeadingDigits(body, radix);
    if digits == [] then None
    else
      assert hex || digits[0] == u[0];
      Some(NumeralValue(digits, radix))
  }

  lemma {:induction false} DecimalValue(n: nat)
    ensures NumeralValue(Decimal(n), 10) == n
  {
    if n >= 10 {
      DecimalValue(n / 10);
      var d := Decimal(n);
      assert d[..|d| - 1] == Decimal(n / 10);
    }
  }

  lemma {:induction false} LeadingDigitsOfNumeral(s: string)
    requires forall i :: 0 <= i < |s| ==> IsDigit(s[i])
    ensures LeadingDigits(s, 10) == s
  {
    if s != [] {
      LeadingDigitsOfNumeral(s[1..]);
    }
  }

  /** Reading back a decimal numeral with `parseInt` gives the number that was written. */
  lemma DecimalRoundTrip(n: nat)
    ensures ParseInt(Decimal(n)) == Some(n)
  {
    var d := Decimal(n);
    assert !IsSpace(d[0]) && d[0] != '-' && d[0] != '+';
    TrimStartNoop(d);
    LeadingDigitsOfNumeral(d);
    DecimalValue(n);
    assert !(|d| >= 2 && d[0] == '0');
  }

  lemma {:induction false} TrimStartBlankPrefix(ws: string, s: string)
    requires IsBlank(ws) && (s == [] || !IsSpace(s[0]))
    ensures TrimStart(ws + s) == s
  {
    if ws == [] {
      assert ws + s == s;
      TrimStartNoop(s);
    } else {
      assert (ws + s)[1..] == ws[1..] + s;
      TrimStartBlankPrefix(ws[1..], s);
    }
  }

  lemma {:induction false} LeadingDigitsStop(s: string, rest: string, radix: nat)
    requires forall i :: 0 <= i < |s| ==> DigitValue(s[i], radix) >= 0
    requires rest == [] || DigitValue(rest[0], radix) < 0
    ensures LeadingDigits(s + rest, radix) == s
  {
    if s == [] {
      assert s + rest == rest;
    } else {
      assert (s + rest)[1..] == s[1..] + rest;
      LeadingDigitsStop(s[1..], rest, radix);
    }
  }

  /** `parseInt` of a string whose first non-blank character is a decimal digit that does not open a `0x` prefix. */
  lemma ParseIntOfUnsignedDecimal(s: string, t: string)
    requires TrimStart(s) == t
    requires t != [] && IsDigit(t[0])
    requires !(|t| >= 2 && t[0] == '0' && (t[1] == 'x' || t[1] == 'X'))
    ensures ParseInt(s) == Some(NumeralValue(LeadingDigits(t, 10), 10))
  {
    assert t[0] != '-' && t[0] != '+';
    MagnitudeOfDecimal(t);
  }

  /**
   * `rest` does not continue the numeral of `n`: it is empty or starts with
   * a character that is not a decimal digit, and not with the `x` or `X`
   * that would turn a lone `0` into a hexadecimal prefix.
   */
  predicate EndsNumeral(n: nat, rest: string) {
    rest == [] || (DigitValue(rest[0], 10) < 0 && (n == 0 ==> rest[0] != 'x' && rest[0] != 'X'))
  }

  lemma DecimalOpensNoHexPrefix(n: nat, rest: string)
    requires n == 0 ==> rest == [] || (rest[0] != 'x' && rest[0] != 'X')
    ensures var t := Decimal(n) + rest; !(|t| >= 2 && t[0] == '0' && (t[1] == 'x' || t[1] == 'X'))
  {
    var d := Decimal(n);
    if d[0] == '0' {
      assert d == ['0'];
      assert (d + rest)[1..] == rest;
    }
  }

  /**
   * `parseInt` reads the number at the front of its argument: leading
   * whitespace is skipped and whatever follows the digits (a fraction, a
   * unit, any other text that does not continue the numeral) is ignored;
   * only a lone `0` followed by `x` or `X` would open a hexadecimal prefix.
   */
  lemma ParseIntReadsLeadingNumber(ws: string, n: nat, rest: string)
    requires IsBlank(ws)
    requires EndsNumeral(n, rest)
    ensures ParseInt(ws + Decimal(n) + rest) == Some(n)
  {
    var d := Decimal(n);
    var t := d + rest;
    assert !IsSpace(d[0]) && t[0] == d[0];
    assert ws + d + rest == ws + t;
    TrimStartBlankPrefix(ws, t);
    LeadingDigitsStop(d, rest, 10);
    DecimalValue(n);
    DecimalOpensNoHexPrefix(n, rest);
    ParseIntOfUnsignedDecimal(ws + d + rest, t);
  }

  /** `parseInt` of a string whose first non-blank character is a minus sign followed by a decimal digit. */
  lemma ParseIntOfNegativeDecimal(s: string, u: string, n: nat)
    requires TrimStart(s) == "-" + u
    requires u != [] && IsDigit(u[0])
    requires !(|u| >= 2 && u[0] == '0' && (u[1] == 'x' || u[1] == 'X'))
    requires NumeralValue(LeadingDigits(u, 10), 10) == n
    ensures ParseInt(s) == Some(-(n as int))
  {
    MagnitudeOfDecimal(u);
    SignedNegativeDecimal(u, n);
  }

  lemma SignedNegativeDecimal(u: string, n: nat)
    requires ParseMagnitude(u) == Some(n)
    ensures ParseSigned("-" + u) == Some(-(n as int))
  {
    var t := "-" + u;
    assert t[1..] == u;
    SignedAfterMinus(t);
  }

  /** After a minus sign the magnitude is negated. */
  lemma SignedAfterMinus(t: string)
    requires t != [] && t[0] == '-'
    ensures ParseSigned(t) == match ParseMagnitude(t[1..]) case None => None case Some(m) => Some(-(m as int))
  {
  }

  /** The magnitude of a numeral that starts with a decimal digit and does not open a `0x` prefix. */
  lemma MagnitudeOfDecimal(u: string)
    requires u != [] && IsDigit(u[0])
    requires !(|u| >= 2 && u[0] == '0' && (u[1] == 'x' || u[1] == 'X'))
    ensures ParseMagnitude(u) == Some(NumeralValue(LeadingDigits(u, 10), 10))
  {
    assert DigitValue(u[0], 10) >= 0;
    var digits := LeadingDigits(u, 10);
    assert digits != [] && digits[0] == u[0];
  }

  /** The digits of a number followed by text that does not continue it read as that number. */
  lemma DecimalThenStop(n: nat, rest: string)
    requires EndsNumeral(n, rest)
    ensures var u := Decimal(n) + rest;
            && u != [] && IsDigit(u[0])
            && !(|u| >= 2 && u[0] == '0' && (u[1] == 'x' || u[1] == 'X'))
            && NumeralValue(LeadingDigits(u, 10), 10) == n
  {
    var d := Decimal(n);
    assert (d + rest)[0] == d[0];
    LeadingDigitsStop(d, rest, 10);
    DecimalValue(n);
    DecimalOpensNoHexPrefix(n, rest);
  }

  /** A minus sign in front of the number makes `parseInt` read its negation. */
  lemma ParseIntReadsNegativeNumber(ws: string, n: nat, rest: string)
    requires IsBlank(ws)
    requires EndsNumeral(n, rest)
    ensures ParseInt(ws + "-" + Decimal(n) + rest) == Some(-(n as int))
  {
    TrimStartBeforePrefix(ws, "-", Decimal(n), rest);
    DecimalThenStop(n, rest);
    ParseIntOfNegativeDecimal(ws + "-" + Decimal(n) + rest, Decimal(n) + rest, n);
  }

  /**
   * What `parseInt` reads as NaN: a blank string, and a string whose first
   * non-blank character is neither a sign nor a decimal digit; and only a
   * leading minus sign makes the result negative.
   */
  lemma ParseIntNaNAndSign(s: string)
    ensures IsBlank(s) ==> ParseInt(s).None?
    ensures var t := TrimStart(s);
            t != [] && DigitValue(t[0], 10) < 0 && t[0] != '-' && t[0] != '+' ==> ParseInt(s).None?
    ensures ParseInt(s).Some? && ParseInt(s).value < 0 ==> TrimStart(s)[0] == '-'
  {
    SignedNaNAndSign(TrimStart(s));
  }

  lemma SignedNaNAndSign(t: string)
    ensures t == [] ==> ParseSigned(t).None?
    ensures t != [] && DigitValue(t[0], 10) < 0 && t[0] != '-' && t[0] != '+' ==> ParseSigned(t).None?
    ensures ParseSigned(t).Some? && ParseSigned(t).value < 0 ==> t[0] == '-'
  {
    if t != [] && DigitValue(t[0], 10) < 0 && t[0] != '-' && t[0] != '+' {
      assert LeadingDigits(t, 10) == [];
    }
  }

  /** `parseInt` of a string whose first non-blank characters are `0x` followed by a hexadecimal digit. */
  lemma ParseIntOfHexNumeral(s: string, body: string)
    requires TrimStart(s) == "0x" + body
    requires body != [] && DigitValue(body[0], 16) >= 0
    ensures ParseInt(s) == Some(NumeralValue(LeadingDigits(body, 16), 16))
  {
    var t := TrimStart(s);
    assert t[0] == '0' && t[1] == 'x' && t[2..] == body;
    var digits := LeadingDigits(body, 16);
    assert digits != [] && digits[0] == body[0];
    assert ParseMagnitude(t) == Some(NumeralValue(digits, 16));
  }

  /** Leading whitespace before a prefix that does not start with whitespace is all `trimStart` removes. */
  lemma TrimStartBeforePrefix(ws: string, prefix: string, h: string, rest: string)
    requires IsBlank(ws) && prefix != [] && !IsSpace(prefix[0])
    ensures TrimStart(ws + prefix + h + rest) == prefix + (h + rest)
  {
    assert ws + prefix + h + rest == ws + (prefix + (h + rest));
    assert (prefix + (h + rest))[0] == prefix[0];
    TrimStartBlankPrefix(ws, prefix + (h + rest));
  }

  /**
   * A `0x` prefix makes `parseInt` read the hexadecimal digits after it,
   * up to the first character that is not one.
   */
  lemma ParseIntReadsHexNumeral(ws: string, h: string, rest: string)
    requires IsBlank(ws)
    requires h != [] && forall i :: 0 <= i < |h| ==> DigitValue(h[i], 16) >= 0
    requires rest == [] || DigitValue(rest[0], 16) < 0
    ensures ParseInt(ws + "0x" + h + rest) == Some(NumeralValue(h, 16))
  {
    var body := h + rest;
    var s := ws + "0x" + h + rest;
    TrimStartBeforePrefix(ws, "0x", h, rest);
    LeadingDigitsStop(h, rest, 16);
    assert body[0] == h[0];
    ParseIntOfHexNumeral(s, body);
  }
}
