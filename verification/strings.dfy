/** The string operations of the JavaScript standard library that the batch list and the builders use. */
module Strings {
  import opened Values

  // ---------------------------------------------------------------- toLowerCase

  /**
   * A capital letter whose small letter is the next code point: the paired letters of
   * Latin Extended-A, the regularly paired letters of Latin Extended-B (U+01A0 to U+01A5,
   * U+01CD to U+01DC, U+01DE to U+01EF, U+01F8 to U+0233 but Ƞ, U+0246 to U+024F), of
   * Latin Extended Additional, of Greek (U+0370 to U+0377, U+03D8 to U+03EF), and of
   * Cyrillic from U+0460 to U+052F.
   */
  predicate IsPairedCapital(c: char) {
    var n := c as int;
    || (0x100 <= n <= 0x12F && n % 2 == 0)
    || (0x132 <= n <= 0x137 && n % 2 == 0)
    || (0x139 <= n <= 0x148 && n % 2 == 1)
    || (0x14A <= n <= 0x177 && n % 2 == 0)
    || (0x179 <= n <= 0x17E && n % 2 == 1)
    || (0x1A0 <= n <= 0x1A5 && n % 2 == 0)
    || (0x1CD <= n <= 0x1DC && n % 2 == 1)
    || (0x1DE <= n <= 0x1EF && n % 2 == 0)
    || (0x1F8 <= n <= 0x21F && n % 2 == 0)
    || (0x222 <= n <= 0x233 && n % 2 == 0)
    || (0x246 <= n <= 0x24F && n % 2 == 0)
    || (0x370 <= n <= 0x373 && n % 2 == 0)
    || n == 0x376
    || (0x3D8 <= n <= 0x3EF && n % 2 == 0)
    || (0x1E00 <= n <= 0x1E95 && n % 2 == 0)
    || (0x1EA0 <= n <= 0x1EFF && n % 2 == 0)
    || (0x460 <= n <= 0x481 && n % 2 == 0)
    || (0x48A <= n <= 0x4BF && n % 2 == 0)
    || (0x4C1 <= n <= 0x4CE && n % 2 == 1)
    || (0x4D0 <= n <= 0x52F && n % 2 == 0)
  }

  /**
   * Lower-cases one character. The capitals mapped are A to Z, the Latin-1 capitals
   * U+00C0 to U+00DE, the paired capitals of IsPairedCapital, Ÿ, Ƞ and ẞ, the Greek
   * capitals U+0386 to U+03AB, and the Cyrillic capitals U+0400 to U+042F and Ӏ. Up to
   * U+052F and in Latin Extended Additional, the capitals left as they are are İ (U+0130),
   * the irregular Latin Extended-B capitals among U+0181 to U+01BC, U+01C4 to U+01CB,
   * U+01F1 to U+01F7 and U+023A to U+0245, and the Greek capitals U+037F, U+03CF and
   * U+03F4 to U+03FF. The capitals of other scripts are kept too, and a capital sigma
   * always becomes σ, never the word-final ς.
   */
  function LowerChar(c: char): char {
    var n := c as int;
    if 'A' <= c <= 'Z' then (n + 32) as char
    else if 0xC0 <= n <= 0xDE && n != 0xD7 then (n + 32) as char
    else if IsPairedCapital(c) then (n + 1) as char
    else if n == 0x178 then 0xFF as char
    else if n == 0x220 then 0x19E as char
    else if n == 0x1E9E then 0xDF as char
    else if n == 0x386 then 0x3AC as char
    else if 0x388 <= n <= 0x38A then (n + 37) as char
    else if n == 0x38C then 0x3CC as char
    else if 0x38E <= n <= 0x38F then (n + 63) as char
    else if 0x391 <= n <= 0x3AB && n != 0x3A2 then (n + 32) as char
    else if 0x400 <= n <= 0x40F then (n + 80) as char
    else if 0x410 <= n <= 0x42F then (n + 32) as char
    else if n == 0x4C0 then 0x4CF as char
    else c
  }

  /** A lower-cased character is not lower-cased further. */
  lemma LowerCharIdempotent(c: char)
    ensures LowerChar(LowerChar(c)) == LowerChar(c)
  {
  }

  /** `s.toLowerCase()` */
  function ToLower(s: string): (r: string)
    ensures |r| == |s|
    ensures forall i :: 0 <= i < |s| ==> r[i] == LowerChar(s[i])
  {
    if s == [] then [] else [LowerChar(s[0])] + ToLower(s[1..])
  }

  /** A string whose characters are those of s lower-cased is ToLower(s). */
  lemma ToLowerPointwise(s: string, t: string)
    requires |s| == |t| && forall i :: 0 <= i < |s| ==> LowerChar(s[i]) == t[i]
    ensures ToLower(s) == t
  {
  }

  /** Lower-casing twice is lower-casing once. */
  lemma ToLowerIdempotent(s: string)
    ensures ToLower(ToLower(s)) == ToLower(s)
  {
    var once := ToLower(s);
    forall i | 0 <= i < |s| ensures LowerChar(once[i]) == once[i] {
      LowerCharIdempotent(s[i]);
    }
  }

  // ---------------------------------------------------------------- includes

  /** `s.startsWith(t)` */
  predicate StartsWith(s: string, t: string) {
    |t| <= |s| && s[..|t|] == t
  }

  /** `s.includes(t)`: t occurs in s, scanning the start positions from the left. */
  predicate Includes(s: string, t: string)
    decreases |s|
  {
    StartsWith(s, t) || (s != [] && Includes(s[1..], t))
  }

  /** t is found in s at position i. */
  predicate OccursAt(s: string, t: string, i: int) {
    0 <= i && i + |t| <= |s| && s[i..i + |t|] == t
  }

  /** `Includes` holds exactly when t is found at some position of s. */
  lemma {:induction false} IncludesIffOccurs(s: string, t: string)
    ensures Includes(s, t) <==> exists i :: OccursAt(s, t, i)
  {
    if StartsWith(s, t) {
      assert OccursAt(s, t, 0);
    } else if s == [] {
      forall i | OccursAt(s, t, i) ensures false {
      }
    } else {
      IncludesIffOccurs(s[1..], t);
      if exists i :: OccursAt(s, t, i) {
        var i :| OccursAt(s, t, i);
        assert i != 0;
        assert OccursAt(s[1..], t, i - 1);
      }
      if Includes(s[1..], t) {
        var i :| OccursAt(s[1..], t, i);
        assert OccursAt(s, t, i + 1);
      }
    }
  }

  // ---------------------------------------------------------------- parseInt

  /** The StrWhiteSpaceChar set of ECMAScript: white space and line terminators. */
  predicate IsWhiteSpace(c: char) {
    c == '\t' || c == '\n' || c == '\U{000B}' || c == '\U{000C}' || c == '\r' || c == ' '
    || c == '\U{00A0}' || c == '\U{1680}' || ('\U{2000}' <= c <= '\U{200A}')
    || c == '\U{2028}' || c == '\U{2029}' || c == '\U{202F}' || c == '\U{205F}'
    || c == '\U{3000}' || c == '\U{FEFF}'
  }

  /** Drops the leading white space, as parseInt does first. */
  function TrimStart(s: string): (r: string)
    ensures r == [] || !IsWhiteSpace(r[0])
    ensures |r| <= |s| && r == s[|s| - |r|..]
    ensures (forall i :: 0 <= i < |s| ==> !IsWhiteSpace(s[i])) ==> r == s
  {
    if s != [] && IsWhiteSpace(s[0]) then TrimStart(s[1..]) else s
  }

  /** The value of c as a digit of the given radix (10 or 16), if it is one. */
  function DigitValue(c: char, radix: nat): (r: Option<nat>)
    requires radix == 10 || radix == 16
    ensures r.Some? ==> r.value < radix
  {
    if '0' <= c <= '9' then Some(c as nat - '0' as nat)
    else if radix == 16 && 'a' <= c <= 'f' then Some(c as nat - 'a' as nat + 10)
    else if radix == 16 && 'A' <= c <= 'F' then Some(c as nat - 'A' as nat + 10)
    else None
  }

  predicate IsDigit(c: char, radix: nat)
    requires radix == 10 || radix == 16
  {
    DigitValue(c, radix).Some?
  }

  /** The length of the longest prefix of s made of digits of the radix. */
  function DigitRun(s: string, radix: nat): (n: nat)
    requires radix == 10 || radix == 16
    ensures n <= |s|
    ensures forall i :: 0 <= i < n ==> IsDigit(s[i], radix)
    ensures n < |s| ==> !IsDigit(s[n], radix)
  {
    if s != [] && IsDigit(s[0], radix) then 1 + DigitRun(s[1..], radix) else 0
  }

  /** The number a string of digits denotes in the radix, most significant digit first. */
  function DigitsValue(ds: string, radix: nat): nat
    requires radix == 10 || radix == 16
    requires forall i :: 0 <= i < |ds| ==> IsDigit(ds[i], radix)
  {
    if ds == [] then 0
    else
      assert IsDigit(ds[|ds| - 1], radix);
      DigitsValue(ds[..|ds| - 1], radix) * radix + DigitValue(ds[|ds| - 1], radix).value
  }

  /** The digits after the sign: a "0x"/"0X" prefix switches to radix 16; None stands for NaN. */
  function ParseUnsigned(s: string): Option<nat> {
    var hex := |s| >= 2 && s[0] == '0' && (s[1] == 'x' || s[1] == 'X');
    var radix := if hex then 16 else 10;
    var body := if hex then s[2..] else s;
    var n := DigitRun(body, radix);
    if n == 0 then None else Some(DigitsValue(body[..n], radix))
  }

  /** `parseInt(s)` with no radix argument; None stands for NaN. */
  function ParseInt(s: string): Option<int> {
    var t := TrimStart(s);
    var negative := t != [] && t[0] == '-';
    var unsigned := if t != [] && (t[0] == '-' || t[0] == '+') then t[1..] else t;
    match ParseUnsigned(unsigned)
    case None => None
    case Some(v) => Some(if negative then 0 - v else v as int)
  }

  // ---------------------------------------------------------------- number to text

  function DigitChar(d: nat): char
    requires d < 10
  {
    ('0' as int + d) as char
  }

  /** The decimal digits of a natural number, without leading zeros. */
  function Decimal(n: nat): (r: string)
    ensures |r| >= 1
    ensures forall i :: 0 <= i < |r| ==> '0' <= r[i] <= '9'
    ensures r[0] == '0' <==> n == 0
    ensures n == 0 ==> r == "0"
  {
    if n < 10 then [DigitChar(n)] else Decimal(n / 10) + [DigitChar(n % 10)]
  }

  /** Decimal text as `String(n)` writes it: an optional minus sign, then digits with no leading zero, and no "-0". */
  predicate Canonical(s: string) {
    var digits := if s != [] && s[0] == '-' then s[1..] else s;
    && digits != []
    && (forall i :: 0 <= i < |digits| ==> '0' <= digits[i] <= '9')
    && (digits[0] == '0' ==> digits == "0" && s == "0")
  }

  /** `String(n)` / `n.toString()` for an integer. */
  function IntToString(n: int): string {
    if n < 0 then "-" + Decimal(-n) else Decimal(n)
  }

  /** String() writes the canonical form: a minus sign exactly for the negatives, no leading zero. */
  lemma IntToStringCanonical(n: int)
    ensures Canonical(IntToString(n))
    ensures IntToString(n)[0] == '-' <==> n < 0
  {
    if n < 0 {
      assert ("-" + Decimal(-n))[1..] == Decimal(-n);
    }
  }

  lemma {:induction false} DecimalValue(n: nat)
    ensures forall i :: 0 <= i < |Decimal(n)| ==> IsDigit(Decimal(n)[i], 10)
    ensures DigitsValue(Decimal(n), 10) == n
  {
    var r := Decimal(n);
    if n >= 10 {
      DecimalValue(n / 10);
      assert r[..|r| - 1] == Decimal(n / 10);
    }
  }

  /** A string of digits is one run of digits. */
  lemma DigitRunAll(s: string, radix: nat)
    requires radix == 10 || radix == 16
    requires forall i :: 0 <= i < |s| ==> IsDigit(s[i], radix)
    ensures DigitRun(s, radix) == |s|
  {
  }

  lemma DecimalParses(n: nat)
    ensures ParseUnsigned(Decimal(n)) == Some(n)
  {
    var r := Decimal(n);
    DecimalValue(n);
    assert !(|r| >= 2 && r[0] == '0');
    DigitRunAll(r, 10);
    assert r[..|r|] == r;
  }

  lemma TrimStartNoSpace(s: string)
    requires s != [] && !IsWhiteSpace(s[0])
    ensures TrimStart(s) == s
  {
  }

  /** parseInt of digits with no sign. */
  lemma ParseIntDigits(body: string, v: nat)
    requires body != [] && '0' <= body[0] <= '9'
    requires ParseUnsigned(body) == Some(v)
    ensures ParseInt(body) == Some(v)
  {
    TrimStartNoSpace(body);
  }

  /** parseInt of a minus sign followed by digits. */
  lemma ParseIntMinus(body: string, v: nat)
    requires body != [] && '0' <= body[0] <= '9'
    requires ParseUnsigned(body) == Some(v)
    ensures ParseInt("-" + body) == Some(0 - v)
  {
    var s := "-" + body;
    TrimStartNoSpace(s);
    assert s[0] == '-' && s[1..] == body;
  }

  /** parseInt reads back every integer that String() writes. */
  lemma {:induction false} ParseIntOfIntToString(n: int)
    ensures ParseInt(IntToString(n)) == Some(n)
  {
    if n < 0 {
      DecimalParses(-n);
      ParseIntMinus(Decimal(-n), -n);
    } else {
      DecimalParses(n);
      ParseIntDigits(Decimal(n), n);
    }
  }
}
