/** String helpers shared by the generators: decimal and hexadecimal
    rendering, zero padding, the wrapping 32-bit string hash and the
    patient identifier built from it (frontend/src/generators/utils.ts),
    and the few JavaScript string methods the generators call. */
module Text {
  import opened Prelude

  // ---------------------------------------------------------------
  // Digits
  // ---------------------------------------------------------------

  const HexDigits: string := "0123456789ABCDEF"

  predicate IsDigit(c: char) { '0' <= c <= '9' }

  predicate IsUpperHexDigit(c: char) { '0' <= c <= '9' || 'A' <= c <= 'F' }

  predicate AllDigits(s: string) { forall i | 0 <= i < |s| :: IsDigit(s[i]) }

  predicate AllUpperHex(s: string) { forall i | 0 <= i < |s| :: IsUpperHexDigit(s[i]) }

  function DigitValue(c: char): (d: nat)
    requires IsDigit(c)
    ensures d < 10
  {
    c as int - '0' as int
  }

  /** The digit for `d` in base 16 (and so also in base 10), upper case. */
  function DigitChar(d: nat): (c: char)
    requires d < 16
    ensures IsUpperHexDigit(c)
    ensures d < 10 ==> IsDigit(c) && DigitValue(c) == d
  {
    HexDigits[d]
  }

  // ---------------------------------------------------------------
  // Decimal rendering (`String(n)` for integers)
  // ---------------------------------------------------------------

  /** The decimal digits of `n`, without leading zeros. */
  function NatToString(n: nat): (s: string)
    ensures |s| >= 1 && AllDigits(s)
    ensures (s[0] == '0') == (n == 0)
  {
    if n < 10 then [DigitChar(n)] else NatToString(n / 10) + [DigitChar(n % 10)]
  }

  /** `String(i)` for an integer `i`. */
  function IntToString(i: int): (s: string)
    ensures |s| >= 1
  {
    if i < 0 then "-" + NatToString(-i) else NatToString(i)
  }

  /** The value of a string of decimal digits (leading zeros allowed). */
  function ParseNat(s: string): nat
    requires AllDigits(s)
  {
    if |s| == 0 then 0 else ParseNat(s[..|s| - 1]) * 10 + DigitValue(s[|s| - 1])
  }

  /** Reading back the decimal rendering gives the number. */
  lemma {:induction false} ParseNatToString(n: nat)
    ensures ParseNat(NatToString(n)) == n
  {
    if n >= 10 {
      var s := NatToString(n);
      assert s[..|s| - 1] == NatToString(n / 10);
      ParseNatToString(n / 10);
    }
  }

  /** Different numbers render differently. */
  lemma NatToStringInjective(a: nat, b: nat)
    requires NatToString(a) == NatToString(b)
    ensures a == b
  {
    ParseNatToString(a);
    ParseNatToString(b);
  }

  // ---------------------------------------------------------------
  // Padding (`padStart` with '0', `padNumber`)
  // ---------------------------------------------------------------

  function Repeat(c: char, n: nat): (s: string)
    ensures |s| == n && forall i | 0 <= i < n :: s[i] == c
  {
    if n == 0 then [] else [c] + Repeat(c, n - 1)
  }

  /** `s.padStart(width, '0')`. */
  function PadStart(s: string, width: int): (r: string)
  {
    if |s| >= width then s else Repeat('0', width - |s|) + s
  }

  /** Padding leaves long strings alone and otherwise prefixes zeros up
      to exactly `width` characters. */
  lemma PadStartShape(s: string, width: int)
    ensures |s| >= width ==> PadStart(s, width) == s
    ensures |s| < width ==> (|PadStart(s, width)| == width
      && PadStart(s, width)[width - |s|..] == s
      && forall i | 0 <= i < width - |s| :: PadStart(s, width)[i] == '0')
  {
  }

  /** `padNumber(n, width)`: `String(n).padStart(width, '0')`. */
  function PadNumber(n: int, width: int): (r: string)
    ensures n >= 0 ==> AllDigits(r) && |r| == Max(|NatToString(n)|, width)
  {
    PadStart(IntToString(n), width)
  }

  /** A number of ten or more has one digit more than its tenth. */
  lemma NatToStringLength(n: nat)
    ensures |NatToString(n)| == if n < 10 then 1 else |NatToString(n / 10)| + 1
  {
  }

  /** A number below 10000 padded to four places has exactly four digits. */
  lemma PaddedFour(n: nat)
    requires n < 10000
    ensures |PadNumber(n, 4)| == 4 && AllDigits(PadNumber(n, 4))
  {
    var a := n / 10;
    var b := a / 10;
    var c := b / 10;
    NatToStringLength(n);
    NatToStringLength(a);
    NatToStringLength(b);
    NatToStringLength(c);
  }

  /** A number below 100000 padded to five places has exactly five digits. */
  lemma PaddedFive(n: nat)
    requires n < 100000
    ensures |PadNumber(n, 5)| == 5 && AllDigits(PadNumber(n, 5))
  {
    var a := n / 10;
    var b := a / 10;
    var c := b / 10;
    var d := c / 10;
    NatToStringLength(n);
    NatToStringLength(a);
    NatToStringLength(b);
    NatToStringLength(c);
    NatToStringLength(d);
  }

  /** Leading zeros do not change the value of a digit string. */
  lemma {:induction false} ParseNatLeadingZeros(z: nat, s: string)
    requires AllDigits(s)
    ensures AllDigits(Repeat('0', z) + s)
    ensures ParseNat(Repeat('0', z) + s) == ParseNat(s)
    decreases |s|
  {
    var t := Repeat('0', z) + s;
    if |s| == 0 {
      assert t == Repeat('0', z);
      ParseNatZeros(z);
    } else {
      assert t[..|t| - 1] == Repeat('0', z) + s[..|s| - 1];
      ParseNatLeadingZeros(z, s[..|s| - 1]);
    }
  }

  lemma {:induction false} ParseNatZeros(z: nat)
    ensures AllDigits(Repeat('0', z)) && ParseNat(Repeat('0', z)) == 0
  {
    if z > 0 {
      assert Repeat('0', z)[..z - 1] == Repeat('0', z - 1);
      ParseNatZeros(z - 1);
    }
  }

  /** A padded non-negative number reads back as itself. */
  lemma ParsePadNumber(n: nat, width: int)
    ensures AllDigits(PadNumber(n, width)) && ParseNat(PadNumber(n, width)) == n
  {
    var s := NatToString(n);
    ParseNatToString(n);
    if |s| < width {
      ParseNatLeadingZeros(width - |s|, s);
    }
  }

  /** So padded numbers of any common width are distinct: the ids built
      from them are unique. */
  lemma PadNumberInjective(a: nat, b: nat, width: int)
    requires PadNumber(a, width) == PadNumber(b, width)
    ensures a == b
  {
    ParsePadNumber(a, width);
    ParsePadNumber(b, width);
  }

  /** Prefixed, padded identifiers such as `OB-000001` are distinct for
      distinct numbers. */
  lemma PrefixedIdInjective(prefix: string, a: nat, b: nat, width: int)
    requires prefix + PadNumber(a, width) == prefix + PadNumber(b, width)
    ensures a == b
  {
    assert PadNumber(a, width) == (prefix + PadNumber(a, width))[|prefix|..];
    assert PadNumber(b, width) == (prefix + PadNumber(b, width))[|prefix|..];
    PadNumberInjective(a, b, width);
  }

  /** A prefixed, padded identifier such as `ENC-00000001`: the prefix,
      then at least `width` digits that read back as the number. */
  lemma PrefixedIdReadsBack(prefix: string, n: nat, width: nat)
    ensures var id := prefix + PadNumber(n, width);
      |id| >= |prefix| + width && id[..|prefix|] == prefix
      && AllDigits(id[|prefix|..]) && ParseNat(id[|prefix|..]) == n
  {
    var id := prefix + PadNumber(n, width);
    assert id[|prefix|..] == PadNumber(n, width);
    ParsePadNumber(n, width);
  }

  // ---------------------------------------------------------------
  // Hexadecimal rendering and the string hash
  // ---------------------------------------------------------------

  /** `n.toString(16).toUpperCase()`. */
  function NatToHex(n: nat): (s: string)
    ensures |s| >= 1 && AllUpperHex(s)
  {
    if n < 16 then [DigitChar(n)] else NatToHex(n / 16) + [DigitChar(n % 16)]
  }

  const TwoTo31: int := 0x8000_0000
  const TwoTo32: int := 0x1_0000_0000

  type int32 = x: int | -TwoTo31 <= x < TwoTo31

  /** JavaScript's ToInt32 (`x | 0` on an integral number). */
  function Wrap32(x: int): (r: int32)
    ensures (r - x) % TwoTo32 == 0
  {
    (x + TwoTo31) % TwoTo32 - TwoTo31
  }

  /** One step of `hash`: `h = (h << 5) - h + code; h |= 0`. The shift
      itself wraps to 32 bits before the subtraction. */
  function HashStep(h: int32, code: int): int32 {
    Wrap32(Wrap32(h * 32) - h + code)
  }

  /** The step is the wrapped value of `31 * h + code`. */
  lemma HashStepWraps(h: int32, code: int)
    ensures HashStep(h, code) == Wrap32(31 * h + code)
  {
    var a := Wrap32(h * 32);
    var q := (a - h * 32) / TwoTo32;
    assert a - h * 32 == q * TwoTo32;
    assert a - h + code == (31 * h + code) + q * TwoTo32;
    WrapShift(31 * h + code, q);
  }

  lemma WrapShift(x: int, q: int)
    ensures Wrap32(x + q * TwoTo32) == Wrap32(x)
  {
  }

  /** The UTF-16 code units of a string, as `charCodeAt` reads them:
      characters outside the basic plane become a surrogate pair. */
  function CodeUnits(s: string): (u: seq<int>)
    ensures |u| >= |s|
  {
    if |s| == 0 then []
    else CodeUnits(s[..|s| - 1]) + CharCodeUnits(s[|s| - 1])
  }

  function CharCodeUnits(c: char): (u: seq<int>)
    ensures 1 <= |u| <= 2
    ensures forall i | 0 <= i < |u| :: 0 <= u[i] < 0x10000
  {
    var v := c as int;
    if v < 0x10000 then [v]
    else [0xD800 + (v - 0x10000) / 0x400, 0xDC00 + (v - 0x10000) % 0x400]
  }

  /** The accumulator after folding `HashStep` over the code units. */
  function HashAcc(units: seq<int>): int32 {
    if |units| == 0 then 0 else HashStep(HashAcc(units[..|units| - 1]), units[|units| - 1])
  }

  function Abs(x: int): nat { if x < 0 then -x else x }

  /** `hash(s)`: the leading (at most six) upper-case hex digits of the
      accumulator's absolute value, left-padded with '0' to six. */
  function Hash(s: string): (r: string)
    ensures |r| == 6 && AllUpperHex(r)
  {
    var hex := NatToHex(Abs(HashAcc(CodeUnits(s))));
    PadStart(hex[..Min(6, |hex|)], 6)
  }

  /** The loop of `hash`, over the code units. */
  method ComputeHash(s: string) returns (r: string)
    ensures r == Hash(s)
  {
    var units := CodeUnits(s);
    var h: int32 := 0;
    var i := 0;
    while i < |units|
      invariant 0 <= i <= |units|
      invariant h == HashAcc(units[..i])
    {
      assert units[..i + 1][..i] == units[..i];
      h := HashStep(h, units[i]);
      i := i + 1;
    }
    assert units[..i] == units;
    var hex := NatToHex(Abs(h));
    r := PadStart(hex[..Min(6, |hex|)], 6);
  }

  /** `generatePatientId(year, sex, region, index)`:
      `SHDB-{year}-{sex}-{region}-{hash(year + sex + region + index)}`. */
  function PatientId(year: int, sex: string, region: string, index: int): (r: string)
    ensures |r| == 5 + |IntToString(year)| + 1 + |sex| + 1 + |region| + 1 + 6
    ensures r[..5] == "SHDB-"
    ensures AllUpperHex(r[|r| - 6..])
  {
    var y := IntToString(year);
    var h := Hash(y + sex + region + IntToString(index));
    var prefix := "SHDB-" + (y + "-" + sex + "-" + region + "-");
    assert prefix[..5] == "SHDB-";
    var r := prefix + h;
    assert r[..5] == prefix[..5];
    assert r[|prefix|..] == h;
    r
  }

  // ---------------------------------------------------------------
  // String methods
  // ---------------------------------------------------------------

  /** The first index of `c` in `s`, if any (`indexOf`). */
  function IndexOf(s: string, c: char): (r: Option<nat>)
    ensures r.None? ==> c !in s
    ensures r.Some? ==> r.value < |s| && s[r.value] == c && c !in s[..r.value]
  {
    if |s| == 0 then None
    else if s[0] == c then Some(0)
    else match IndexOf(s[1..], c)
      case None => None
      case Some(k) => assert s[1..][..k] == s[1..k + 1]; Some(k + 1)
  }

  /** `indexOf` finds the first occurrence. */
  lemma IndexOfFirst(s: string, c: char, k: nat)
    requires k < |s| && s[k] == c && c !in s[..k]
    ensures IndexOf(s, c) == Some(k)
  {
    assert s[k] in s;
  }

  /** `s.replace(c, rep)` with a one-character pattern: only the first
      occurrence is replaced. */
  function ReplaceFirst(s: string, c: char, rep: string): string {
    match IndexOf(s, c)
    case None => s
    case Some(k) => s[..k] + rep + s[k + 1..]
  }

  /** `s.split(c)[0]`: the text before the first `c`, or all of `s`. */
  function BeforeFirst(s: string, c: char): (r: string)
    ensures c !in r
    ensures r <= s
  {
    match IndexOf(s, c)
    case None => s
    case Some(k) => s[..k]
  }

  /** `s.substring(0, n)`. */
  function Take(s: string, n: nat): string {
    s[..Min(n, |s|)]
  }

  predicate StartsWith(s: string, prefix: string) { prefix <= s }

  predicate EndsWith(s: string, suffix: string) {
    |suffix| <= |s| && s[|s| - |suffix|..] == suffix
  }

  /** `s.includes(t)`. */
  predicate Contains(s: string, t: string) {
    exists i | 0 <= i <= |s| :: t <= s[i..]
  }

  /** `list.join(sep)`. */
  function Join(parts: seq<string>, sep: string): string {
    if |parts| == 0 then ""
    else if |parts| == 1 then parts[0]
    else parts[0] + sep + Join(parts[1..], sep)
  }

  /** Lower-casing of one character: ASCII and the Latin-1 capitals (the
      letters of Spanish names). */
  function LowerChar(c: char): char {
    if 'A' <= c <= 'Z' || ('À' <= c <= 'Þ' && c != '×') then
      (c as int + 32) as char
    else c
  }

  function UpperChar(c: char): char {
    if 'a' <= c <= 'z' || ('à' <= c <= 'þ' && c != '÷') then
      (c as int - 32) as char
    else c
  }

  /** `toLowerCase()`. */
  function ToLower(s: string): (r: string)
    ensures |r| == |s| && forall i | 0 <= i < |s| :: r[i] == LowerChar(s[i])
  {
    if |s| == 0 then "" else [LowerChar(s[0])] + ToLower(s[1..])
  }

  /** A string whose characters are those of `s` lower-cased is
      `toLowerCase()` of `s`. */
  lemma LowerLetters(s: string, t: string)
    requires |s| == |t| && forall i | 0 <= i < |s| :: LowerChar(s[i]) == t[i]
    ensures ToLower(s) == t
  {
  }

  lemma LowerConcat(a: string, b: string)
    ensures ToLower(a + b) == ToLower(a) + ToLower(b)
  {
    assert forall i | 0 <= i < |a + b| :: ToLower(a + b)[i] == (ToLower(a) + ToLower(b))[i];
  }

  /** `toUpperCase()`. */
  function ToUpper(s: string): (r: string)
    ensures |r| == |s| && forall i | 0 <= i < |s| :: r[i] == UpperChar(s[i])
  {
    if |s| == 0 then "" else [UpperChar(s[0])] + ToUpper(s[1..])
  }
}
