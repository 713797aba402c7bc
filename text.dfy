/** The JavaScript string and number primitives the dashboard leans on:
    `String.prototype.split` with a one-character separator, `parseInt`
    without a radix, `parseFloat`, the decimal text of a whole number and
    `padStart(2, '0')`. Strings are sequences of characters; a number that
    is not there (`NaN`) is `None`. */
module Text {
  import opened Common

  // ---------------------------------------------------------------------
  // Characters
  // ---------------------------------------------------------------------

  predicate IsDigit(c: char)
  {
    '0' <= c <= '9'
  }

  function DigitValue(c: char): (d: nat)
    requires IsDigit(c)
    ensures d < 10
  {
    c as int - '0' as int
  }

  predicate IsHexDigit(c: char)
  {
    IsDigit(c) || 'a' <= c <= 'f' || 'A' <= c <= 'F'
  }

  function HexDigitValue(c: char): (d: nat)
    requires IsHexDigit(c)
    ensures d < 16
  {
    if IsDigit(c) then DigitValue(c)
    else if 'a' <= c <= 'f' then c as int - 'a' as int + 10
    else c as int - 'A' as int + 10
  }

  /** The white space and line terminators that `parseInt` and
      `parseFloat` skip before the number. */
  predicate IsSpace(c: char)
  {
    c == '\t' || c == '\n' || c == '\U{B}' || c == '\U{C}' || c == '\r' || c == ' '
    || c == '\U{A0}' || c == '\U{1680}' || ('\U{2000}' <= c <= '\U{200A}')
    || c == '\U{2028}' || c == '\U{2029}' || c == '\U{202F}' || c == '\U{205F}'
    || c == '\U{3000}' || c == '\U{FEFF}'
  }

  function TrimStart(s: string): (t: string)
    ensures |t| <= |s| && t == s[|s| - |t|..]
    ensures t == [] || !IsSpace(t[0])
  {
    if s != [] && IsSpace(s[0]) then TrimStart(s[1..]) else s
  }

  // ---------------------------------------------------------------------
  // split
  // ---------------------------------------------------------------------

  function FirstIndex(s: string, c: char): (i: nat)
    requires c in s
    ensures i < |s| && s[i] == c && c !in s[..i]
  {
    if s[0] == c then 0 else 1 + FirstIndex(s[1..], c)
  }

  /** `parts.join(sep)`. */
  function Join(parts: seq<string>, sep: char): string
  {
    if parts == [] then ""
    else if |parts| == 1 then parts[0]
    else parts[0] + [sep] + Join(parts[1..], sep)
  }

  /** `s.split(sep)`: the pieces between the separators, which joined back
      with the separator give `s` again. */
  function Split(s: string, sep: char): (parts: seq<string>)
    ensures |parts| >= 1
    ensures forall i :: 0 <= i < |parts| ==> sep !in parts[i]
    ensures Join(parts, sep) == s
    decreases |s|
  {
    if sep !in s then [s]
    else
      var i := FirstIndex(s, sep);
      var rest := Split(s[i + 1..], sep);
      assert s == s[..i] + [sep] + s[i + 1..];
      [s[..i]] + rest
  }

  /** Splitting the join of separator-free pieces gives the pieces back. */
  lemma {:induction false} SplitJoin(parts: seq<string>, sep: char)
    requires |parts| >= 1
    requires forall i :: 0 <= i < |parts| ==> sep !in parts[i]
    ensures Split(Join(parts, sep), sep) == parts
    decreases |parts|
  {
    if |parts| > 1 {
      var s := Join(parts, sep);
      assert s == parts[0] + [sep] + Join(parts[1..], sep);
      assert FirstIndex(s, sep) == |parts[0]| by {
        FirstIndexAfter(parts[0], sep, Join(parts[1..], sep));
      }
      assert s[|parts[0]| + 1..] == Join(parts[1..], sep);
      assert s[..|parts[0]|] == parts[0];
      SplitJoin(parts[1..], sep);
    }
  }

  lemma {:induction false} FirstIndexAfter(a: string, c: char, b: string)
    requires c !in a
    ensures FirstIndex(a + [c] + b, c) == |a|
    decreases |a|
  {
    if a != [] {
      assert (a + [c] + b)[1..] == a[1..] + [c] + b;
      FirstIndexAfter(a[1..], c, b);
    }
  }

  // ---------------------------------------------------------------------
  // Whole numbers and their text
  // ---------------------------------------------------------------------

  /** The length of the run of characters satisfying `p` at the start of `s`. */
  function RunLength(s: string, p: char -> bool): (n: nat)
    ensures n <= |s|
    ensures forall i :: 0 <= i < n ==> p(s[i])
    ensures n == |s| || !p(s[n])
  {
    if s != [] && p(s[0]) then 1 + RunLength(s[1..], p) else 0
  }

  function DecimalValue(ds: string): nat
    requires forall i :: 0 <= i < |ds| ==> IsDigit(ds[i])
  {
    if ds == [] then 0 else 10 * DecimalValue(ds[..|ds| - 1]) + DigitValue(ds[|ds| - 1])
  }

  function HexValue(ds: string): nat
    requires forall i :: 0 <= i < |ds| ==> IsHexDigit(ds[i])
  {
    if ds == [] then 0 else 16 * HexValue(ds[..|ds| - 1]) + HexDigitValue(ds[|ds| - 1])
  }

  function Pow10(k: nat): (p: nat)
    ensures p >= 1
  {
    if k == 0 then 1 else 10 * Pow10(k - 1)
  }

  /** `String(n)` for a whole number `n >= 0`. */
  function NatToString(n: nat): (s: string)
    ensures |s| >= 1
    ensures forall i :: 0 <= i < |s| ==> IsDigit(s[i])
    ensures DecimalValue(s) == n
    ensures |s| > 1 ==> s[0] != '0'
  {
    var d := ['0' + (n % 10) as char];
    if n < 10 then d
    else
      var s := NatToString(n / 10) + d;
      assert s[..|s| - 1] == NatToString(n / 10);
      s
  }

  /** `s.padStart(2, '0')`. */
  function PadStart2(s: string): (t: string)
    ensures |t| == if |s| >= 2 then |s| else 2
    ensures t[|t| - |s|..] == s
    ensures forall i :: 0 <= i < |t| - |s| ==> t[i] == '0'
  {
    if |s| >= 2 then s else if |s| == 1 then ['0'] + s else "00"
  }

  /** A number below 100 padded to two digits keeps its value. */
  lemma PadStart2Value(k: nat)
    requires k < 100
    ensures |PadStart2(NatToString(k))| == 2
    ensures forall i :: 0 <= i < 2 ==> IsDigit(PadStart2(NatToString(k))[i])
    ensures DecimalValue(PadStart2(NatToString(k))) == k
  {
    var s := NatToString(k);
    if k < 10 {
      var t := PadStart2(s);
      assert t[..1] == ['0'];
      assert ['0'][..0] == [];
    } else {
      assert s == NatToString(k / 10) + ['0' + (k % 10) as char];
    }
  }

  // ---------------------------------------------------------------------
  // parseInt and parseFloat
  // ---------------------------------------------------------------------

  function Signed(negative: bool, v: nat): int
  {
    if negative then -(v as int) else v
  }

  /** Reads one leading sign: whether it was `-`, and the text after it. */
  function SkipSign(t: string): (bool, string)
  {
    if t != [] && (t[0] == '-' || t[0] == '+') then (t[0] == '-', t[1..]) else (false, t)
  }

  /** The digits `parseInt` reads after the sign. With no radix (`hex`)
      a `0x` or `0X` prefix selects base 16; otherwise, and always with
      radix 10, the digits are decimal. The longest run of digits counts and
      no digit at all is `NaN`. */
  function UnsignedInt(u: string, hex: bool): Option<nat>
  {
    if hex && |u| >= 2 && u[0] == '0' && (u[1] == 'x' || u[1] == 'X') then
      var h := u[2..];
      var n := RunLength(h, IsHexDigit);
      if n == 0 then None else Some(HexValue(h[..n]))
    else
      var n := RunLength(u, IsDigit);
      if n == 0 then None else Some(DecimalValue(u[..n]))
  }

  /** `parseInt(s)` with no radix: white space is skipped, then one sign,
      then the digits. */
  function ParseInt(s: string): Option<int>
  {
    var (negative, u) := SkipSign(TrimStart(s));
    match UnsignedInt(u, true)
    case None => None
    case Some(v) => Some(Signed(negative, v))
  }

  /** `parseInt(s, 10)`. */
  function ParseInt10(s: string): Option<int>
  {
    var (negative, u) := SkipSign(TrimStart(s));
    match UnsignedInt(u, false)
    case None => None
    case Some(v) => Some(Signed(negative, v))
  }

  /** `parseInt(s, 10) || 0`. */
  function ParseInt10Or0(s: string): int
  {
    match ParseInt10(s)
    case Some(v) => v
    case None => 0
  }

  /** `parseInt(s) || 0`. */
  function ParseIntOr0(s: string): int
  {
    match ParseInt(s)
    case Some(v) => v
    case None => 0
  }

  /** The decimal number `parseFloat` reads after the sign: digits with at
      most one decimal point and at least one digit. */
  function UnsignedFloat(u: string): Option<real>
  {
    var i := RunLength(u, IsDigit);
    var whole := DecimalValue(u[..i]) as real;
    if i < |u| && u[i] == '.' then
      var f := u[i + 1..];
      var j := RunLength(f, IsDigit);
      if i == 0 && j == 0 then None
      else Some(whole + DecimalValue(f[..j]) as real / Pow10(j) as real)
    else if i == 0 then None
    else Some(whole)
  }

  /** `parseFloat(s)`: white space is skipped, then one sign, then the
      decimal number. */
  function ParseFloat(s: string): Option<real>
  {
    var (negative, u) := SkipSign(TrimStart(s));
    match UnsignedFloat(u)
    case None => None
    case Some(v) => Some(if negative then -v else v)
  }

  /** `parseFloat(s) || 0`. */
  function ParseFloatOr0(s: string): real
  {
    match ParseFloat(s)
    case Some(v) => v
    case None => 0.0
  }

  /** A text made only of decimal digits reads as its decimal value, both
      through `parseInt` and through `parseFloat`. */
  lemma ParseDigits(s: string)
    requires |s| >= 1
    requires forall i :: 0 <= i < |s| ==> IsDigit(s[i])
    ensures ParseInt(s) == Some(DecimalValue(s))
    ensures ParseInt10(s) == Some(DecimalValue(s))
    ensures ParseFloat(s) == Some(DecimalValue(s) as real)
  {
    ParseIntDigits(s);
    ParseInt10Digits(s);
    ParseFloatDigits(s);
  }

  lemma ParseIntDigits(s: string)
    requires |s| >= 1
    requires forall i :: 0 <= i < |s| ==> IsDigit(s[i])
    ensures ParseInt(s) == Some(DecimalValue(s))
  {
    DigitsReadWhole(s);
    UnsignedDigits(s, true);
  }

  lemma ParseInt10Digits(s: string)
    requires |s| >= 1
    requires forall i :: 0 <= i < |s| ==> IsDigit(s[i])
    ensures ParseInt10(s) == Some(DecimalValue(s))
  {
    DigitsReadWhole(s);
    UnsignedDigits(s, false);
  }

  lemma ParseFloatDigits(s: string)
    requires |s| >= 1
    requires forall i :: 0 <= i < |s| ==> IsDigit(s[i])
    ensures ParseFloat(s) == Some(DecimalValue(s) as real)
  {
    DigitsReadWhole(s);
    assert s[..|s|] == s;
  }

  /** Digits read as their decimal value, whatever the radix rule. */
  lemma UnsignedDigits(u: string, hex: bool)
    requires |u| >= 1
    requires forall i :: 0 <= i < |u| ==> IsDigit(u[i])
    ensures UnsignedInt(u, hex) == Some(DecimalValue(u))
  {
    assert !(hex && |u| >= 2 && u[0] == '0' && (u[1] == 'x' || u[1] == 'X')) by {
      if |u| >= 2 {
        assert IsDigit(u[1]);
      }
    }
    var n := RunLength(u, IsDigit);
    assert n == |u| by {
      DigitsReadWhole(u);
    }
    assert u[..n] == u;
  }

  /** A text of digits has no white space or sign to skip, and its run of
      digits is all of it. */
  lemma DigitsReadWhole(s: string)
    requires |s| >= 1
    requires forall i :: 0 <= i < |s| ==> IsDigit(s[i])
    ensures SkipSign(TrimStart(s)) == (false, s)
    ensures RunLength(s, IsDigit) == |s|
  {
    assert !IsSpace(s[0]);
    assert TrimStart(s) == s;
    assert SkipSign(s) == (false, s);
  }

  /** Reading back the text of a whole number gives the number. */
  lemma ParseIntNatToString(n: nat)
    ensures ParseInt(NatToString(n)) == Some(n)
    ensures ParseInt10(NatToString(n)) == Some(n)
    ensures ParseFloat(NatToString(n)) == Some(n as real)
  {
    ParseDigits(NatToString(n));
  }

  /** Reading back a number padded to two digits gives the number. */
  lemma ParseIntPadded(k: nat)
    requires k < 100
    ensures ParseInt10(PadStart2(NatToString(k))) == Some(k)
  {
    PadStart2Value(k);
    ParseDigits(PadStart2(NatToString(k)));
  }

  /** Text without any digit reads as `NaN`, which `|| 0` turns into 0. */
  lemma NoDigitsIsNaN(s: string)
    requires forall i :: 0 <= i < |s| ==> !IsDigit(s[i])
    ensures ParseInt(s) == None && ParseIntOr0(s) == 0
    ensures ParseInt10(s) == None && ParseInt10Or0(s) == 0
    ensures ParseFloat(s) == None && ParseFloatOr0(s) == 0.0
  {
    var (negative, u) := SkipSign(TrimStart(s));
    assert forall i :: 0 <= i < |u| ==> !IsDigit(u[i]);
    assert RunLength(u, IsDigit) == 0;
  }
}
