/**
 * The slice of .NET text handling the library leans on: decimal rendering of
 * integers (`ToString()`, the "D<n>" format), `PadLeft`/`PadRight`, parsing of
 * decimal digit strings (`int.Parse`/`int.TryParse` on the strings the library
 * builds) and `ToUpper` restricted to ASCII.
 */
module Text {
  import opened Wrappers

  predicate IsDigit(c: char) { '0' <= c <= '9' }

  predicate IsDigits(s: string) { forall i :: 0 <= i < |s| ==> IsDigit(s[i]) }

  /** The letters the model admits where the grammar asks for a letter: ASCII only. */
  predicate IsLetter(c: char) { 'A' <= c <= 'Z' || 'a' <= c <= 'z' }

  predicate IsUpperLetter(c: char) { 'A' <= c <= 'Z' }

  function Pow10(k: nat): (r: nat)
    ensures r >= 1
  {
    if k == 0 then 1 else 10 * Pow10(k - 1)
  }

  function DigitChar(d: int): (c: char)
    requires 0 <= d < 10
    ensures IsDigit(c)
  {
    ('0' as int + d) as char
  }

  function DigitValue(c: char): (d: int)
    requires IsDigit(c)
    ensures 0 <= d < 10
  {
    c as int - '0' as int
  }

  /** `count` copies of `c`. */
  function Repeat(c: char, count: nat): (s: string)
    ensures |s| == count
    ensures forall i :: 0 <= i < count ==> s[i] == c
  {
    seq(count, _ => c)
  }

  /** `String.PadLeft(width, c)`. */
  function PadLeft(s: string, width: nat, c: char): (r: string)
    ensures |s| >= width ==> r == s
    ensures |s| < width ==> r == Repeat(c, width - |s|) + s
  {
    if |s| >= width then s else Repeat(c, width - |s|) + s
  }

  /** `String.PadRight(width, c)`. */
  function PadRight(s: string, width: nat, c: char): (r: string)
    ensures |s| >= width ==> r == s
    ensures |s| < width ==> r == s + Repeat(c, width - |s|)
  {
    if |s| >= width then s else s + Repeat(c, width - |s|)
  }

  /** The decimal digits of `n`, most significant first, without leading zeros ("0" for zero). */
  function Digits(n: nat): (s: string)
    ensures |s| >= 1 && IsDigits(s)
  {
    if n < 10 then [DigitChar(n)] else Digits(n / 10) + [DigitChar(n % 10)]
  }

  /**
   * .NET's "D<width>" integer format: a minus sign for negative values, then the
   * digits of the magnitude left-padded with '0' to at least `width` digits.
   * `FormatD(v, 0)` is plain `v.ToString()`.
   */
  function FormatD(v: int, width: nat): (s: string)
    ensures |s| >= width
  {
    var magnitude := PadLeft(Digits(if v < 0 then -v else v), width, '0');
    if v < 0 then "-" + magnitude else magnitude
  }

  /** The value of a string of ASCII digits, most significant first. */
  function ValueOf(s: string): nat
    requires IsDigits(s)
  {
    if s == [] then 0 else ValueOf(s[..|s| - 1]) * 10 + DigitValue(s[|s| - 1])
  }

  /**
   * `int.TryParse` on a string without sign or white space: it succeeds exactly
   * on a non-empty run of ASCII digits (a decimal digit of another script is
   * refused).
   */
  function ParseDigits(s: string): (r: Option<nat>)
    ensures r.Some? <==> s != [] && IsDigits(s)
    ensures r.Some? ==> r.value < Pow10(|s|)
  {
    if s != [] && IsDigits(s) then ValueOfBound(s); Some(ValueOf(s)) else None
  }

  /** `int.Parse` on an optional minus sign followed by ASCII digits. */
  function ParseSigned(s: string): (r: Option<int>)
    ensures r.Some? <==> (s != [] && IsDigits(s)) || (|s| > 1 && s[0] == '-' && IsDigits(s[1..]))
  {
    if |s| > 0 && s[0] == '-' then
      match ParseDigits(s[1..])
      case Some(m) => Some(-(m as int))
      case None => None
    else
      match ParseDigits(s)
      case Some(m) => Some(m as int)
      case None => None
  }

  function UpperChar(c: char): (u: char)
  {
    if 'a' <= c <= 'z' then (c as int - 32) as char else c
  }

  /** `String.ToUpper()`, restricted to the ASCII letters. */
  function Upper(s: string): (u: string)
    ensures |u| == |s|
  {
    seq(|s|, i requires 0 <= i < |s| => UpperChar(s[i]))
  }

  // ---------------------------------------------------------------- lemmas

  lemma UpperIdempotent(s: string)
    ensures Upper(Upper(s)) == Upper(s)
  {
  }

  /** Upper-casing leaves digits, spaces and capitals alone. */
  lemma {:induction false} UpperKeeps(s: string)
    requires forall i :: 0 <= i < |s| ==> !('a' <= s[i] <= 'z')
    ensures Upper(s) == s
  {
    assert forall i :: 0 <= i < |s| ==> Upper(s)[i] == s[i];
  }

  lemma {:induction false} Pow10Add(a: nat, b: nat)
    ensures Pow10(a + b) == Pow10(a) * Pow10(b)
  {
    if a > 0 {
      Pow10Add(a - 1, b);
    }
  }

  lemma {:induction false} ValueOfBound(s: string)
    requires IsDigits(s)
    ensures ValueOf(s) < Pow10(|s|)
  {
    if s != [] {
      ValueOfBound(s[..|s| - 1]);
    }
  }

  /** Appending digits shifts the prefix left by their count. */
  lemma ShiftDigit(high: int, low: int, scale: int, d: int)
    ensures (high * scale + low) * 10 + d == high * (scale * 10) + (low * 10 + d)
  {
  }

  lemma {:induction false} ValueOfAppend(a: string, b: string)
    requires IsDigits(a) && IsDigits(b)
    ensures IsDigits(a + b)
    ensures ValueOf(a + b) == ValueOf(a) * Pow10(|b|) + ValueOf(b)
  {
    if b == [] {
      assert a + b == a;
    } else {
      var b' := b[..|b| - 1];
      var d := DigitValue(b[|b| - 1]);
      assert (a + b)[..|a + b| - 1] == a + b';
      assert (a + b)[|a + b| - 1] == b[|b| - 1];
      ValueOfAppend(a, b');
      assert Pow10(|b|) == Pow10(|b'|) * 10;
      assert ValueOf(b) == ValueOf(b') * 10 + d;
      ShiftDigit(ValueOf(a), ValueOf(b'), Pow10(|b'|), d);
    }
  }

  lemma {:induction false} ValueOfZeros(k: nat)
    ensures IsDigits(Repeat('0', k)) && ValueOf(Repeat('0', k)) == 0
  {
    if k > 0 {
      assert Repeat('0', k)[..k - 1] == Repeat('0', k - 1);
      ValueOfZeros(k - 1);
    }
  }

  /** Rendering then reading back a natural number is the identity. */
  lemma {:induction false} ValueOfDigits(n: nat)
    ensures ValueOf(Digits(n)) == n
  {
    if n >= 10 {
      var s := Digits(n);
      assert s[..|s| - 1] == Digits(n / 10);
      ValueOfDigits(n / 10);
    }
  }

  /** `n` has at most `k` digits exactly when it is below 10^k. */
  lemma {:induction false} DigitsLength(n: nat, k: nat)
    requires k >= 1
    ensures |Digits(n)| <= k <==> n < Pow10(k)
  {
    if n >= 10 {
      if k == 1 {
        assert Pow10(1) == 10;
        assert |Digits(n)| >= 2;
      } else {
        DigitsLength(n / 10, k - 1);
      }
    }
  }

  /** Leading zeros do not change the value of a digit string. */
  lemma ValueOfPadLeft(s: string, width: nat)
    requires IsDigits(s)
    ensures IsDigits(PadLeft(s, width, '0'))
    ensures ValueOf(PadLeft(s, width, '0')) == ValueOf(s)
  {
    if |s| < width {
      ValueOfZeros(width - |s|);
      ValueOfAppend(Repeat('0', width - |s|), s);
    }
  }

  /** Trailing zeros multiply the value of a digit string by a power of ten. */
  lemma ValueOfPadRight(s: string, width: nat)
    requires IsDigits(s)
    ensures IsDigits(PadRight(s, width, '0'))
    ensures ValueOf(PadRight(s, width, '0'))
         == ValueOf(s) * Pow10(if |s| < width then width - |s| else 0)
  {
    if |s| < width {
      ValueOfZeros(width - |s|);
      ValueOfAppend(s, Repeat('0', width - |s|));
    }
  }

  /** A minus sign before a digit string reads as the negated value. */
  lemma ParseNegative(t: string)
    requires t != [] && IsDigits(t)
    ensures ParseSigned("-" + t) == Some(-(ValueOf(t) as int))
  {
    assert ("-" + t)[1..] == t;
  }

  /** Right padding passes over a leading character. */
  lemma PadRightAfter(c: char, s: string, width: nat, fill: char)
    ensures PadRight([c] + s, width + 1, fill) == [c] + PadRight(s, width, fill)
  {
  }

  /** The "D<width>" rendering of a natural number is a digit string of that value. */
  lemma FormatDNatural(v: nat, width: nat)
    ensures IsDigits(FormatD(v, width))
    ensures ValueOf(FormatD(v, width)) == v
    ensures |FormatD(v, width)| == if |Digits(v)| < width then width else |Digits(v)|
  {
    ValueOfPadLeft(Digits(v), width);
    ValueOfDigits(v);
  }

  /** A digit string splits into a leading part and a remainder below 10^(length of the rest). */
  lemma ValueOfSplit(s: string, k: nat)
    requires IsDigits(s) && k <= |s|
    ensures ValueOf(s) == ValueOf(s[..k]) * Pow10(|s| - k) + ValueOf(s[k..])
    ensures ValueOf(s[k..]) < Pow10(|s| - k)
  {
    assert s == s[..k] + s[k..];
    ValueOfAppend(s[..k], s[k..]);
    ValueOfBound(s[k..]);
  }

  /** A number below 100 in the "D2" format is exactly its tens digit and its units digit. */
  lemma FormatDTwoDigits(n: int)
    requires 0 <= n < 100
    ensures FormatD(n, 2) == [DigitChar(n / 10), DigitChar(n % 10)]
  {
    if n >= 10 {
      assert Digits(n) == Digits(n / 10) + [DigitChar(n % 10)];
    } else {
      assert Repeat('0', 1) == [DigitChar(0)];
    }
  }
}
