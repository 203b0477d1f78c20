/**
 * Names of the hero animation's frame files: frame number i becomes
 * String(i).padStart(3, '0') inside the asset path
 * "/assets/ezgif-frame-" + name + ".jpg".
 */
module FrameNaming {

  const PATH_PREFIX := "/assets/ezgif-frame-"
  const PATH_SUFFIX := ".jpg"
  /** Target length of the zero padding. */
  const NAME_WIDTH: nat := 3

  predicate IsDigit(c: char) {
    '0' <= c <= '9'
  }

  predicate AllDigits(s: string) {
    forall k :: 0 <= k < |s| ==> IsDigit(s[k])
  }

  function DigitValue(c: char): nat
    requires IsDigit(c)
  {
    c as int - '0' as int
  }

  function DigitChar(d: nat): (c: char)
    requires d < 10
    ensures IsDigit(c) && DigitValue(c) == d
  {
    ('0' as int + d) as char
  }

  /** A sequence of `n` copies of `c`. */
  function Repeat(c: char, n: nat): (s: string)
    ensures |s| == n
    ensures forall k :: 0 <= k < n ==> s[k] == c
  {
    if n == 0 then [] else [c] + Repeat(c, n - 1)
  }

  /** JavaScript's String(n) for a non-negative integer: its decimal digits. */
  function DecimalString(n: nat): (s: string)
    ensures 1 <= |s| && AllDigits(s)
    ensures n > 0 ==> s[0] != '0'
  {
    if n < 10 then [DigitChar(n)] else DecimalString(n / 10) + [DigitChar(n % 10)]
  }

  /** The value of a string of decimal digits (an empty string is 0). */
  function ParseDecimal(s: string): nat
    requires AllDigits(s)
  {
    if s == [] then 0 else ParseDecimal(s[..|s| - 1]) * 10 + DigitValue(s[|s| - 1])
  }

  /** JavaScript's s.padStart(width, fill) for a one-character `fill`. */
  function PadStart(s: string, width: nat, fill: char): (r: string)
    ensures |r| == if |s| >= width then |s| else width
    ensures r[|r| - |s|..] == s
    ensures forall k :: 0 <= k < |r| - |s| ==> r[k] == fill
  {
    if |s| >= width then s else Repeat(fill, width - |s|) + s
  }

  /** The frame's number as it appears in its file name. */
  function FrameName(i: nat): string {
    PadStart(DecimalString(i), NAME_WIDTH, '0')
  }

  /** The URL the player requests for frame number i. */
  function FramePath(i: nat): string {
    PATH_PREFIX + FrameName(i) + PATH_SUFFIX
  }

  lemma {:induction false} ParseDecimalString(n: nat)
    ensures ParseDecimal(DecimalString(n)) == n
  {
    if n >= 10 {
      var s := DecimalString(n);
      assert s[..|s| - 1] == DecimalString(n / 10);
      ParseDecimalString(n / 10);
    }
  }

  lemma {:induction false} ParseZeros(k: nat)
    ensures AllDigits(Repeat('0', k)) && ParseDecimal(Repeat('0', k)) == 0
  {
    if k > 0 {
      var z := Repeat('0', k);
      assert z[..k - 1] == Repeat('0', k - 1);
      ParseZeros(k - 1);
    }
  }

  /** Leading zeros do not change a decimal string's value. */
  lemma {:induction false} ParseLeadingZeros(k: nat, s: string)
    requires AllDigits(s)
    ensures AllDigits(Repeat('0', k) + s)
    ensures ParseDecimal(Repeat('0', k) + s) == ParseDecimal(s)
  {
    var t := Repeat('0', k) + s;
    if s == [] {
      assert t == Repeat('0', k);
      ParseZeros(k);
    } else {
      assert t[..|t| - 1] == Repeat('0', k) + s[..|s| - 1];
      ParseLeadingZeros(k, s[..|s| - 1]);
    }
  }

  /** A number has at most three decimal digits exactly when it is below 1000. */
  lemma {:induction false} DecimalLength(n: nat)
    ensures |DecimalString(n)| <= 3 <==> n < 1000
  {
    if n >= 10 {
      DecimalLength(n / 10);
      if n / 10 < 10 {
        assert |DecimalString(n)| == 2;
      }
    }
  }

  /**
   * Every frame name is all digits, at least three characters long (exactly
   * three below 1000) and reads back as the frame number.
   */
  lemma FrameNameSpec(i: nat)
    ensures AllDigits(FrameName(i))
    ensures |FrameName(i)| >= NAME_WIDTH
    ensures |FrameName(i)| == NAME_WIDTH <==> i < 1000
    ensures ParseDecimal(FrameName(i)) == i
  {
    var d := DecimalString(i);
    DecimalLength(i);
    ParseDecimalString(i);
    if |d| < NAME_WIDTH {
      ParseLeadingZeros(NAME_WIDTH - |d|, d);
    }
  }

  /** Distinct frames get distinct names. */
  lemma FrameNameInjective(i: nat, j: nat)
    requires FrameName(i) == FrameName(j)
    ensures i == j
  {
    FrameNameSpec(i);
    FrameNameSpec(j);
  }

  /** For the frames the player loads (below 1000) the path has a fixed shape. */
  lemma FramePathShape(i: nat)
    requires i < 1000
    ensures |FramePath(i)| == |PATH_PREFIX| + NAME_WIDTH + |PATH_SUFFIX|
    ensures FramePath(i)[..|PATH_PREFIX|] == PATH_PREFIX
    ensures FramePath(i)[|PATH_PREFIX|..|PATH_PREFIX| + NAME_WIDTH] == FrameName(i)
    ensures FramePath(i)[|PATH_PREFIX| + NAME_WIDTH..] == PATH_SUFFIX
  {
    FrameNameSpec(i);
  }

  /** Distinct frames are requested from distinct URLs. */
  lemma FramePathInjective(i: nat, j: nat)
    requires FramePath(i) == FramePath(j)
    ensures i == j
  {
    var a, b := FrameName(i), FrameName(j);
    FrameNameSpec(i);
    FrameNameSpec(j);
    assert |a| == |b|;
    assert a == FramePath(i)[|PATH_PREFIX|..|PATH_PREFIX| + |a|];
    assert b == FramePath(j)[|PATH_PREFIX|..|PATH_PREFIX| + |b|];
    FrameNameInjective(i, j);
  }

  /** The first and last frames of the sequence, as the player names them. */
  lemma FirstAndLastNames()
    ensures FrameName(30) == "030"
    ensures FrameName(192) == "192"
    ensures FramePath(30) == "/assets/ezgif-frame-030.jpg"
  {
    assert DecimalString(3) == "3";
    assert DecimalString(30) == "30";
    assert DecimalString(19) == "19";
    assert DecimalString(192) == "192";
  }
}
