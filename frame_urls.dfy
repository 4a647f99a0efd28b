/**
 * Frame names and frame URLs of the scroll animation (src/utils/imageOptimizer.ts,
 * `formatFrameNumber` and `generateFrameUrls`).
 *
 * A frame number is written with JavaScript's `Number.prototype.toString` and then
 * `padStart(4, '0')`; both are modelled here for integer frame numbers.  The parser
 * `ParseFrameNumber` reads such a name back, which gives the round trip from which the
 * distinctness of the generated URLs follows.
 */
module FrameUrls {
  import opened Common

  predicate IsDigit(c: char) {
    '0' <= c <= '9'
  }

  predicate AllDigits(s: string) {
    forall i :: 0 <= i < |s| ==> IsDigit(s[i])
  }

  function DigitChar(d: nat): (c: char)
    requires d < 10
    ensures IsDigit(c)
  {
    ('0' as int + d) as char
  }

  function DigitValue(c: char): (d: nat)
    requires IsDigit(c)
    ensures d < 10
  {
    c as int - '0' as int
  }

  /** The decimal digits of `n`, most significant first, without leading zeros. */
  function Digits(n: nat): (s: string)
    ensures 1 <= |s|
    ensures AllDigits(s)
    ensures 1 <= n ==> s[0] != '0'
    decreases n
  {
    if n < 10 then [DigitChar(n)] else Digits(n / 10) + [DigitChar(n % 10)]
  }

  /** `n.toString()` for an integer `n`: a minus sign for negative numbers, then the digits. */
  function DecimalString(n: int): string {
    if n < 0 then "-" + Digits(-n) else Digits(n)
  }

  /** The number a string of decimal digits denotes. */
  function DigitsValue(s: string): nat
    requires AllDigits(s)
  {
    if s == [] then 0 else DigitsValue(s[..|s| - 1]) * 10 + DigitValue(s[|s| - 1])
  }

  lemma {:induction false} DigitsRoundTrip(n: nat)
    ensures DigitsValue(Digits(n)) == n
    decreases n
  {
    if n >= 10 {
      var s := Digits(n);
      assert s[..|s| - 1] == Digits(n / 10);
      DigitsRoundTrip(n / 10);
    }
  }

  /** `k` copies of `c`. */
  function Repeat(c: char, k: nat): (r: string)
    ensures |r| == k
    ensures forall i :: 0 <= i < k ==> r[i] == c
  {
    seq(k, _ => c)
  }

  /** `s.padStart(width, fill)`: `fill` characters in front of `s` up to length `width`. */
  function PadStart(s: string, width: nat, fill: char): (r: string)
    ensures |r| == Max(|s|, width)
    ensures r[|r| - |s|..] == s
    ensures forall i :: 0 <= i < |r| - |s| ==> r[i] == fill
  {
    if |s| >= width then s else Repeat(fill, width - |s|) + s
  }

  /** `formatFrameNumber`: the frame number in decimal, zero-padded on the left to four characters. */
  function FormatFrameNumber(n: int): (s: string)
    ensures |s| == Max(|DecimalString(n)|, 4)
  {
    PadStart(DecimalString(n), 4, '0')
  }

  /**
   * Reads back a frame name: leading '0' padding, then either a minus sign and digits or
   * digits alone.  None for anything else.
   */
  function ParseFrameNumber(s: string): Option<int> {
    if |s| >= 2 && s[0] == '0' then ParseFrameNumber(s[1..])
    else if |s| >= 2 && s[0] == '-' && AllDigits(s[1..]) then Some(-(DigitsValue(s[1..]) as int))
    else if |s| >= 1 && AllDigits(s) then Some(DigitsValue(s) as int)
    else None
  }

  lemma {:induction false} ParseSkipsPadding(k: nat, t: string)
    requires t != []
    ensures ParseFrameNumber(Repeat('0', k) + t) == ParseFrameNumber(t)
  {
    if k > 0 {
      var s := Repeat('0', k) + t;
      assert |s| >= 2 && s[0] == '0';
      assert s[1..] == Repeat('0', k - 1) + t;
      assert ParseFrameNumber(s) == ParseFrameNumber(s[1..]);
      ParseSkipsPadding(k - 1, t);
    } else {
      assert Repeat('0', k) + t == t;
    }
  }

  lemma ParseDecimalString(n: int)
    ensures ParseFrameNumber(DecimalString(n)) == Some(n)
  {
    if n < 0 {
      var s := DecimalString(n);
      assert s[1..] == Digits(-n);
      DigitsRoundTrip(-n);
    } else {
      DigitsRoundTrip(n);
    }
  }

  /** Every frame name reads back as the frame number it was made from. */
  lemma FormatFrameNumberRoundTrip(n: int)
    ensures ParseFrameNumber(FormatFrameNumber(n)) == Some(n)
  {
    var d := DecimalString(n);
    var s := FormatFrameNumber(n);
    if |d| < 4 {
      assert s == Repeat('0', 4 - |d|) + d;
      ParseSkipsPadding(4 - |d|, d);
    }
    ParseDecimalString(n);
  }

  /** Non-negative frame numbers below 10000 become exactly four decimal digits denoting them. */
  lemma FormatFrameNumberIsPad4(n: int)
    requires 0 <= n < 10000
    ensures |FormatFrameNumber(n)| == 4 && AllDigits(FormatFrameNumber(n))
    ensures DigitsValue(FormatFrameNumber(n)) == n
  {
    var s := FormatFrameNumber(n);
    DigitsAtMostFour(n);
    FormatFrameNumberRoundTrip(n);
    PaddingDoesNotChangeValue(s);
  }

  lemma DigitsAtMostFour(n: nat)
    requires n < 10000
    ensures |Digits(n)| <= 4
  {
    if n >= 10 {
      assert |Digits(n / 10 / 10)| <= 2;
    }
  }

  lemma {:induction false} PaddingDoesNotChangeValue(s: string)
    requires |s| >= 1 && AllDigits(s)
    ensures ParseFrameNumber(s) == Some(DigitsValue(s) as int)
    decreases |s|
  {
    if |s| >= 2 && s[0] == '0' {
      PaddingDoesNotChangeValue(s[1..]);
      LeadingZeroValue(s);
    }
  }

  lemma {:induction false} LeadingZeroValue(s: string)
    requires |s| >= 1 && AllDigits(s) && s[0] == '0'
    ensures DigitsValue(s) == DigitsValue(s[1..])
    decreases |s|
  {
    if |s| >= 2 {
      assert s[..|s| - 1][1..] == s[1..][..|s| - 2];
      LeadingZeroValue(s[..|s| - 1]);
    }
  }

  /** The URL of frame `n` of the animation stored under `prefix`: `/<prefix>/<pad4(n)>.jpg`. */
  function FrameUrl(prefix: string, n: int): string {
    "/" + prefix + "/" + FormatFrameNumber(n) + ".jpg"
  }

  /** Recovers the frame number from a URL of the animation under `prefix`. */
  function FrameNumberOf(prefix: string, url: string): Option<int> {
    var head := "/" + prefix + "/";
    if |url| >= |head| + 4 && url[..|head|] == head && url[|url| - 4..] == ".jpg"
    then ParseFrameNumber(url[|head|..|url| - 4])
    else None
  }

  /** A frame URL names its frame: reading the number back gives the frame it was built for. */
  lemma FrameUrlRoundTrip(prefix: string, n: int)
    ensures FrameNumberOf(prefix, FrameUrl(prefix, n)) == Some(n)
  {
    var head := "/" + prefix + "/";
    var name := FormatFrameNumber(n);
    assert |name| >= 4;
    assert FrameUrl(prefix, n) == head + name + ".jpg";
    SplitThree(head, name, ".jpg");
    FormatFrameNumberRoundTrip(n);
  }

  lemma SplitThree(a: string, b: string, c: string)
    ensures (a + b + c)[..|a|] == a
    ensures (a + b + c)[|a + b + c| - |c|..] == c
    ensures (a + b + c)[|a|..|a + b + c| - |c|] == b
  {
  }

  /** The URLs of frames start, start + 1, ..., `total` of them (none when total <= 0). */
  function FrameUrlList(prefix: string, total: int, start: int): seq<string> {
    seq(Max(total, 0), k => FrameUrl(prefix, start + k))
  }

  /** Two frames of one animation never share a URL. */
  lemma FrameUrlsDiffer(prefix: string, m: int, n: int)
    requires m != n
    ensures FrameUrl(prefix, m) != FrameUrl(prefix, n)
  {
    FrameUrlRoundTrip(prefix, m);
    FrameUrlRoundTrip(prefix, n);
  }

  /** The URLs of different frames differ. */
  lemma FrameUrlListDistinct(prefix: string, total: int, start: int)
    ensures forall j, k :: 0 <= j < k < |FrameUrlList(prefix, total, start)| ==>
      FrameUrlList(prefix, total, start)[j] != FrameUrlList(prefix, total, start)[k]
  {
    var urls := FrameUrlList(prefix, total, start);
    forall j | 0 <= j < |urls|
      ensures FrameNumberOf(prefix, urls[j]) == Some(start + j)
    {
      FrameUrlRoundTrip(prefix, start + j);
    }
  }

  /**
   * `generateFrameUrls`: the URLs of frames startIndex, startIndex + 1, ... in that order,
   * `totalFrames` of them (none when totalFrames <= 0).
   */
  method GenerateFrameUrls(prefix: string, totalFrames: int, startIndex: int) returns (urls: seq<string>)
    ensures |urls| == Max(totalFrames, 0)
    ensures forall k :: 0 <= k < |urls| ==> urls[k] == FrameUrl(prefix, startIndex + k)
    ensures forall j, k :: 0 <= j < k < |urls| ==> urls[j] != urls[k]
    ensures urls == FrameUrlList(prefix, totalFrames, startIndex)
  {
    urls := [];
    var i := startIndex;
    while i < totalFrames + startIndex
      invariant startIndex <= i <= Max(totalFrames, 0) + startIndex
      invariant |urls| == i - startIndex
      invariant forall k :: 0 <= k < |urls| ==> urls[k] == FrameUrl(prefix, startIndex + k)
    {
      urls := urls + [FrameUrl(prefix, i)];
      i := i + 1;
    }
    assert urls == FrameUrlList(prefix, totalFrames, startIndex);
    FrameUrlListDistinct(prefix, totalFrames, startIndex);
  }
}
