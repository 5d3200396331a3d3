/**
 * The two Ruby string operations the shapefile loader relies on besides
 * split: String#strip (used on the `which shp2pgsql` output and on the last
 * normalizer field) and Integer#to_s (used on the clock value in the
 * staging table name).
 */
module RubyText {

  /** Characters String#lstrip removes: space, \t, \n, \v, \f and \r. */
  predicate IsLeadingBlank(c: char) {
    c == ' ' || c == '\t' || c == '\n' || c == '\U{B}' || c == '\U{C}' || c == '\r'
  }

  /** Characters String#rstrip removes: the blanks above and also NUL. */
  predicate IsTrailingBlank(c: char) {
    IsLeadingBlank(c) || c == '\0'
  }

  /** String#lstrip: what is left of `s` once its leading blanks are removed. */
  function LStrip(s: string): (r: string)
    ensures |r| <= |s|
  {
    if s != [] && IsLeadingBlank(s[0]) then LStrip(s[1..]) else s
  }

  /** lstrip keeps the longest suffix of `s` that does not start with a blank. */
  lemma {:induction false} LStripSuffix(s: string)
    ensures var r := LStrip(s);
      && r == s[|s| - |r|..]
      && (forall k :: 0 <= k < |s| - |r| ==> IsLeadingBlank(s[k]))
      && (r == [] || !IsLeadingBlank(r[0]))
  {
    if s != [] && IsLeadingBlank(s[0]) {
      LStripSuffix(s[1..]);
      var r := LStrip(s);
      forall k | 1 <= k < |s| - |r| ensures IsLeadingBlank(s[k]) {
        assert s[k] == s[1..][k - 1];
      }
    }
  }

  /** String#rstrip: what is left of `s` once its trailing blanks and NULs are removed. */
  function RStrip(s: string): (r: string)
    ensures |r| <= |s|
  {
    if s != [] && IsTrailingBlank(s[|s| - 1]) then RStrip(s[..|s| - 1]) else s
  }

  /** rstrip keeps the longest prefix of `s` that does not end with a blank or NUL. */
  lemma {:induction false} RStripPrefix(s: string)
    ensures var r := RStrip(s);
      && r == s[..|r|]
      && (forall k :: |r| <= k < |s| ==> IsTrailingBlank(s[k]))
      && (r == [] || !IsTrailingBlank(r[|r| - 1]))
  {
    if s != [] && IsTrailingBlank(s[|s| - 1]) {
      var p := s[..|s| - 1];
      RStripPrefix(p);
      var r := RStrip(s);
      assert r == p[..|r|];
      forall k | |r| <= k < |s| - 1 ensures IsTrailingBlank(s[k]) {
        assert s[k] == p[k];
      }
    }
  }

  /** String#strip: lstrip, then rstrip of what is left. */
  function Strip(s: string): string {
    RStrip(LStrip(s))
  }

  /**
   * What strip removes and keeps: the result is the piece of `s` that
   * starts after the leading blanks, it neither starts nor ends with a
   * blank, and everything removed after it is a blank or NUL.
   */
  lemma StripKeepsMiddle(s: string)
    ensures var i := |s| - |LStrip(s)|; var r := Strip(s);
      && i + |r| <= |s|
      && r == s[i..i + |r|]
      && (forall k :: 0 <= k < i ==> IsLeadingBlank(s[k]))
      && (forall k :: i + |r| <= k < |s| ==> IsTrailingBlank(s[k]))
      && (r == [] || (!IsLeadingBlank(r[0]) && !IsTrailingBlank(r[|r| - 1])))
  {
    var l := LStrip(s);
    var i := |s| - |l|;
    var r := RStrip(l);
    LStripSuffix(s);
    RStripPrefix(l);
    assert r == l[..|r|];
    assert l == s[i..];
    forall k | i + |r| <= k < |s| ensures IsTrailingBlank(s[k]) {
      assert s[k] == l[k - i];
    }
  }

  /** Stripping twice is stripping once. */
  lemma StripIdempotent(s: string)
    ensures Strip(Strip(s)) == Strip(s)
  {
    var r := Strip(s);
    StripKeepsMiddle(s);
    assert LStrip(r) == r;
    RStripPrefix(r);
  }

  /** `c` occurs nowhere in `s`. */
  predicate Absent(c: char, s: string) {
    forall k :: 0 <= k < |s| ==> s[k] != c
  }

  /** Index of the first `c` in `s` at or after `from`, or |s| when there is none. */
  function IndexFrom(s: string, c: char, from: nat): (i: nat)
    requires from <= |s|
    ensures from <= i <= |s|
    ensures i < |s| ==> s[i] == c
    decreases |s| - from
  {
    if from == |s| || s[from] == c then from else IndexFrom(s, c, from + 1)
  }

  /** Index of the first `c` in `s`, or |s| when there is none. */
  function IndexOf(s: string, c: char): (i: nat)
    ensures i <= |s|
    ensures i < |s| ==> s[i] == c
  {
    IndexFrom(s, c, 0)
  }

  /** No `c` lies between `from` and the index IndexFrom finds. */
  lemma {:induction false} IndexFromFirst(s: string, c: char, from: nat)
    requires from <= |s|
    ensures forall k :: from <= k < IndexFrom(s, c, from) ==> s[k] != c
    decreases |s| - from
  {
    if from < |s| && s[from] != c {
      IndexFromFirst(s, c, from + 1);
    }
  }

  /** No `c` comes before the one IndexOf finds. */
  lemma IndexOfFirst(s: string, c: char)
    ensures Absent(c, s[..IndexOf(s, c)])
  {
    IndexFromFirst(s, c, 0);
  }

  /** IndexFrom stops no later than any `c` at or after `from`. */
  lemma {:induction false} IndexFromAtMost(s: string, c: char, from: nat, k: nat)
    requires from <= k < |s| && s[k] == c
    ensures IndexFrom(s, c, from) <= k
    decreases |s| - from
  {
    if s[from] != c {
      IndexFromAtMost(s, c, from + 1, k);
    }
  }

  /** The first `c` comes no later than any `c`. */
  lemma IndexOfAtMost(s: string, c: char, k: nat)
    requires k < |s| && s[k] == c
    ensures IndexOf(s, c) <= k
  {
    IndexFromAtMost(s, c, 0, k);
  }

  /** From any point of a stretch without `c`, IndexFrom reaches the `c` that ends it. */
  lemma {:induction false} IndexFromReaches(s: string, c: char, from: nat, i: nat)
    requires from <= i < |s| && s[i] == c
    requires forall k :: from <= k < i ==> s[k] != c
    ensures IndexFrom(s, c, from) == i
    decreases i - from
  {
    if from < i {
      IndexFromReaches(s, c, from + 1, i);
    }
  }

  /** The first `c` of `p + [c] + q` is the one after `p` when `p` has none. */
  lemma IndexOfAfter(p: string, c: char, q: string)
    requires Absent(c, p)
    ensures IndexOf(p + [c] + q, c) == |p|
  {
    var s := p + [c] + q;
    forall k | 0 <= k < |p| ensures s[k] != c {
      assert s[k] == p[k];
    }
    IndexFromReaches(s, c, 0, |p|);
  }

  // ----- Integer#to_s -----

  predicate IsDigit(c: char) {
    '0' <= c <= '9'
  }

  function DigitChar(d: nat): (c: char)
    requires d < 10
    ensures IsDigit(c) && DigitValue(c) == d
  {
    (('0' as int) + d) as char
  }

  /** The decimal digits of `n`, most significant first, without leading zeros. */
  function NatToDecimal(n: nat): (r: string)
    ensures |r| >= 1
    ensures forall k :: 0 <= k < |r| ==> IsDigit(r[k])
    ensures |r| > 1 ==> r[0] != '0'
    decreases n
  {
    if n < 10 then [DigitChar(n)] else NatToDecimal(n / 10) + [DigitChar(n % 10)]
  }

  /** The number a string of decimal digits denotes. */
  function DecimalValue(s: string): nat
    requires forall k :: 0 <= k < |s| ==> IsDigit(s[k])
  {
    if s == [] then 0
    else 10 * DecimalValue(s[..|s| - 1]) + DigitValue(s[|s| - 1])
  }

  function DigitValue(c: char): nat
    requires IsDigit(c)
  {
    assert '0' as int <= c as int;
    (c as int) - ('0' as int)
  }

  /** Reading back the digits of `n` gives `n`. */
  lemma {:induction false} DecimalRoundTrip(n: nat)
    ensures DecimalValue(NatToDecimal(n)) == n
    decreases n
  {
    if n >= 10 {
      DecimalRoundTrip(n / 10);
      var r := NatToDecimal(n);
      assert r[..|r| - 1] == NatToDecimal(n / 10);
    }
  }

  /** Integer#to_s: a minus sign for negative numbers, then the digits. */
  function IntToDecimal(n: int): string {
    if n < 0 then "-" + NatToDecimal(-n) else NatToDecimal(n)
  }

  /** Integer#to_s never yields an underscore, and it is never empty. */
  lemma IntToDecimalAlphabet(n: int)
    ensures |IntToDecimal(n)| >= 1
    ensures forall k :: 0 <= k < |IntToDecimal(n)| ==> IntToDecimal(n)[k] == '-' || IsDigit(IntToDecimal(n)[k])
  {
  }

  /** The printed form starts with a minus sign exactly for negative numbers. */
  lemma IntToDecimalSign(n: int)
    ensures (IntToDecimal(n)[0] == '-') == (n < 0)
  {
    if n >= 0 {
      assert IsDigit(NatToDecimal(n)[0]);
    }
  }

  /** Behind the sign of a negative number come the digits of its magnitude. */
  lemma NegativeDigits(n: int)
    requires n < 0
    ensures |IntToDecimal(n)| >= 1 && IntToDecimal(n)[1..] == NatToDecimal(-n)
  {
    assert IntToDecimal(n) == "-" + NatToDecimal(-n);
  }

  /** Different naturals have different digits. */
  lemma NatToDecimalInjective(a: nat, b: nat)
    requires NatToDecimal(a) == NatToDecimal(b)
    ensures a == b
  {
    DecimalRoundTrip(a);
    DecimalRoundTrip(b);
  }

  /** Different integers print differently. */
  lemma IntToDecimalInjective(a: int, b: int)
    requires IntToDecimal(a) == IntToDecimal(b)
    ensures a == b
  {
    IntToDecimalSign(a);
    IntToDecimalSign(b);
    if a < 0 {
      NegativeDigits(a);
      NegativeDigits(b);
      NatToDecimalInjective(-a, -b);
    } else {
      NatToDecimalInjective(a, b);
    }
  }
}
