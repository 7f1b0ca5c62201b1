/** Strings and integers as Python's str(), format specifications, str.strip and
    str comparison treat them. Strings are sequences of Unicode code points. */
module Text {

  predicate IsDigit(c: char) { '0' <= c <= '9' }

  predicate AllDigits(s: string) { forall i :: 0 <= i < |s| ==> IsDigit(s[i]) }

  /** The decimal digit character for d. */
  function DigitChar(d: nat): (c: char)
    requires d < 10
    ensures IsDigit(c) && c as int - '0' as int == d
  {
    ('0' as int + d) as char
  }

  /** str(n) for a non-negative integer: decimal digits, no leading zero. */
  function NatStr(n: nat): (s: string)
    ensures 1 <= |s| && AllDigits(s)
    decreases n
  {
    if n < 10 then [DigitChar(n)] else NatStr(n / 10) + [DigitChar(n % 10)]
  }

  /** int(s) for a string of decimal digits (the empty string reads as 0). */
  function ParseNat(s: string): nat
    requires AllDigits(s)
  {
    if s == [] then 0 else ParseNat(s[..|s| - 1]) * 10 + (s[|s| - 1] as int - '0' as int)
  }

  /** Reading the digits of n back gives n. */
  lemma {:induction false} ParseNatStr(n: nat)
    ensures ParseNat(NatStr(n)) == n
    decreases n
  {
    if n >= 10 {
      var s := NatStr(n);
      assert s[..|s| - 1] == NatStr(n / 10);
      ParseNatStr(n / 10);
    }
  }

  /** Different numbers have different decimal representations. */
  lemma NatStrInjective(a: nat, b: nat)
    requires NatStr(a) == NatStr(b)
    ensures a == b
  {
    ParseNatStr(a);
    ParseNatStr(b);
  }

  function Repeat(c: char, k: nat): (s: string)
    ensures |s| == k && forall i :: 0 <= i < k ==> s[i] == c
  {
    seq(k, _ => c)
  }

  /** Leading zeros do not change the value of a digit string. */
  lemma {:induction false} ParseNatLeadingZeros(k: nat, s: string)
    requires AllDigits(s)
    ensures AllDigits(Repeat('0', k) + s) && ParseNat(Repeat('0', k) + s) == ParseNat(s)
    decreases |s|, k
  {
    var z := Repeat('0', k);
    if s == [] {
      assert z + s == z;
      if k > 0 {
        assert z[..k - 1] == Repeat('0', k - 1);
        ParseNatLeadingZeros(k - 1, s);
        assert Repeat('0', k - 1) + s == Repeat('0', k - 1);
      }
    } else {
      var t := z + s;
      assert t[..|t| - 1] == z + s[..|s| - 1];
      ParseNatLeadingZeros(k, s[..|s| - 1]);
    }
  }

  /** Python's format(n, '0Nd') for n >= 0: the digits of n, left-padded with
      zeros to at least `width` characters. */
  function ZeroPad(n: nat, width: nat): string
  {
    var digits := NatStr(n);
    Repeat('0', if |digits| < width then width - |digits| else 0) + digits
  }

  /** The padded string has the larger of width and the number of digits of
      n as its length, and reads back as n. */
  lemma ZeroPadSpec(n: nat, width: nat)
    ensures var s := ZeroPad(n, width);
            && |s| == (if |NatStr(n)| < width then width else |NatStr(n)|)
            && AllDigits(s) && ParseNat(s) == n
  {
    var digits := NatStr(n);
    ParseNatStr(n);
    ParseNatLeadingZeros(if |digits| < width then width - |digits| else 0, digits);
  }

  /** Different numbers stay different after zero padding to the same width. */
  lemma ZeroPadInjective(a: nat, b: nat, width: nat)
    requires ZeroPad(a, width) == ZeroPad(b, width)
    ensures a == b
  {
    ZeroPadSpec(a, width);
    ZeroPadSpec(b, width);
  }

  /** str(i) for any integer. */
  function IntStr(i: int): (s: string)
    ensures i >= 0 ==> s == NatStr(i)
    ensures i < 0 ==> s == "-" + NatStr(-i)
  {
    if i >= 0 then NatStr(i) else "-" + NatStr(-i)
  }

  /** Python's format(i, '02d'): the sign counts towards the width, so a
      negative value is its sign followed by at least one digit. */
  function IntPad2(i: int): string
  {
    if i >= 0 then ZeroPad(i, 2) else "-" + ZeroPad(-i, 1)
  }

  // ---------------------------------------------------------------------------
  // Prefixes, suffixes and str comparison

  predicate StartsWith(s: string, prefix: string)
  {
    |prefix| <= |s| && s[..|prefix|] == prefix
  }

  predicate EndsWith(s: string, suffix: string)
  {
    |suffix| <= |s| && s[|s| - |suffix|..] == suffix
  }

  /** Python's a < b on str: code-point lexicographic order, where a proper
      prefix is smaller. (Dafny's own < on sequences means "proper prefix".) */
  predicate LexLess(a: string, b: string)
  {
    if |a| == 0 then |b| > 0
    else if |b| == 0 then false
    else a[0] < b[0] || (a[0] == b[0] && LexLess(a[1..], b[1..]))
  }

  lemma LexIrreflexive(a: string)
    ensures !LexLess(a, a)
  {
  }

  lemma LexAsymmetric(a: string, b: string)
    ensures !(LexLess(a, b) && LexLess(b, a))
  {
  }

  lemma LexTransitive(a: string, b: string, c: string)
    requires LexLess(a, b) && LexLess(b, c)
    ensures LexLess(a, c)
  {
  }

  lemma {:induction false} LexTotal(a: string, b: string)
    ensures a == b || LexLess(a, b) || LexLess(b, a)
    decreases |a|
  {
    if |a| > 0 && |b| > 0 && a[0] == b[0] {
      LexTotal(a[1..], b[1..]);
      if a[1..] == b[1..] {
        assert a == [a[0]] + a[1..] && b == [b[0]] + b[1..];
      }
    }
  }

  /** A common prefix does not affect the comparison. */
  lemma {:induction false} LexCommonPrefix(p: string, a: string, b: string)
    ensures LexLess(p + a, p + b) == LexLess(a, b)
    decreases |p|
  {
    if |p| > 0 {
      assert (p + a)[1..] == p[1..] + a;
      assert (p + b)[1..] == p[1..] + b;
      LexCommonPrefix(p[1..], a, b);
    } else {
      assert p + a == a && p + b == b;
    }
  }

  /** Two strings of the same length that compare less keep doing so whatever
      follows them. */
  lemma {:induction false} LexSameLengthSuffix(a: string, b: string, t: string, u: string)
    requires |a| == |b| && LexLess(a, b)
    ensures LexLess(a + t, b + u)
    decreases |a|
  {
    assert |a| > 0;
    if a[0] == b[0] {
      assert (a + t)[1..] == a[1..] + t;
      assert (b + u)[1..] == b[1..] + u;
      LexSameLengthSuffix(a[1..], b[1..], t, u);
    }
  }

  /** Appending one character to each of two strings of the same length:
      the order is decided by the strings, or, when they are equal, by the
      characters. */
  lemma {:induction false} LexSnoc(a: string, b: string, x: char, y: char)
    requires |a| == |b|
    ensures LexLess(a + [x], b + [y]) <==> LexLess(a, b) || (a == b && x < y)
    decreases |a|
  {
    if |a| > 0 {
      assert (a + [x])[1..] == a[1..] + [x];
      assert (b + [y])[1..] == b[1..] + [y];
      LexSnoc(a[1..], b[1..], x, y);
      assert a == [a[0]] + a[1..] && b == [b[0]] + b[1..];
    }
  }

  /** Digit strings of the same length compare as the numbers they denote. */
  lemma {:induction false} DigitsOrder(a: string, b: string)
    requires AllDigits(a) && AllDigits(b) && |a| == |b|
    ensures LexLess(a, b) <==> ParseNat(a) < ParseNat(b)
    ensures a == b <==> ParseNat(a) == ParseNat(b)
    decreases |a|
  {
    if |a| > 0 {
      var n := |a| - 1;
      DigitsOrder(a[..n], b[..n]);
      assert a == a[..n] + [a[n]] && b == b[..n] + [b[n]];
      LexSnoc(a[..n], b[..n], a[n], b[n]);
    }
  }

  function Pow10(k: nat): (p: nat)
    ensures p >= 1
  {
    if k == 0 then 1 else 10 * Pow10(k - 1)
  }

  /** A number below 10^k has at most k digits. */
  lemma {:induction false} NatStrLength(n: nat, k: nat)
    requires 1 <= k && n < Pow10(k)
    ensures |NatStr(n)| <= k
    decreases k
  {
    if n >= 10 {
      assert k >= 2;
      NatStrLength(n / 10, k - 1);
    }
  }

  // ---------------------------------------------------------------------------
  // str.strip()

  /** The characters for which Python's str.isspace() holds. */
  predicate IsSpace(c: char)
  {
    c == ' ' || ('\t' <= c <= '\r') || ('\U{1c}' <= c <= '\U{1f}') || c == '\U{85}' ||
    c == '\U{a0}' || c == '\U{1680}' || ('\U{2000}' <= c <= '\U{200a}') ||
    c == '\U{2028}' || c == '\U{2029}' || c == '\U{202f}' || c == '\U{205f}' || c == '\U{3000}'
  }

  function LStrip(s: string): string
  {
    if |s| > 0 && IsSpace(s[0]) then LStrip(s[1..]) else s
  }

  /** str.lstrip() leaves a suffix that does not start with whitespace, and
      cuts off only whitespace. */
  lemma {:induction false} LStripSpec(s: string)
    ensures var r := LStrip(s);
            && |r| <= |s| && r == s[|s| - |r|..]
            && (r == [] || !IsSpace(r[0]))
            && forall i :: 0 <= i < |s| - |r| ==> IsSpace(s[i])
  {
    if |s| > 0 && IsSpace(s[0]) {
      LStripSpec(s[1..]);
      var r := LStrip(s);
      assert forall i :: 1 <= i < |s| - |r| ==> s[i] == s[1..][i - 1];
    }
  }

  function RStrip(s: string): string
  {
    if |s| > 0 && IsSpace(s[|s| - 1]) then RStrip(s[..|s| - 1]) else s
  }

  /** str.rstrip() leaves a prefix that does not end with whitespace, and
      cuts off only whitespace. */
  lemma {:induction false} RStripSpec(s: string)
    ensures var r := RStrip(s);
            && |r| <= |s| && r == s[..|r|]
            && (r == [] || !IsSpace(r[|r| - 1]))
            && forall i :: |r| <= i < |s| ==> IsSpace(s[i])
  {
    if |s| > 0 && IsSpace(s[|s| - 1]) {
      RStripSpec(s[..|s| - 1]);
    }
  }

  /** The number of leading whitespace characters str.strip() removes. */
  function StripStart(s: string): (i: nat)
    ensures i <= |s|
  {
    LStripSpec(s);
    |s| - |LStrip(s)|
  }

  /** str.strip() */
  function Strip(s: string): string
  {
    RStrip(LStrip(s))
  }

  /** str.strip() removes the leading and the trailing whitespace and nothing
      else: the result is a slice of s, everything cut off on either side is
      whitespace, and the result neither starts nor ends with whitespace. */
  lemma StripSpec(s: string)
    ensures var r := Strip(s);
            && StripStart(s) + |r| <= |s| && r == s[StripStart(s)..StripStart(s) + |r|]
            && (forall k :: 0 <= k < StripStart(s) ==> IsSpace(s[k]))
            && (forall k :: StripStart(s) + |r| <= k < |s| ==> IsSpace(s[k]))
            && (r == [] || (!IsSpace(r[0]) && !IsSpace(r[|r| - 1])))
  {
    var l := LStrip(s);
    var r := RStrip(l);
    LStripSpec(s);
    RStripSpec(l);
    var i := |s| - |l|;
    assert l == s[i..];
    assert r == s[i..i + |r|];
    assert forall k :: i + |r| <= k < |s| ==> s[k] == l[k - i];
  }
}
