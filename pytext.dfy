/**
 * Python's text conversions that the driver relies on: int() on a str,
 * the '%d' and '%03d' formats, and slicing with clamped bounds.
 */
module PyText {
  import opened Outcomes

  predicate IsDigit(c: char) { '0' <= c <= '9' }

  predicate AllDigits(s: string) { forall i :: 0 <= i < |s| ==> IsDigit(s[i]) }

  function DigitValue(c: char): nat
    requires IsDigit(c)
  {
    c as int - '0' as int
  }

  function DigitChar(d: nat): (c: char)
    requires d < 10
    ensures IsDigit(c) && DigitValue(c) == d
  {
    ('0' as int + d) as char
  }

  /** The number a string of decimal digits denotes, most significant digit first. */
  function DigitsValue(s: string): nat
    requires AllDigits(s)
  {
    if s == [] then 0 else DigitsValue(s[..|s| - 1]) * 10 + DigitValue(s[|s| - 1])
  }

  /** str(n) for n >= 0: the shortest decimal spelling. */
  function Decimal(n: nat): (s: string)
    ensures AllDigits(s) && DigitsValue(s) == n
    ensures 1 <= |s|
  {
    if n < 10 then [DigitChar(n)]
    else
      var s := Decimal(n / 10) + [DigitChar(n % 10)];
      assert s[..|s| - 1] == Decimal(n / 10);
      s
  }

  lemma {:induction false} DecimalWidth(n: nat, w: nat)
    requires 1 <= w && n < Pow10(w)
    ensures |Decimal(n)| <= w
  {
    if n >= 10 {
      DecimalWidth(n / 10, w - 1);
    }
  }

  function Zeros(k: nat): (s: string)
    ensures |s| == k && AllDigits(s)
    ensures forall j :: 0 <= j < k ==> s[j] == '0'
  {
    if k == 0 then [] else Zeros(k - 1) + ['0']
  }

  /** Leading zeros do not change the value of a digit string. */
  lemma {:induction false} LeadingZeros(k: nat, s: string)
    requires AllDigits(s)
    ensures AllDigits(Zeros(k) + s) && DigitsValue(Zeros(k) + s) == DigitsValue(s)
  {
    var t := Zeros(k) + s;
    if s == [] {
      assert t == Zeros(k);
      if k > 0 {
        assert t[..|t| - 1] == Zeros(k - 1) + [];
        LeadingZeros(k - 1, []);
      }
    } else {
      assert t[..|t| - 1] == Zeros(k) + s[..|s| - 1];
      LeadingZeros(k, s[..|s| - 1]);
    }
  }

  function ZeroPad(s: string, w: nat): string
  {
    if |s| >= w then s else Zeros(w - |s|) + s
  }

  /** '%0<w>d' % n for n >= 0: exactly w digits whenever n has at most w. */
  function Fixed(n: nat, w: nat): (s: string)
    ensures AllDigits(s) && DigitsValue(s) == n
    ensures 1 <= w && n < Pow10(w) ==> |s| == w
  {
    var d := Decimal(n);
    LeadingZeros(if |d| >= w then 0 else w - |d|, d);
    assert 1 <= w && n < Pow10(w) ==> |d| <= w by {
      if 1 <= w && n < Pow10(w) {
        DecimalWidth(n, w);
      }
    }
    assert |d| >= w ==> ZeroPad(d, w) == d;
    ZeroPad(d, w)
  }

  /** The last w decimal digits of n, most significant first. */
  function Spell(n: nat, w: nat): (s: string)
    ensures |s| == w && AllDigits(s)
  {
    if w == 0 then [] else Spell(n / 10, w - 1) + [DigitChar(n % 10)]
  }

  function Pow10(w: nat): (p: nat)
    ensures 1 <= p
  {
    if w == 0 then 1 else 10 * Pow10(w - 1)
  }

  /** w digits spell any n below 10 to the w. */
  lemma {:induction false} SpellValue(n: nat, w: nat)
    requires n < Pow10(w)
    ensures DigitsValue(Spell(n, w)) == n
  {
    if w > 0 {
      var s := Spell(n, w);
      assert s[..|s| - 1] == Spell(n / 10, w - 1);
      SpellValue(n / 10, w - 1);
    }
  }

  /** Three digits spelling n, most significant first. */
  function Digits3(n: nat): (s: string)
    requires n < 1000
    ensures |s| == 3 && AllDigits(s) && DigitsValue(s) == n
  {
    SpellValue(n, 3);
    Spell(n, 3)
  }

  /**
   * '%03d' % n: three digits, zero-padded, for 0 <= n < 1000; all the digits
   * of a larger n; a sign and at least two digits for a negative n.
   */
  function Format03(n: int): (s: string)
    ensures 0 <= n < 1000 ==> |s| == 3 && AllDigits(s) && DigitsValue(s) == n
    ensures n < 0 ==> |s| >= 1 && s[0] == '-'
  {
    if 0 <= n < 1000 then Digits3(n)
    else if n < 0 then "-" + ZeroPad(Decimal(-n), 2)
    else Decimal(n)
  }

  /** '%d' % n. */
  function FormatD(n: int): (s: string)
    ensures 0 <= n < 10 ==> s == [DigitChar(n)]
  {
    if n < 0 then "-" + Decimal(-n) else Decimal(n)
  }

  /** Appending in two steps is appending once. */
  lemma Regroup<T>(a: seq<T>, b: seq<T>, c: seq<T>)
    ensures a + (b + c) == a + b + c
  {
  }

  /** s[i:j] for 0 <= i, j: Python clamps both bounds to the length. */
  function Slice(s: string, i: nat, j: nat): (r: string)
    ensures |r| == if i <= j && i <= |s| then (if j <= |s| then j else |s|) - i else 0
    ensures j <= |s| && i <= j ==> r == s[i..j]
  {
    var hi := if j <= |s| then j else |s|;
    var lo := if i <= hi then i else hi;
    s[lo..hi]
  }

  /** The ASCII characters int() skips around a number: tab to carriage return, the four separators 28-31, and space. */
  predicate IsSpace(c: char) { c == ' ' || '\t' <= c <= '\r' || 28 <= c as int <= 31 }

  /** s.strip() of those characters: int() ignores them on both sides. */
  function Strip(s: string): (r: string)
  {
    if s != [] && IsSpace(s[0]) then Strip(s[1..])
    else if s != [] && IsSpace(s[|s| - 1]) then Strip(s[..|s| - 1])
    else s
  }

  /** Decimal digits with single underscores between digits, as int() accepts them. */
  predicate IsGrouped(s: string)
  {
    && |s| > 0 && IsDigit(s[0])
    && (|s| == 1 || if s[1] == '_' then IsGrouped(s[2..]) else IsGrouped(s[1..]))
  }

  function DropUnderscores(s: string): (r: string)
    ensures AllDigits(s) ==> r == s
  {
    if s == [] then [] else (if s[0] == '_' then [] else [s[0]]) + DropUnderscores(s[1..])
  }

  /** Dropping the underscores of a grouped string leaves a non-empty run of digits. */
  lemma {:induction false} GroupedDigits(s: string)
    requires IsGrouped(s)
    ensures DropUnderscores(s) != [] && AllDigits(DropUnderscores(s))
  {
    if |s| > 1 {
      var t := if s[1] == '_' then s[2..] else s[1..];
      GroupedDigits(t);
      if s[1] == '_' {
        assert s[1..][1..] == t;
      }
      assert DropUnderscores(s) == [s[0]] + DropUnderscores(t);
    }
  }

  /** A plain run of digits is grouped. */
  lemma {:induction false} DigitsGrouped(s: string)
    requires s != [] && AllDigits(s)
    ensures IsGrouped(s)
  {
    if |s| > 1 {
      DigitsGrouped(s[1..]);
    }
  }

  /**
   * int(s) for an ASCII str s: surrounding whitespace is skipped, one sign is
   * allowed, and the digits may be grouped by single underscores; anything
   * else, the empty string included, raises ValueError (None here).
   */
  function PyInt(s: string): (r: Option<int>)
    ensures Strip(s) == [] ==> r == None
    ensures r.Some? && r.value < 0 ==> Strip(s)[0] == '-'
  {
    var t := Strip(s);
    if t == [] then None
    else
      var body := if t[0] == '-' || t[0] == '+' then t[1..] else t;
      if !IsGrouped(body) then None
      else
        GroupedDigits(body);
        var v: int := DigitsValue(DropUnderscores(body));
        Some(if t[0] == '-' then -v else v)
  }

  /** A plain run of digits is read by int() as the number it spells. */
  lemma PyIntOfDigits(s: string)
    requires s != [] && AllDigits(s)
    ensures PyInt(s) == Some(DigitsValue(s))
  {
    assert Strip(s) == s;
    DigitsGrouped(s);
  }

  /** The value of a three-digit string, digit by digit. */
  lemma ThreeDigits(s: string)
    requires |s| == 3 && AllDigits(s)
    ensures DigitsValue(s) == 100 * DigitValue(s[0]) + 10 * DigitValue(s[1]) + DigitValue(s[2])
  {
    var t := s[..2];
    assert t[..1] == [s[0]] && t[1] == s[1];
    assert DigitsValue([s[0]]) == DigitValue(s[0]);
    assert DigitsValue(t) == 10 * DigitValue(s[0]) + DigitValue(s[1]);
  }

  /** Two three-digit strings with the same value are the same string. */
  lemma ThreeDigitsUnique(a: string, b: string)
    requires |a| == 3 && AllDigits(a) && |b| == 3 && AllDigits(b)
    requires DigitsValue(a) == DigitsValue(b)
    ensures a == b
  {
    ThreeDigits(a);
    ThreeDigits(b);
    assert DigitValue(a[0]) == DigitValue(b[0]);
    assert DigitValue(a[1]) == DigitValue(b[1]);
  }

  /** int() reads back what '%03d' wrote, for every value that fits in three digits. */
  lemma Format03RoundTrip(n: int)
    requires 0 <= n < 1000
    ensures PyInt(Format03(n)) == Some(n)
  {
    PyIntOfDigits(Format03(n));
  }

  /** int() reads back what '%0<w>d' wrote. */
  lemma FixedRoundTrip(n: nat, w: nat)
    ensures PyInt(Fixed(n, w)) == Some(n)
  {
    PyIntOfDigits(Fixed(n, w));
  }
}
