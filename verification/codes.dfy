/**
 * Human-readable document numbers: a prefix, the date as yyyyMMdd and a
 * running number zero-padded to a minimum width (`String.format("%0Nd", n)`).
 * Batch codes, gate-pass numbers and invoice numbers are all of this shape.
 */
module Codes {
  import opened Common

  predicate IsDigit(c: char)
  {
    '0' <= c <= '9'
  }

  predicate AllDigits(s: string)
  {
    forall i :: 0 <= i < |s| ==> IsDigit(s[i])
  }

  function DigitChar(d: nat): (c: char)
    requires d < 10
    ensures IsDigit(c) && c as int - '0' as int == d
  {
    (48 + d) as char
  }

  /** The decimal digits of n, without leading zeros (`Long.toString`). */
  function Decimal(n: nat): (s: string)
    ensures |s| >= 1 && AllDigits(s)
    ensures |s| > 1 ==> s[0] != '0'
  {
    if n < 10 then [DigitChar(n)] else Decimal(n / 10) + [DigitChar(n % 10)]
  }

  /** `%d` of an int: a minus sign before the digits of a negative number. */
  function SignedDecimal(n: int): (s: string)
    ensures n >= 0 ==> s == Decimal(n)
    ensures n < 0 ==> s == "-" + Decimal(-n)
  {
    if n < 0 then "-" + Decimal(-n) else Decimal(n)
  }

  /** The number a string of decimal digits denotes (leading zeros allowed). */
  function DigitsValue(s: string): nat
    requires AllDigits(s)
  {
    if s == [] then 0 else DigitsValue(s[..|s| - 1]) * 10 + (s[|s| - 1] as int - '0' as int)
  }

  /** Reading back the decimal digits of n gives n. */
  lemma {:induction false} DecimalValue(n: nat)
    ensures DigitsValue(Decimal(n)) == n
  {
    if n >= 10 {
      DecimalValue(n / 10);
      var s := Decimal(n);
      assert s[..|s| - 1] == Decimal(n / 10);
    }
  }

  function Zeros(k: nat): (s: string)
    ensures |s| == k && forall i :: 0 <= i < k ==> s[i] == '0'
  {
    if k == 0 then [] else Zeros(k - 1) + ['0']
  }

  /** Leading zeros do not change the value of a digit string. */
  lemma {:induction false} ZerosValue(k: nat, s: string)
    requires AllDigits(s)
    ensures AllDigits(Zeros(k) + s) && DigitsValue(Zeros(k) + s) == DigitsValue(s)
  {
    if s == [] {
      assert Zeros(k) + s == Zeros(k);
      ZerosValueAlone(k);
    } else {
      var t := Zeros(k) + s;
      assert t[..|t| - 1] == Zeros(k) + s[..|s| - 1];
      ZerosValue(k, s[..|s| - 1]);
    }
  }

  lemma {:induction false} ZerosValueAlone(k: nat)
    ensures AllDigits(Zeros(k)) && DigitsValue(Zeros(k)) == 0
  {
    if k > 0 {
      assert Zeros(k)[..k - 1] == Zeros(k - 1);
      ZerosValueAlone(k - 1);
    }
  }

  /** `String.format("%0<width>d", n)` for non-negative n. */
  function ZeroPad(n: nat, width: nat): string
  {
    var digits := Decimal(n);
    if |digits| < width then Zeros(width - |digits|) + digits else digits
  }

  /**
   * A zero-padded number is all digits, at least `width` long, no longer than it
   * must be, and reads back as the number.
   */
  lemma ZeroPadSpec(n: nat, width: nat)
    ensures AllDigits(ZeroPad(n, width))
    ensures |ZeroPad(n, width)| >= width
    ensures |ZeroPad(n, width)| == if |Decimal(n)| < width then width else |Decimal(n)|
    ensures DigitsValue(ZeroPad(n, width)) == n
  {
    DecimalValue(n);
    var digits := Decimal(n);
    if |digits| < width {
      ZerosValue(width - |digits|, digits);
    }
  }

  /** `DateTimeFormatter.ofPattern("yyyyMMdd")`. */
  function FormatDate(d: Date): (s: string)
    ensures |s| == 8 && AllDigits(s)
    ensures DigitsValue(s[..4]) == d.year && DigitsValue(s[4..6]) == d.month && DigitsValue(s[6..8]) == d.day
  {
    ZeroPadSpec(d.year, 4);
    ZeroPadSpec(d.month, 2);
    ZeroPadSpec(d.day, 2);
    DecimalBelow(d.year, 4);
    DecimalBelow(d.month, 2);
    DecimalBelow(d.day, 2);
    DateLayout(ZeroPad(d.year, 4), ZeroPad(d.month, 2), ZeroPad(d.day, 2));
    ZeroPad(d.year, 4) + ZeroPad(d.month, 2) + ZeroPad(d.day, 2)
  }

  /** Where year, month and day sit in a formatted date. */
  lemma DateLayout(y: string, m: string, dd: string)
    requires |y| == 4 && |m| == 2 && |dd| == 2
    ensures var s := y + m + dd; s[..4] == y && s[4..6] == m && s[6..8] == dd
  {
    var s := y + m + dd;
    assert s[..6] == y + m;
  }

  /** Two dates format alike only when they are the same date. */
  lemma FormatDateInjective(d1: Date, d2: Date)
    requires FormatDate(d1) == FormatDate(d2)
    ensures d1 == d2
  {
  }

  /** `DateTimeFormatter.ofPattern("yyyyMMddHHmmss")`. */
  function FormatTimestamp(t: DateTime): (s: string)
    ensures |s| == 14 && AllDigits(s)
  {
    ZeroPadSpec(t.hour, 2);
    ZeroPadSpec(t.minute, 2);
    ZeroPadSpec(t.second, 2);
    DecimalBelow(t.hour, 2);
    DecimalBelow(t.minute, 2);
    DecimalBelow(t.second, 2);
    FormatDate(t.date) + ZeroPad(t.hour, 2) + ZeroPad(t.minute, 2) + ZeroPad(t.second, 2)
  }

  /** A number below 10^k has at most k decimal digits. */
  lemma {:induction false} DecimalBelow(n: nat, k: nat)
    requires n < Pow10(k)
    ensures |Decimal(n)| <= k || (k == 0 && n == 0)
  {
    if n >= 10 {
      assert k >= 2;
      DecimalBelow(n / 10, k - 1);
    } else if k == 0 {
      assert n == 0;
    }
  }

  function Pow10(k: nat): (p: nat)
    ensures p >= 1
  {
    if k == 0 then 1 else 10 * Pow10(k - 1)
  }

  /**
   * A running document number: `prefix + yyyyMMdd + "-" + %0<width>d(count + 1)`,
   * where `count` is the number of such documents already stored.
   */
  function SequenceCode(prefix: string, today: Date, count: nat, width: nat): string
  {
    prefix + FormatDate(today) + "-" + ZeroPad(count + 1, width)
  }

  /**
   * A sequence code can be taken apart again: after the prefix come the date
   * as yyyyMMdd, a dash, and the count + 1 in digits, exactly `width` of them
   * unless the number needs more.
   */
  lemma SequenceCodeParts(prefix: string, today: Date, count: nat, width: nat)
    ensures var code := SequenceCode(prefix, today, count, width);
      var n := |prefix|;
      |code| >= n + 9 + width &&
      code[..n] == prefix &&
      code[n..n + 8] == FormatDate(today) &&
      AllDigits(code[n..n + 4]) && DigitsValue(code[n..n + 4]) == today.year &&
      AllDigits(code[n + 4..n + 6]) && DigitsValue(code[n + 4..n + 6]) == today.month &&
      AllDigits(code[n + 6..n + 8]) && DigitsValue(code[n + 6..n + 8]) == today.day &&
      code[n + 8] == '-' &&
      AllDigits(code[n + 9..]) &&
      DigitsValue(code[n + 9..]) == count + 1 &&
      |code[n + 9..]| == (if |Decimal(count + 1)| < width then width else |Decimal(count + 1)|)
  {
    ZeroPadSpec(count + 1, width);
    var date := FormatDate(today);
    CodeLayout(prefix, date, ZeroPad(count + 1, width));
  }

  /** Where the pieces of a code sit, whatever the pieces are. */
  lemma CodeLayout(prefix: string, date: string, number: string)
    requires |date| == 8
    ensures var code := prefix + date + "-" + number;
      var n := |prefix|;
      && |code| == n + 9 + |number|
      && code[..n] == prefix && code[n..n + 8] == date
      && code[n..n + 4] == date[..4] && code[n + 4..n + 6] == date[4..6] && code[n + 6..n + 8] == date[6..8]
      && code[n + 8] == '-' && code[n + 9..] == number
  {
    var code := prefix + date + "-" + number;
    var n := |prefix|;
    assert code[..n + 9] == prefix + date + "-";
    assert code[..n + 8] == prefix + date;
  }

  /** Different counts give different codes for the same prefix, date and width. */
  lemma SequenceCodeInjective(prefix: string, today: Date, c1: nat, c2: nat, width: nat)
    requires c1 != c2
    ensures SequenceCode(prefix, today, c1, width) != SequenceCode(prefix, today, c2, width)
  {
    SequenceCodeParts(prefix, today, c1, width);
    SequenceCodeParts(prefix, today, c2, width);
  }
}
