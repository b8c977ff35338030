/**
 * The phone number normalisation used before an invoice is shared on
 * WhatsApp: keep the digits, then make sure the number carries India's
 * country code 91.
 */
module InvoiceSharing {
  import opened Codes
  import opened Text

  /** `replaceAll("[^0-9]", "")`: the digits of `s`, in order. */
  function DigitsOnly(s: string): (d: string)
    ensures AllDigits(d) && |d| <= |s|
  {
    if |s| == 0 then ""
    else if IsDigit(s[0]) then [s[0]] + DigitsOnly(s[1..])
    else DigitsOnly(s[1..])
  }

  /** A string of digits is its own digits, so stripping twice is stripping once. */
  lemma {:induction false} DigitsOnlyOfDigits(s: string)
    requires AllDigits(s)
    ensures DigitsOnly(s) == s
  {
    if |s| > 0 {
      DigitsOnlyOfDigits(s[1..]);
    }
  }

  /** Stripping works piece by piece: the digits of a concatenation are the concatenated digits. */
  lemma {:induction false} DigitsOnlyAppend(a: string, b: string)
    ensures DigitsOnly(a + b) == DigitsOnly(a) + DigitsOnly(b)
  {
    if |a| > 0 {
      assert (a + b)[1..] == a[1..] + b;
      DigitsOnlyAppend(a[1..], b);
    } else {
      assert a + b == b;
    }
  }

  /**
   * `formatPhoneNumber`: ten digits get "91" in front; otherwise a leading 0
   * is replaced by "91"; otherwise digits not already starting with "91" get
   * it in front; digits starting with "91" stay as they are.
   */
  function FormatPhoneNumber(phone: string): (r: string)
    ensures AllDigits(r) && StartsWith(r, "91")
  {
    var digits := DigitsOnly(phone);
    if |digits| == 10 then "91" + digits
    else if StartsWith(digits, "0") then "91" + digits[1..]
    else if !StartsWith(digits, "91") then "91" + digits
    else digits
  }

  /** Only the digits matter: punctuation, spaces and a plus sign change nothing. */
  lemma FormatIgnoresNonDigits(phone: string)
    ensures FormatPhoneNumber(phone) == FormatPhoneNumber(DigitsOnly(phone))
  {
    DigitsOnlyOfDigits(DigitsOnly(phone));
  }

  /**
   * The country code is only ever added in front of the national number: a
   * ten-digit number keeps all its digits, a trunk 0 is dropped, and a number
   * that already has the code keeps it once.
   */
  lemma FormatKeepsNationalNumber(phone: string)
    ensures var d := DigitsOnly(phone);
      && (|d| == 10 ==> FormatPhoneNumber(phone) == "91" + d)
      && (|d| != 10 && StartsWith(d, "0") ==> FormatPhoneNumber(phone) == "91" + d[1..])
      && (|d| != 10 && StartsWith(d, "91") ==> FormatPhoneNumber(phone) == d)
      && (|d| != 10 && !StartsWith(d, "0") && !StartsWith(d, "91") ==> FormatPhoneNumber(phone) == "91" + d)
  {
  }

  /**
   * Formatting a formatted number changes nothing, unless the result is ten
   * digits long (a nine-digit number with a trunk 0, or an eight-digit one
   * without the code): then a second pass adds "91" again.
   */
  lemma FormatIdempotentUnlessTenDigits(phone: string)
    ensures var r := FormatPhoneNumber(phone);
      && (|r| != 10 ==> FormatPhoneNumber(r) == r)
      && (|r| == 10 ==> FormatPhoneNumber(r) == "91" + r)
  {
    var r := FormatPhoneNumber(phone);
    DigitsOnlyOfDigits(r);
    assert r[..1] != "0" by {
      assert r[0] == "91"[0];
    }
  }
}
