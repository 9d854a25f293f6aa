/** The text of the record-count label, `f"Records: {count}"`.

    Python formats a non-negative integer in decimal with no leading zeros
    ("0" for zero). `Decimal` is that formatting and `DigitsValue` reads a
    digit string back; the label can therefore always be parsed back to the
    count it shows. */
module CountLabel {
  import opened Wrappers

  const Prefix: string := "Records: "

  predicate IsDigit(c: char) {
    '0' <= c <= '9'
  }

  /** A decimal numeral as Python's `str(n)` writes one for `n >= 0`. */
  predicate IsNumeral(s: string) {
    |s| >= 1 && (forall i :: 0 <= i < |s| ==> IsDigit(s[i])) && (|s| > 1 ==> s[0] != '0')
  }

  function DigitChar(d: nat): (c: char)
    requires d < 10
    ensures IsDigit(c) && c as int - '0' as int == d
  {
    (d + '0' as int) as char
  }

  /** `str(n)` for a non-negative integer. */
  function Decimal(n: nat): (s: string)
    ensures IsNumeral(s)
    ensures |s| == 1 <==> n < 10
    decreases n
  {
    if n < 10 then [DigitChar(n)] else Decimal(n / 10) + [DigitChar(n % 10)]
  }

  /** The value of a string of digits, most significant first. */
  function DigitsValue(s: string): nat
    requires forall i :: 0 <= i < |s| ==> IsDigit(s[i])
    decreases |s|
  {
    if s == [] then 0
    else
      var last := s[|s| - 1];
      assert IsDigit(last);
      DigitsValue(s[..|s| - 1]) * 10 + (last as int - '0' as int)
  }

  /** Reading back the formatted count gives the count. */
  lemma {:induction false} DigitsValueOfDecimal(n: nat)
    ensures DigitsValue(Decimal(n)) == n
    decreases n
  {
    if n >= 10 {
      var s := Decimal(n);
      assert s[..|s| - 1] == Decimal(n / 10);
      DigitsValueOfDecimal(n / 10);
    }
  }

  /** A numeral with a non-zero leading digit stands for a positive value. */
  lemma {:induction false} LeadingDigitPositive(s: string)
    requires |s| >= 1 && forall i :: 0 <= i < |s| ==> IsDigit(s[i])
    requires s[0] != '0'
    ensures DigitsValue(s) >= 1
    decreases |s|
  {
    if |s| > 1 {
      LeadingDigitPositive(s[..|s| - 1]);
    }
  }

  /** Formatting the value of a numeral gives the numeral back: every numeral
      is the formatting of exactly one count. */
  lemma {:induction false} DecimalOfDigitsValue(s: string)
    requires IsNumeral(s)
    ensures Decimal(DigitsValue(s)) == s
    decreases |s|
  {
    if |s| > 1 {
      var init := s[..|s| - 1];
      assert IsNumeral(init) by {
        assert init[0] == s[0];
      }
      LeadingDigitPositive(init);
      DecimalOfDigitsValue(init);
      assert s == init + [s[|s| - 1]];
    }
  }

  /** The label text `update_record_count` sets. */
  function Label(count: nat): (text: string)
    ensures |text| > |Prefix| && text[..|Prefix|] == Prefix
    ensures IsNumeral(text[|Prefix|..])
  {
    Prefix + Decimal(count)
  }

  /** Reads a count label back; `None` for any other text. */
  function ParseLabel(text: string): (r: Option<nat>)
    ensures r.Some? ==> Label(r.value) == text
  {
    if |text| > |Prefix| && text[..|Prefix|] == Prefix && IsNumeral(text[|Prefix|..]) then
      var digits := text[|Prefix|..];
      DecimalOfDigitsValue(digits);
      assert text == Prefix + digits;
      Some(DigitsValue(digits))
    else None
  }

  /** The label always parses back to the count it was made from. */
  lemma ParseLabelOfLabel(count: nat)
    ensures ParseLabel(Label(count)) == Some(count)
  {
    var text := Label(count);
    assert text[|Prefix|..] == Decimal(count);
    DigitsValueOfDecimal(count);
  }

  /** Two different counts never show the same label. */
  lemma LabelInjective(a: nat, b: nat)
    requires Label(a) == Label(b)
    ensures a == b
  {
    ParseLabelOfLabel(a);
    ParseLabelOfLabel(b);
  }
}
