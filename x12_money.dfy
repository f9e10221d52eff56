/** Money amounts of the X12 billing documents (ASC X12 005010 decimal elements), kept
    in whole cents: `f"{x:.2f}"` formatting, `float()` parsing of what it writes, and
    the payer's share of a paid claim (`generate_835_from_837` in example/hl7_utils.py). */
module X12Money {
  import opened Wrappers
  import opened Text

  /** A character `"%.2f"` can produce for an integer number of cents. */
  predicate IsAmountChar(c: char) {
    c == '-' || c == '.' || IsDigit(c)
  }

  /** `f"{x:.2f}"` for an amount of `c` cents. */
  function FormatCents(c: int): (r: string)
    ensures |r| >= 4 && IsDigit(r[|r| - 1])
    ensures forall i :: 0 <= i < |r| ==> IsAmountChar(r[i])
  {
    var m: nat := if c < 0 then -c else c;
    var sign := if c < 0 then "-" else "";
    sign + NatStr(m / 100) + "." + Pad(m % 100, 2)
  }

  /** An unsigned decimal with at most two decimals, in cents. */
  function UnsignedCents(s: string): Option<nat> {
    var parts := Split(s, '.');
    if |parts| == 1 then
      if s != "" && AllDigits(s) then Some(DigitsValue(s) * 100) else None
    else if |parts| == 2 then
      var whole := parts[0];
      var frac := parts[1];
      if (whole == "" && frac == "") || !AllDigits(whole) || !AllDigits(frac) || |frac| > 2 then None
      else Some(DigitsValue(whole) * 100 + DigitsValue(frac) * (if |frac| == 1 then 10 else 1))
    else None
  }

  /** `float(s)` on a money amount: an optional sign, digits and at most two decimals;
      `None` is the `ValueError`. */
  function ParseAmount(s: string): (r: Option<int>)
    ensures s == "" ==> r.None?
  {
    if s != [] && (s[0] == '-' || s[0] == '+') then
      match UnsignedCents(s[1..])
      case None => None
      case Some(v) =>
        var x: int := v;
        Some(if s[0] == '-' then -x else x)
    else
      match UnsignedCents(s)
      case None => None
      case Some(v) => Some(v)
  }

  lemma PadTwoValue(n: nat)
    requires n < 100
    ensures DigitsValue(Pad(n, 2)) == n
  {
    var hi := Pad(n / 10, 1);
    assert Pad(n / 100, 0) == [];
    assert hi == [DigitChar(n / 10 % 10)];
    var p := Pad(n, 2);
    assert p == hi + [DigitChar(n % 10)];
    assert p[..1] == hi;
    assert hi[..0] == [];
    assert DigitsValue(hi) == n / 10 % 10;
    assert DigitsValue(p) == DigitsValue(hi) * 10 + n % 10;
  }

  lemma DigitsWithout(s: string, c: char)
    requires AllDigits(s) && !IsDigit(c)
    ensures c !in s
  {
  }

  /** The unsigned part of a formatted amount reads back as its cents. */
  lemma UnsignedCentsOfFormat(m: nat)
    ensures UnsignedCents(NatStr(m / 100) + "." + Pad(m % 100, 2)) == Some(m)
  {
    var whole := NatStr(m / 100);
    var frac := Pad(m % 100, 2);
    DigitsWithout(whole, '.');
    DigitsWithout(frac, '.');
    SplitAtFirst(whole, frac, '.');
    SplitWithout(frac, '.');
    assert whole + "." + frac == whole + ['.'] + frac;
    assert Split(whole + "." + frac, '.') == [whole, frac];
    NatStrValue(m / 100);
    PadTwoValue(m % 100);
  }

  /** Reading back a formatted amount gives the amount: the 835 carries its figures
      without loss. */
  lemma ParseFormatCents(c: int)
    ensures ParseAmount(FormatCents(c)) == Some(c)
  {
    var m: nat := if c < 0 then -c else c;
    var body := NatStr(m / 100) + "." + Pad(m % 100, 2);
    UnsignedCentsOfFormat(m);
    if c < 0 {
      assert FormatCents(c) == "-" + body;
      assert ("-" + body)[1..] == body;
    } else {
      assert FormatCents(c) == body;
      assert IsDigit(body[0]);
    }
  }

  /** The payer's 80% share, rounded to the cent, halves rounded up: the cents strictly
      nearest to `0.8 * billed` (a whole number of cents never falls on a half). */
  function PaidShare(billed: int): (p: int)
    ensures 100 * p <= 80 * billed + 50 < 100 * p + 100
    ensures -50 < 100 * p - 80 * billed < 50
    ensures billed >= 0 ==> 0 <= p <= billed
  {
    (billed * 80 + 50) / 100
  }

  /** Every character of a formatted amount is a sign, a digit or the point, so it
      never holds an X12 delimiter or a newline. */
  lemma FormatCentsClean(c: int)
    ensures '*' !in FormatCents(c) && '~' !in FormatCents(c) && '\n' !in FormatCents(c)
  {
    var r := FormatCents(c);
    assert forall i :: 0 <= i < |r| ==> IsAmountChar(r[i]);
  }
}
