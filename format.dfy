/**
 * Decimal rendering of product ids, as Python's f-strings produce it, and the
 * default metadata derived from it ("Product {id}", "SKU-{id}").
 */
module Format {
  import opened Wrappers

  function DigitChar(d: nat): (c: char)
    requires d < 10
    ensures '0' <= c <= '9'
  {
    "0123456789"[d]
  }

  /** The decimal digits of n, most significant first, without leading zeros. */
  function NatToDecimal(n: nat): (s: string)
    decreases n
  {
    if n < 10 then [DigitChar(n)] else NatToDecimal(n / 10) + [DigitChar(n % 10)]
  }

  /** `str(i)` for a Python int: a minus sign, then the digits of |i|. */
  function IntToDecimal(i: int): (s: string) {
    if i < 0 then "-" + NatToDecimal(-i) else NatToDecimal(i)
  }

  predicate AllDigits(s: string) {
    forall i :: 0 <= i < |s| ==> '0' <= s[i] <= '9'
  }

  /** The value of one decimal digit. */
  function DigitValue(c: char): (d: nat)
    requires '0' <= c <= '9'
    ensures d < 10
  {
    c as int - '0' as int
  }

  /** The value of a string of decimal digits, read most significant first. */
  function DecimalValue(s: string): nat
    requires AllDigits(s)
    decreases |s|
  {
    if s == [] then 0 else DecimalValue(s[..|s| - 1]) * 10 + DigitValue(s[|s| - 1])
  }

  /**
   * `int(s)` on the text of a stored integer: an optional minus sign and at
   * least one digit. Any other text is a ValueError in Python, None here.
   */
  function ParseInt(s: string): (r: Option<int>)
    ensures r.Some? ==> 1 <= |s|
  {
    if 2 <= |s| && s[0] == '-' && AllDigits(s[1..]) then Some(-(DecimalValue(s[1..]) as int))
    else if 1 <= |s| && AllDigits(s) then Some(DecimalValue(s))
    else None
  }

  /**
   * The rendering is a non-empty string of digits, and reading it back gives
   * the number rendered.
   */
  lemma {:induction false} DecimalRoundTrip(n: nat)
    ensures 1 <= |NatToDecimal(n)| && AllDigits(NatToDecimal(n))
    ensures DecimalValue(NatToDecimal(n)) == n
    decreases n
  {
    var s := NatToDecimal(n);
    if n < 10 {
      assert s == [DigitChar(n)];
      assert DigitValue(DigitChar(n)) == n;
    } else {
      DecimalRoundTrip(n / 10);
      assert s == NatToDecimal(n / 10) + [DigitChar(n % 10)];
      assert s[..|s| - 1] == NatToDecimal(n / 10);
      assert DigitValue(DigitChar(n % 10)) == n % 10;
    }
  }

  /** A stored integer reads back as itself: `int(str(i)) == i`. */
  lemma IntRoundTrip(i: int)
    ensures ParseInt(IntToDecimal(i)) == Some(i)
  {
    var s := IntToDecimal(i);
    if i < 0 {
      var t := NatToDecimal(-i);
      DecimalRoundTrip(-i);
      assert s == "-" + t;
      assert 2 <= |s| && s[0] == '-' && s[1..] == t;
    } else {
      DecimalRoundTrip(i);
      assert s == NatToDecimal(i);
      assert s[0] != '-';
    }
  }

  /** The name a product gets when nobody supplied one. */
  function DefaultName(productId: int): string {
    "Product " + IntToDecimal(productId)
  }

  /** The sku a product gets in the cache when the line item carries none. */
  function DefaultSku(productId: int): string {
    "SKU-" + IntToDecimal(productId)
  }
}
