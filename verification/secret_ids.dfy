/**
 Identifiers the host's secret store hands out when a secret is added. In this
 model the store allocates serial numbers and the identifier a charm sees is
 `secret:` followed by the serial in decimal. `SerialOf` is the inverse used when a charm looks a secret up
 by its identifier.
 */
module SecretIds {
  import opened Wrappers

  const Prefix: string := "secret:"

  predicate IsDigit(c: char) {
    '0' <= c <= '9'
  }

  predicate AllDigits(s: string) {
    forall i | 0 <= i < |s| :: IsDigit(s[i])
  }

  function DigitChar(d: nat): (c: char)
    requires d < 10
    ensures IsDigit(c)
  {
    (('0' as int) + d) as char
  }

  function DigitValue(c: char): (d: nat)
    requires IsDigit(c)
    ensures d < 10
    ensures DigitChar(d) == c
  {
    (c as int) - ('0' as int)
  }

  /** Decimal rendering of a serial number, most significant digit first. */
  function Decimal(n: nat): (s: string)
    ensures |s| > 0
    ensures AllDigits(s)
  {
    if n < 10 then [DigitChar(n)] else Decimal(n / 10) + [DigitChar(n % 10)]
  }

  function ParseDecimal(s: string): nat
    requires AllDigits(s)
  {
    if |s| == 0 then 0 else ParseDecimal(s[..|s| - 1]) * 10 + DigitValue(s[|s| - 1])
  }

  lemma {:induction false} ParseDecimalOfDecimal(n: nat)
    ensures ParseDecimal(Decimal(n)) == n
  {
    var s := Decimal(n);
    if n < 10 {
      assert s[..|s| - 1] == [];
      assert DigitValue(DigitChar(n)) == n;
    } else {
      assert s[..|s| - 1] == Decimal(n / 10);
      ParseDecimalOfDecimal(n / 10);
      assert DigitValue(DigitChar(n % 10)) == n % 10;
    }
  }

  /** The identifier of the secret with the given serial. */
  function Uri(serial: nat): (id: string)
    ensures |id| > 0
    ensures |id| > |Prefix| && id[..|Prefix|] == Prefix && AllDigits(id[|Prefix|..])
  {
    Prefix + Decimal(serial)
  }

  /** The serial a well-formed identifier names, or `None` for any other string. */
  function SerialOf(id: string): (r: Option<nat>)
    ensures r.Some? ==> |id| > |Prefix| && id[..|Prefix|] == Prefix
  {
    if |id| > |Prefix| && id[..|Prefix|] == Prefix && AllDigits(id[|Prefix|..])
    then Some(ParseDecimal(id[|Prefix|..]))
    else None
  }

  /** Every identifier the store hands out resolves back to its own serial. */
  lemma {:induction false} SerialOfUri(serial: nat)
    ensures SerialOf(Uri(serial)) == Some(serial)
  {
    var id := Uri(serial);
    assert id[|Prefix|..] == Decimal(serial);
    ParseDecimalOfDecimal(serial);
  }
}
