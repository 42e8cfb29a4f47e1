/**
 * Amount encoding for the processor (app/gateways/MeprStripeGateway.php:105,
 * :1153) and the decoding of a charge's amount into a recorded gross
 * (:190-195, :265-270).
 *
 * Local amounts are hundredths of the major unit. The processor wants the
 * smallest unit of the currency: hundredths for standard currencies, whole
 * units for zero-decimal currencies such as JPY. The source rounds the
 * zero-decimal case with a 0-decimal float format, which rounds halves up.
 */
module Currency {

  const Hundred: nat := 100

  /** The amount sent to the processor for a local total. */
  function Encode(zeroDecimal: bool, total: nat): (amount: nat)
    ensures !zeroDecimal ==> amount == total
    ensures zeroDecimal ==> amount * Hundred <= total + 50 < (amount + 1) * Hundred
  {
    if zeroDecimal then (total + 50) / Hundred else total
  }

  /** The local gross recorded for a charge of `amount` smallest units. */
  function Decode(zeroDecimal: bool, amount: nat): (total: nat)
    ensures total % Hundred == 0 || !zeroDecimal
    ensures zeroDecimal ==> total / Hundred == amount
    ensures !zeroDecimal ==> total == amount
  {
    if zeroDecimal then amount * Hundred else amount
  }

  /** Recording a charge and sending its gross back gives the charged amount. */
  lemma EncodeDecode(zeroDecimal: bool, amount: nat)
    ensures Encode(zeroDecimal, Decode(zeroDecimal, amount)) == amount
  {
    if zeroDecimal {
      assert (amount * Hundred + 50) / Hundred == amount;
    }
  }

  /**
   * Encoding then decoding returns the local total exactly when the total
   * is representable in the currency: always for standard currencies, and
   * for whole amounts only in a zero-decimal currency.
   */
  lemma DecodeEncode(zeroDecimal: bool, total: nat)
    ensures Decode(zeroDecimal, Encode(zeroDecimal, total)) == total
        <==> (!zeroDecimal || total % Hundred == 0)
  {
    if zeroDecimal {
      var a := Encode(true, total);
      if total % Hundred == 0 {
        var k := total / Hundred;
        assert total == k * Hundred;
        assert (k * Hundred + 50) / Hundred == k;
      } else {
        assert Decode(true, a) % Hundred == 0;
      }
    }
  }

  /** The two worked cases: 1500 yen encodes as 1500, 15.00 dollars as 1500. */
  lemma EncodeExamples()
    ensures Encode(true, 150000) == 1500
    ensures Encode(false, 1500) == 1500
  {
  }
}
