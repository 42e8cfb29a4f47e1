/**
 * The charge request process_payment builds
 * (app/gateways/MeprStripeGateway.php:104-137): the encoded total and exactly
 * one payment source, chosen from the checkout form in priority order.
 */
module Payments {
  import opened Records
  import Currency

  /** Raw card fields posted by the form (mepr_cc_num and friends). */
  datatype RawCard = RawCard(number: string, expMonth: string, expYear: string, cvc: string)

  /** The one payment source a charge is made from. */
  datatype PaymentSource = Token(token: string) | Customer(customer: string) | CardFields(card: RawCard)

  /** The charge request body (metadata and description are not modelled). */
  datatype ChargeArgs = ChargeArgs(amount: nat, source: PaymentSource)

  /**
   * The source of a charge: a single-use token first, then a stored
   * customer, then raw card fields; None when the form carried none of them,
   * which the source reports by throwing.
   */
  function SelectSource(token: Option<string>, customer: Option<string>, raw: Option<RawCard>): (s: Option<PaymentSource>)
    ensures s.None? <==> token.None? && customer.None? && raw.None?
    ensures token.Some? ==> s == Some(Token(token.value))
    ensures token.None? && customer.Some? ==> s == Some(Customer(customer.value))
    ensures token.None? && customer.None? && raw.Some? ==> s == Some(CardFields(raw.value))
    ensures s.Some? && s.value.Customer? ==> token.None? && customer == Some(s.value.customer)
    ensures s.Some? && s.value.CardFields? ==> token.None? && customer.None? && raw == Some(s.value.card)
  {
    if token.Some? then Some(Token(token.value))
    else if customer.Some? then Some(Customer(customer.value))
    else if raw.Some? then Some(CardFields(raw.value))
    else None
  }

  /** The charge request for a local total paid from a source. */
  function ChargeRequest(zeroDecimal: bool, total: nat, source: PaymentSource): (a: ChargeArgs)
    ensures a.source == source
    ensures a.amount == Currency.Encode(zeroDecimal, total)
    ensures Currency.Decode(zeroDecimal, a.amount) == total <==> (!zeroDecimal || total % Currency.Hundred == 0)
  {
    Currency.DecodeEncode(zeroDecimal, total);
    ChargeArgs(Currency.Encode(zeroDecimal, total), source)
  }
}
