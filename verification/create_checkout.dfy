/**
 * `POST /api/create-checkout`: validates a `(plan, billing)` pair, looks up
 * its Stripe price and, when a secret key is configured, reports a
 * (simulated) checkout session.
 */
module CreateCheckout {
  import opened Wrappers
  import opened Http

  /** A Stripe price: its id and the charge in US cents. */
  datatype Price = Price(priceId: string, amountCents: int)

  const ProMonthly := Price("price_pro_monthly_299", 299)
  const ProYearly := Price("price_pro_yearly_2999", 2999)
  const FamilyMonthly := Price("price_family_monthly_999", 999)
  const FamilyYearly := Price("price_family_yearly_9999", 9999)

  const MissingParameter := "Missing plan or billing parameter"
  const InvalidOption := "Invalid plan or billing option"
  const NotConfigured := "Stripe not configured. Please add STRIPE_SECRET_KEY to environment variables."

  datatype Body =
    | ErrorBody(error: string)
    | SessionBody(sessionId: string, plan: string, billing: string, amountCents: int)

  datatype Response = Response(status: int, body: Body)

  /**
   * The price table: defined for exactly the two plans `pro` and `family`
   * under the two billing periods `monthly` and `yearly`.
   */
  function PriceFor(plan: string, billing: string): (r: Option<Price>)
    ensures r.Some? <==> (plan == "pro" || plan == "family") && (billing == "monthly" || billing == "yearly")
  {
    if plan == "pro" && billing == "monthly" then Some(ProMonthly)
    else if plan == "pro" && billing == "yearly" then Some(ProYearly)
    else if plan == "family" && billing == "monthly" then Some(FamilyMonthly)
    else if plan == "family" && billing == "yearly" then Some(FamilyYearly)
    else None
  }

  /**
   * The handler. `plan` and `billing` are the body's fields (None when
   * absent or not a truthy value), `secretKey` is `STRIPE_SECRET_KEY`, and
   * `sessionId` stands for the randomly generated mock session id.
   * Validation (400) is decided before the key is consulted (500).
   */
  function Post(plan: Option<string>, billing: Option<string>, secretKey: Option<string>,
                sessionId: string): (r: Response)
    ensures !(Present(plan) && Present(billing)) ==> r == Response(StatusBadRequest, ErrorBody(MissingParameter))
    ensures Present(plan) && Present(billing) && PriceFor(plan.value, billing.value).None? ==>
              r == Response(StatusBadRequest, ErrorBody(InvalidOption))
    ensures Present(plan) && Present(billing) && PriceFor(plan.value, billing.value).Some?
            && !Present(secretKey) ==>
              r == Response(StatusServerError, ErrorBody(NotConfigured))
    ensures r.status == StatusOk <==>
              Present(plan) && Present(billing) && PriceFor(plan.value, billing.value).Some? && Present(secretKey)
    ensures r.status == StatusOk ==>
              r.body == SessionBody(sessionId, plan.value, billing.value,
                                    PriceFor(plan.value, billing.value).value.amountCents)
  {
    if !Present(plan) || !Present(billing) then
      Response(StatusBadRequest, ErrorBody(MissingParameter))
    else
      match PriceFor(plan.value, billing.value)
      case None => Response(StatusBadRequest, ErrorBody(InvalidOption))
      case Some(price) =>
        if !Present(secretKey) then Response(StatusServerError, ErrorBody(NotConfigured))
        else Response(StatusOk, SessionBody(sessionId, plan.value, billing.value, price.amountCents))
  }

  /** The four prices, and the table names a different price for each pair. */
  lemma PriceTable()
    ensures PriceFor("pro", "monthly") == Some(Price("price_pro_monthly_299", 299))
    ensures PriceFor("pro", "yearly") == Some(Price("price_pro_yearly_2999", 2999))
    ensures PriceFor("family", "monthly") == Some(Price("price_family_monthly_999", 999))
    ensures PriceFor("family", "yearly") == Some(Price("price_family_yearly_9999", 9999))
  {
  }

  /** Distinct valid pairs are charged under distinct price ids. */
  lemma PriceIdsDistinct(p1: string, b1: string, p2: string, b2: string)
    requires PriceFor(p1, b1).Some? && PriceFor(p2, b2).Some?
    requires (p1, b1) != (p2, b2)
    ensures PriceFor(p1, b1).value.priceId != PriceFor(p2, b2).value.priceId
  {
  }

  /** Invalid input gets the same 400 whether or not the key is configured. */
  lemma ValidationPrecedesKeyCheck(plan: Option<string>, billing: Option<string>,
                                   key1: Option<string>, key2: Option<string>, sessionId: string)
    requires !(Present(plan) && Present(billing)) || PriceFor(plan.value, billing.value).None?
    ensures Post(plan, billing, key1, sessionId) == Post(plan, billing, key2, sessionId)
    ensures Post(plan, billing, key1, sessionId).status == StatusBadRequest
  {
  }
}
