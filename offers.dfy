/**
 * The offer catalog and the payment-request endpoint: validating the offer,
 * pricing it and preparing the checkout session handed to the payment
 * processor.
 */
module Offers {
  import opened Wrappers
  import opened Http

  const OneCategory: string := "one_category"
  const AllCategories: string := "all_categories"

  /** An entry of the catalog sent with a payment challenge; `amount` is in whole dollars. */
  datatype Offer = Offer(
    id: string,
    title: string,
    description: string,
    amount: nat,
    currency: string,
    kind: Option<string>,
    duration: Option<string>,
    paymentMethods: seq<string>)

  /** The two offers of every challenge. */
  const Catalog: seq<Offer> := [
    Offer(OneCategory, "Access to one category", "Access to all the data in one category",
          1, "USD", None, None, ["stripe"]),
    Offer(AllCategories, "Monthly Subscription",
          "Access all the data in our website for a month, any category, any time",
          5, "USD", Some("subscription"), Some("1 month"), ["stripe"])
  ]

  /** The body of a payment request. */
  datatype PaymentRequest = PaymentRequest(paymentContextToken: string, offerId: string, category: Option<string>)

  /** What the processor hands back on success: the query parameters of the success URL and
      the session metadata carry the same three values. */
  datatype ReturnParams = ReturnParams(contextToken: string, offerId: string, category: string)

  /** The session metadata the checkout carries back to the webhook (the `amount` entry, never
      read back, is not modelled). */
  function Metadata(p: ReturnParams): map<string, string>
  {
    map["payment_context_token" := p.contextToken, "offer_id" := p.offerId, "category" := p.category]
  }

  /** The checkout session to create: price in cents, product description and return values. */
  datatype CheckoutPlan = CheckoutPlan(amountCents: nat, description: string, returnParams: ReturnParams)

  /** Step 1 of the endpoint: price the offer, or refuse an unknown offer id with a 400. */
  function PlanCheckout(req: PaymentRequest): Result<CheckoutPlan, HttpError>
  {
    var params := ReturnParams(req.paymentContextToken, req.offerId, req.category.GetOr(""));
    if req.offerId == OneCategory then
      var description :=
        if req.category.Some? && req.category.value != "" then "Access to " + req.category.value + " category"
        else "Access to one category";
      Ok(CheckoutPlan(100, description, params))
    else if req.offerId == AllCategories then
      Ok(CheckoutPlan(500, "Access to all categories for one month", params))
    else
      Err(HttpError(400, "Invalid offer_id: " + req.offerId))
  }

  /** The processor's answer to the session-creation call. */
  datatype SessionCreation = Created(sessionId: string, url: string) | ProcessorFailure(message: string) | UnexpectedFailure

  /** The endpoint's JSON answer on success. */
  datatype CheckoutCreated = CheckoutCreated(message: string, checkoutUrl: string, sessionId: string)

  /** The whole endpoint; `creation` is the processor's answer to the plan and is consulted only
      when there is a plan. */
  function HandlePaymentRequest(req: PaymentRequest, creation: SessionCreation): (r: Result<CheckoutCreated, HttpError>)
    ensures PlanCheckout(req).Err? ==> r == Err(PlanCheckout(req).error)
    ensures r.Ok? ==> creation.Created? && r.value.sessionId == creation.sessionId && r.value.checkoutUrl == creation.url
    ensures PlanCheckout(req).Ok? && creation.Created? ==>
      r == Ok(CheckoutCreated("Checkout session created", creation.url, creation.sessionId))
    ensures PlanCheckout(req).Ok? && creation.ProcessorFailure? ==>
      r == Err(HttpError(400, "Payment processing failed: " + creation.message))
    ensures PlanCheckout(req).Ok? && creation.UnexpectedFailure? ==>
      r == Err(HttpError(500, "Internal server error during payment processing"))
  {
    match PlanCheckout(req)
    case Err(e) => Err(e)
    case Ok(_) =>
      match creation
      case Created(id, url) => Ok(CheckoutCreated("Checkout session created", url, id))
      case ProcessorFailure(message) => Err(HttpError(400, "Payment processing failed: " + message))
      case UnexpectedFailure => Err(HttpError(500, "Internal server error during payment processing"))
  }

  /** Pricing: 100 cents for one category, 500 for all; every other id is refused with a 400
      whatever the processor would have answered, so no checkout is created. */
  lemma Pricing(req: PaymentRequest)
    ensures PlanCheckout(req).Ok? <==> req.offerId == OneCategory || req.offerId == AllCategories
    ensures req.offerId == OneCategory ==> PlanCheckout(req).value.amountCents == 100
    ensures req.offerId == AllCategories ==> PlanCheckout(req).value.amountCents == 500
    ensures PlanCheckout(req).Ok? ==>
      PlanCheckout(req).value.returnParams == ReturnParams(req.paymentContextToken, req.offerId, req.category.GetOr(""))
    ensures PlanCheckout(req).Err? ==> forall creation :: HandlePaymentRequest(req, creation) == Err(HttpError(400, "Invalid offer_id: " + req.offerId))
  {
  }

  /** The challenge catalog and the pricing agree: exactly the catalog's ids are accepted, each
      at its advertised dollar amount. */
  lemma CatalogMatchesPricing(token: string, category: Option<string>)
    ensures forall i :: 0 <= i < |Catalog| ==>
      var plan := PlanCheckout(PaymentRequest(token, Catalog[i].id, category));
      plan.Ok? && plan.value.amountCents == Catalog[i].amount * 100
    ensures forall id :: PlanCheckout(PaymentRequest(token, id, category)).Ok? <==> exists i :: 0 <= i < |Catalog| && Catalog[i].id == id
  {
    forall id ensures PlanCheckout(PaymentRequest(token, id, category)).Ok? ==> Catalog[0].id == id || Catalog[1].id == id { }
  }
}
