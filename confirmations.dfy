/**
 * The two paths that turn a confirmed payment into a stored entitlement:
 * the processor's redirect to the success page and its webhook. The
 * processor's answers and the clock are inputs.
 */
module Confirmations {
  import opened Wrappers
  import opened Http
  import opened Offers
  import opened Entitlements

  /** The processor's answer when the success page looks up the checkout session. */
  datatype Retrieval =
    | Retrieved(paid: bool, amountTotal: int)
    | RetrievalProcessorError(message: string)
    | RetrievalUnexpectedError

  /** The store after the success page: a paid session writes its record under the context
      token taken from the query; anything else leaves the store alone. */
  function AfterCallback(store: Store, sessionId: string, contextToken: string, offerId: string,
                         category: string, retrieval: Retrieval, now: string): Store
  {
    if retrieval.Retrieved? && retrieval.paid then
      store[contextToken := Confirmed(offerId, category, now, sessionId, retrieval.amountTotal, false)]
    else store
  }

  /** The success page's answer: the bearer token on a paid session; an unpaid session is a
      client error (400), a processor error a 400, anything unexpected a 500. */
  function CallbackReply(retrieval: Retrieval, contextToken: string): (r: Result<string, HttpError>)
    ensures r.Ok? <==> retrieval.Retrieved? && retrieval.paid
    ensures r.Ok? ==> r.value == contextToken
    ensures retrieval.Retrieved? && !retrieval.paid ==> r == Err(HttpError(400, "Payment not completed"))
    ensures r.Err? && r.error.status == 500 <==> retrieval.RetrievalUnexpectedError?
    ensures retrieval.RetrievalProcessorError? ==> r == Err(HttpError(400, "Error verifying payment: " + retrieval.message))
  {
    match retrieval
    case Retrieved(paid, _) =>
      if paid then Ok(contextToken) else Err(HttpError(400, "Payment not completed"))
    case RetrievalProcessorError(message) => Err(HttpError(400, "Error verifying payment: " + message))
    case RetrievalUnexpectedError => Err(HttpError(500, "Internal server error"))
  }

  /** The success page as written: the 400 for an unpaid session is raised inside the `try`
      and caught by its catch-all handler, which answers 500. */
  function CallbackReplyAsWritten(retrieval: Retrieval, contextToken: string): Result<string, HttpError>
  {
    if retrieval.Retrieved? && !retrieval.paid then Err(HttpError(500, "Internal server error"))
    else CallbackReply(retrieval, contextToken)
  }

  /** A paid session stores a record with the given offer and session id, a category key exactly
      when the category argument is non-empty, and changes no other key; any other answer
      changes nothing. The payment is trusted as the query states it: the amount paid plays no
      part in what the token is granted. */
  lemma CallbackEffect(store: Store, sessionId: string, contextToken: string, offerId: string,
                       category: string, retrieval: Retrieval, now: string)
    ensures var store' := AfterCallback(store, sessionId, contextToken, offerId, category, retrieval, now);
      if retrieval.Retrieved? && retrieval.paid then
        && store'.Keys == store.Keys + {contextToken}
        && store'[contextToken].offerId == Some(offerId)
        && store'[contextToken].sessionId == Some(sessionId)
        && (store'[contextToken].category.Some? <==> category != "")
        && (category != "" ==> store'[contextToken].category == Some(category))
        && (forall t :: t in store && t != contextToken ==> store'[t] == store[t])
        && Decide(store', Some(contextToken)) == Grant(offerId, category)
      else
        store' == store
  {
    if retrieval.Retrieved? && retrieval.paid {
      ConfirmedGrants(store, contextToken, offerId, category, now, sessionId, retrieval.amountTotal, false);
    }
  }

  /** The checkout session object inside a webhook event. */
  datatype CheckoutSession = CheckoutSession(id: string, amountTotal: int, metadata: map<string, string>)

  /** A processor event: its type and the session it is about. */
  datatype WebhookEvent = WebhookEvent(eventType: string, session: CheckoutSession)

  const CheckoutCompleted: string := "checkout.session.completed"

  /** `metadata.get(key, default)`. */
  function Lookup(metadata: map<string, string>, key: string, default: string): string
  {
    if key in metadata then metadata[key] else default
  }

  /** The store after a webhook event: a completed checkout whose metadata names a non-empty
      context token and offer writes the record; every other event changes nothing. */
  function AfterWebhook(store: Store, event: WebhookEvent, now: string): Store
  {
    var metadata := event.session.metadata;
    var token := Lookup(metadata, "payment_context_token", "");
    var offerId := Lookup(metadata, "offer_id", "");
    if event.eventType == CheckoutCompleted && token != "" && offerId != "" then
      store[token := Confirmed(offerId, Lookup(metadata, "category", ""), now, event.session.id,
                               event.session.amountTotal, true)]
    else store
  }

  /** How the webhook obtains its event. With a signing secret, the processor library checks
      the signature and then parses the payload (`payload` is `None` when it is not an event);
      without one it only parses, and a payload that does not parse escapes as a 500. */
  function WebhookReceive(secretConfigured: bool, payload: Option<WebhookEvent>, signatureValid: bool): (r: Result<WebhookEvent, HttpError>)
    ensures r.Ok? <==> payload.Some? && (secretConfigured ==> signatureValid)
    ensures r.Ok? ==> r.value == payload.value
    ensures secretConfigured && r.Err? ==> r.error.status == 400
    ensures secretConfigured && !signatureValid ==> r == Err(HttpError(400, "Invalid signature"))
    ensures secretConfigured && signatureValid && payload.None? ==> r == Err(HttpError(400, "Invalid payload"))
    ensures !secretConfigured && payload.None? ==> r == Err(HttpError(500, "Internal Server Error"))
  {
    if secretConfigured then
      if !signatureValid then Err(HttpError(400, "Invalid signature"))
      else if payload.None? then Err(HttpError(400, "Invalid payload"))
      else Ok(payload.value)
    else if payload.None? then Err(HttpError(500, "Internal Server Error"))
    else Ok(payload.value)
  }

  /** The webhook as written: without a secret the event is a plain dictionary, and reading
      `session.id` on a completed checkout raises, so the handler answers 500 before writing. */
  function WebhookReceiveAsWritten(secretConfigured: bool, payload: Option<WebhookEvent>, signatureValid: bool): Result<WebhookEvent, HttpError>
  {
    if !secretConfigured && payload.Some? && payload.value.eventType == CheckoutCompleted then
      Err(HttpError(500, "Internal Server Error"))
    else WebhookReceive(secretConfigured, payload, signatureValid)
  }

  /** The webhook writes only for a completed checkout whose metadata holds a non-empty token and
      offer; that write grants what the payment bought and touches no other token. */
  lemma WebhookEffect(store: Store, event: WebhookEvent, now: string)
    ensures var metadata := event.session.metadata;
      var token := Lookup(metadata, "payment_context_token", "");
      var offerId := Lookup(metadata, "offer_id", "");
      var store' := AfterWebhook(store, event, now);
      if event.eventType == CheckoutCompleted && token != "" && offerId != "" then
        && store'.Keys == store.Keys + {token}
        && store'[token].webhookConfirmed == Some(true)
        && store'[token].offerId == Some(offerId)
        && store'[token].sessionId == Some(event.session.id)
        && (store'[token].category.Some? <==> Lookup(metadata, "category", "") != "")
        && (Lookup(metadata, "category", "") != "" ==> store'[token].category == Some(Lookup(metadata, "category", "")))
        && (forall t :: t in store && t != token ==> store'[t] == store[t])
        && Decide(store', Some(token)) == Grant(offerId, Lookup(metadata, "category", ""))
      else
        store' == store
  {
    var metadata := event.session.metadata;
    var token := Lookup(metadata, "payment_context_token", "");
    var offerId := Lookup(metadata, "offer_id", "");
    if event.eventType == CheckoutCompleted && token != "" && offerId != "" {
      ConfirmedGrants(store, token, offerId, Lookup(metadata, "category", ""), now, event.session.id,
                      event.session.amountTotal, true);
    }
  }

  /** The success page keeps the store made only of confirmation records. */
  lemma CallbackKeepsConfirmed(store: Store, sessionId: string, contextToken: string, offerId: string,
                               category: string, retrieval: Retrieval, now: string)
    requires AllConfirmed(store)
    ensures AllConfirmed(AfterCallback(store, sessionId, contextToken, offerId, category, retrieval, now))
  {
  }

  /** The webhook keeps the store made only of confirmation records. */
  lemma WebhookKeepsConfirmed(store: Store, event: WebhookEvent, now: string)
    requires AllConfirmed(store)
    ensures AllConfirmed(AfterWebhook(store, event, now))
  {
  }

  /** Delivering the same event twice, at the same time, leaves the store as one delivery does. */
  lemma WebhookIdempotent(store: Store, event: WebhookEvent, now: string)
    ensures AfterWebhook(AfterWebhook(store, event, now), event, now) == AfterWebhook(store, event, now)
  {
  }

  /** Reloading the success page for the same session, at the same time, changes nothing more. */
  lemma CallbackIdempotent(store: Store, sessionId: string, contextToken: string, offerId: string,
                           category: string, retrieval: Retrieval, now: string)
    ensures var once := AfterCallback(store, sessionId, contextToken, offerId, category, retrieval, now);
      AfterCallback(once, sessionId, contextToken, offerId, category, retrieval, now) == once
  {
  }

  /** The success page and the webhook race to confirm one paid checkout. Whichever arrives last,
      the same tokens are stored and every token is decided alike, as the checkout bought. */
  lemma ConfirmationsCommute(store: Store, params: ReturnParams, sessionId: string, amountTotal: int,
                             callbackTime: string, webhookTime: string)
    requires params.contextToken != "" && params.offerId != ""
    ensures var event := WebhookEvent(CheckoutCompleted, CheckoutSession(sessionId, amountTotal, Metadata(params)));
      var paid := Retrieved(true, amountTotal);
      var callbackFirst := AfterWebhook(AfterCallback(store, sessionId, params.contextToken, params.offerId,
                                                      params.category, paid, callbackTime), event, webhookTime);
      var webhookFirst := AfterCallback(AfterWebhook(store, event, webhookTime), sessionId, params.contextToken,
                                        params.offerId, params.category, paid, callbackTime);
      && callbackFirst.Keys == webhookFirst.Keys == store.Keys + {params.contextToken}
      && (forall t :: Decide(callbackFirst, Some(t)) == Decide(webhookFirst, Some(t)))
      && Decide(callbackFirst, Some(params.contextToken)) == Grant(params.offerId, params.category)
  {
    var event := WebhookEvent(CheckoutCompleted, CheckoutSession(sessionId, amountTotal, Metadata(params)));
    assert Lookup(event.session.metadata, "payment_context_token", "") == params.contextToken;
    assert Lookup(event.session.metadata, "offer_id", "") == params.offerId;
    assert Lookup(event.session.metadata, "category", "") == params.category;
    var token, offerId, category := params.contextToken, params.offerId, params.category;
    var viaCallback := Confirmed(offerId, category, callbackTime, sessionId, amountTotal, false);
    var viaWebhook := Confirmed(offerId, category, webhookTime, sessionId, amountTotal, true);
    ConfirmedGrants(store, token, offerId, category, callbackTime, sessionId, amountTotal, false);
    ConfirmedGrants(store, token, offerId, category, webhookTime, sessionId, amountTotal, true);
    assert AfterWebhook(AfterCallback(store, sessionId, token, offerId, category, Retrieved(true, amountTotal), callbackTime),
                        event, webhookTime) == store[token := viaWebhook];
    assert AfterCallback(AfterWebhook(store, event, webhookTime), sessionId, token, offerId, category,
                         Retrieved(true, amountTotal), callbackTime) == store[token := viaCallback];
  }

  /** Finding: as written, an unpaid session is answered with 500 instead of the 400 the handler
      raises; the corrected answer is the 400. Neither writes the store. */
  lemma UnpaidCallbackAnswers500AsWritten(store: Store, sessionId: string, contextToken: string,
                                          offerId: string, category: string, amountTotal: int, now: string)
    ensures CallbackReplyAsWritten(Retrieved(false, amountTotal), contextToken) == Err(HttpError(500, "Internal server error"))
    ensures CallbackReply(Retrieved(false, amountTotal), contextToken) == Err(HttpError(400, "Payment not completed"))
    ensures AfterCallback(store, sessionId, contextToken, offerId, category, Retrieved(false, amountTotal), now) == store
  {
  }

  /** Finding: as written, without a signing secret, every completed checkout fails with 500
      and grants nothing; the corrected handler grants what was bought. */
  lemma UnverifiedWebhookFailsAsWritten(store: Store, event: WebhookEvent, signatureValid: bool, now: string)
    requires event.eventType == CheckoutCompleted
    requires Lookup(event.session.metadata, "payment_context_token", "") != ""
    requires Lookup(event.session.metadata, "offer_id", "") != ""
    ensures WebhookReceiveAsWritten(false, Some(event), signatureValid) == Err(HttpError(500, "Internal Server Error"))
    ensures WebhookReceive(false, Some(event), signatureValid) == Ok(event)
    ensures var token := Lookup(event.session.metadata, "payment_context_token", "");
      Decide(AfterWebhook(store, event, now), Some(token))
        == Grant(Lookup(event.session.metadata, "offer_id", ""), Lookup(event.session.metadata, "category", ""))
  {
    WebhookEffect(store, event, now);
  }
}
