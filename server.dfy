/**
 * The NewsPay server: the entitlement store and the news list it guards,
 * the content endpoint, and the two confirmation endpoints that write the
 * store.
 */
module Server {
  import opened Wrappers
  import opened Http
  import opened Text
  import opened Classifier
  import opened Auth
  import opened Content
  import opened Offers
  import opened Entitlements
  import opened Confirmations

  const ChallengeVersion: string := "0.2.3"
  const PaymentRequestUrl: string := "http://localhost:8000/l402/payment-request"

  /** The JSON body of a 402 answer. */
  datatype ChallengeBody = ChallengeBody(version: string, paymentRequestUrl: string,
                                         paymentContextToken: string, offers: seq<Offer>)

  /** The answers of the content endpoint. */
  datatype RootResponse =
    | NewsJson(news: seq<NewsItem>)          // 200, JSON `{"news": ...}`
    | PaymentRequired(challenge: ChallengeBody)
    | Refused(error: HttpError)              // 403 or 500
    | BrowsePage(columns: seq<Column>)       // the HTML page, one column per category

  /** The content endpoint for a programmatic client presenting `token`; `minted` is the fresh
      context token a challenge carries. */
  function BotResponse(store: Store, news: seq<NewsItem>, token: Option<string>, minted: string): RootResponse
  {
    match Decide(store, token)
    case ServeAll => NewsJson(news)
    case ServeCategory(c) => NewsJson(InCategory(news, c))
    case Challenge => PaymentRequired(ChallengeBody(ChallengeVersion, PaymentRequestUrl, minted, Catalog))
    case Deny => Refused(HttpError(403, "Access Denied: Invalid or incomplete payment token details"))
    case InvalidState => Refused(HttpError(500, "Internal Server Error: Invalid token state"))
  }

  /** The content endpoint: bots go through the access decision, browsers get every item
      grouped by category. */
  function Root(store: Store, news: seq<NewsItem>, userAgent: Option<string>,
                authorization: Option<string>, minted: string): RootResponse
  {
    if IsBotRequest(userAgent) then BotResponse(store, news, BearerToken(authorization), minted)
    else BrowsePage(Columns(ByCategory(news), Categories))
  }

  /** What the store file holds at startup. */
  datatype Snapshot = Missing | Unreadable | Stored(records: Store)

  /** The store a snapshot yields: a missing or unreadable file starts empty. */
  function Restore(snapshot: Snapshot): (store: Store)
    ensures snapshot.Stored? ==> store == snapshot.records
    ensures !snapshot.Stored? ==> store == map[]
  {
    match snapshot
    case Stored(records) => records
    case _ => map[]
  }

  /** After a missing or unreadable store file, no token is entitled: every client is challenged. */
  lemma FreshStartChallenges(snapshot: Snapshot, token: Option<string>)
    requires !snapshot.Stored?
    ensures Decide(Restore(snapshot), token) == Challenge
  {
  }

  /** After a readable store file, every token is decided as the file's records say. */
  lemma RestoredDecides(records: Store, token: Option<string>)
    ensures Decide(Restore(Stored(records)), token) == Decide(records, token)
  {
  }

  /** One write to the store: a success-page visit or a webhook delivery. */
  datatype Write =
    | CallbackWrite(sessionId: string, contextToken: string, offerId: string, category: string,
                    retrieval: Retrieval, now: string)
    | WebhookWrite(event: WebhookEvent, now: string)

  function ApplyWrite(store: Store, w: Write): Store
  {
    match w
    case CallbackWrite(sessionId, contextToken, offerId, category, retrieval, now) =>
      AfterCallback(store, sessionId, contextToken, offerId, category, retrieval, now)
    case WebhookWrite(event, now) => AfterWebhook(store, event, now)
  }

  /** The store after the writes, in order. */
  function ApplyWrites(store: Store, writes: seq<Write>): Store
    decreases |writes|
  {
    if writes == [] then store
    else ApplyWrite(ApplyWrites(store, writes[..|writes| - 1]), writes[|writes| - 1])
  }

  /** Both writes keep every record a confirmation record, whatever their order. */
  lemma {:induction false} WritesKeepConfirmed(store: Store, writes: seq<Write>)
    requires AllConfirmed(store)
    ensures AllConfirmed(ApplyWrites(store, writes))
    decreases |writes|
  {
    if writes != [] {
      var before := ApplyWrites(store, writes[..|writes| - 1]);
      WritesKeepConfirmed(store, writes[..|writes| - 1]);
      match writes[|writes| - 1]
      case CallbackWrite(sessionId, contextToken, offerId, category, retrieval, now) =>
        CallbackKeepsConfirmed(before, sessionId, contextToken, offerId, category, retrieval, now);
      case WebhookWrite(event, now) =>
        WebhookKeepsConfirmed(before, event, now);
    }
  }

  /** The branch the content endpoint expects never to take: starting from an empty store (a
      fresh server, or a missing or unreadable store file), no sequence of confirmations makes
      the decision for any token the 500 answer, and a stored token gets what its record bought. */
  lemma ReachableStoresNeverInvalid(snapshot: Snapshot, writes: seq<Write>, token: string)
    requires !snapshot.Stored?
    ensures var store := ApplyWrites(Restore(snapshot), writes);
      && Decide(store, Some(token)) != InvalidState
      && (token in store ==>
            var r := store[token];
            IsConfirmation(r) && Decide(store, Some(token)) == Grant(r.offerId.value, r.category.GetOr("")))
  {
    WritesKeepConfirmed(Restore(snapshot), writes);
    ConfirmedStoreDecides(ApplyWrites(Restore(snapshot), writes), token);
  }

  class NewsPay {
    /** The in-memory entitlement store: context token to payment record. */
    var payments: Store
    /** The news list the endpoint serves. */
    const news: seq<NewsItem>
    /** Whether a webhook signing secret is configured. */
    const webhookSecretConfigured: bool

    constructor (news: seq<NewsItem>, webhookSecretConfigured: bool)
      ensures payments == map[] && AllConfirmed(payments)
      ensures this.news == news && this.webhookSecretConfigured == webhookSecretConfigured
    {
      payments := map[];
      this.news := news;
      this.webhookSecretConfigured := webhookSecretConfigured;
    }

    /** Loading the store at startup. */
    method Startup(snapshot: Snapshot)
      modifies this
      ensures payments == Restore(snapshot)
    {
      match snapshot
      case Missing => payments := map[];
      case Unreadable => payments := map[];
      case Stored(records) => payments := records;
    }

    /** GET /: reads the store and changes nothing. */
    method ReadRoot(userAgent: Option<string>, authorization: Option<string>, minted: string)
      returns (response: RootResponse)
      ensures response == Root(payments, news, userAgent, authorization, minted)
    {
      if IsBotRequest(userAgent) {
        response := BotResponse(payments, news, BearerToken(authorization), minted);
      } else {
        var groups := GroupByCategory(news);
        response := BrowsePage(Columns(groups, Categories));
      }
    }

    /** GET /payment/success: the processor's session lookup is `retrieval`, the clock `now`. */
    method PaymentSuccess(sessionId: string, contextToken: string, offerId: string, category: string,
                          retrieval: Retrieval, now: string)
      returns (reply: Result<string, HttpError>)
      modifies this
      ensures payments == AfterCallback(old(payments), sessionId, contextToken, offerId, category, retrieval, now)
      ensures reply == CallbackReply(retrieval, contextToken)
      ensures AllConfirmed(old(payments)) ==> AllConfirmed(payments)
    {
      ghost var before := payments;
      match retrieval
      case Retrieved(paid, amountTotal) =>
        if paid {
          var details := Confirmed(offerId, category, now, sessionId, amountTotal, false);
          payments := payments[contextToken := details];
          reply := Ok(contextToken);
        } else {
          reply := Err(HttpError(400, "Payment not completed"));
        }
      case RetrievalProcessorError(message) =>
        reply := Err(HttpError(400, "Error verifying payment: " + message));
      case RetrievalUnexpectedError =>
        reply := Err(HttpError(500, "Internal server error"));
      if AllConfirmed(before) {
        CallbackKeepsConfirmed(before, sessionId, contextToken, offerId, category, retrieval, now);
      }
    }

    /** POST /webhook: `payload` is the decoded event (`None` when it is not one). */
    method Webhook(payload: Option<WebhookEvent>, signatureValid: bool, now: string)
      returns (reply: Result<string, HttpError>)
      modifies this
      ensures match WebhookReceive(webhookSecretConfigured, payload, signatureValid)
        case Err(e) => reply == Err(e) && payments == old(payments)
        case Ok(event) => reply == Ok("success") && payments == AfterWebhook(old(payments), event, now)
      ensures AllConfirmed(old(payments)) ==> AllConfirmed(payments)
    {
      ghost var before := payments;
      var received := WebhookReceive(webhookSecretConfigured, payload, signatureValid);
      if received.Err? {
        reply := Err(received.error);
        return;
      }
      var event := received.value;
      if event.eventType == CheckoutCompleted {
        var metadata := event.session.metadata;
        var token := Lookup(metadata, "payment_context_token", "");
        var offerId := Lookup(metadata, "offer_id", "");
        var category := Lookup(metadata, "category", "");
        if token != "" && offerId != "" {
          var details := Confirmed(offerId, category, now, event.session.id, event.session.amountTotal, true);
          payments := payments[token := details];
        }
      }
      if AllConfirmed(before) {
        WebhookKeepsConfirmed(before, event, now);
      }
      reply := Ok("success");
    }
  }

  /** A bot whose token is absent or unknown is challenged with the two catalog offers, one
      category at $1 then all categories at $5, and the freshly minted context token. */
  lemma UnpaidBotChallenged(store: Store, news: seq<NewsItem>, userAgent: Option<string>,
                            authorization: Option<string>, minted: string)
    requires IsBotRequest(userAgent)
    requires !ValidateToken(store, BearerToken(authorization))
    ensures Root(store, news, userAgent, authorization, minted)
      == PaymentRequired(ChallengeBody(ChallengeVersion, PaymentRequestUrl, minted, Catalog))
    ensures |Catalog| == 2
    ensures Catalog[0].id == OneCategory && Catalog[0].amount == 1
    ensures Catalog[1].id == AllCategories && Catalog[1].amount == 5
  {
  }

  /** A bot with an all-categories token gets the whole list; with a one-category token for a
      non-empty category it gets exactly that category's items, in list order. */
  lemma PaidBotServed(store: Store, news: seq<NewsItem>, userAgent: Option<string>,
                      authorization: Option<string>, minted: string)
    requires IsBotRequest(userAgent)
    requires ValidateToken(store, BearerToken(authorization))
    ensures var details := store[BearerToken(authorization).value];
      var response := Root(store, news, userAgent, authorization, minted);
      && (details.offerId == Some(AllCategories) ==> response == NewsJson(news))
      && (details.offerId == Some(OneCategory) && details.category.Some? && details.category.value != "" ==>
            var c := details.category.value;
            && response.NewsJson?
            && IsSubsequence(response.news, news)
            && (forall x: NewsItem :: x in response.news ==> x.category == Some(c))
            && (forall x: NewsItem :: multiset(response.news)[x] == if x.category == Some(c) then multiset(news)[x] else 0))
  {
    var details := store[BearerToken(authorization).value];
    if details.offerId == Some(OneCategory) && details.category.Some? && details.category.value != "" {
      var c := details.category.value;
      var r := InCategory(news, c);
      assert forall x: NewsItem :: multiset(r)[x] == if x.category == Some(c) then multiset(news)[x] else 0;
    }
  }

  /** A bot whose token's record is of an unknown offer, or one category without a category, is
      refused with 403. */
  lemma IncompleteTokenDenied(store: Store, news: seq<NewsItem>, userAgent: Option<string>,
                              authorization: Option<string>, minted: string)
    requires IsBotRequest(userAgent)
    requires ValidateToken(store, BearerToken(authorization))
    requires var details := store[BearerToken(authorization).value];
      !details.IsEmpty() && details.offerId != Some(AllCategories)
      && !(details.offerId == Some(OneCategory) && details.category.Some? && details.category.value != "")
    ensures Root(store, news, userAgent, authorization, minted).Refused?
    ensures Root(store, news, userAgent, authorization, minted).error.status == 403
  {
  }

  /** Browsers are served the grouped page whatever token they send and whatever the store holds. */
  lemma BrowserIgnoresToken(store: Store, store': Store, news: seq<NewsItem>, userAgent: Option<string>,
                            authorization: Option<string>, authorization': Option<string>,
                            minted: string, minted': string)
    requires !IsBotRequest(userAgent)
    ensures Root(store, news, userAgent, authorization, minted) == Root(store', news, userAgent, authorization', minted')
    ensures Root(store, news, userAgent, authorization, minted).BrowsePage?
  {
  }

  /** After the success page confirms a paid session, a bot presenting its token as a bearer
      header is answered as the payment bought. */
  lemma PaidTokenReads(store: Store, news: seq<NewsItem>, sessionId: string, token: string, offerId: string,
                       category: string, amountTotal: int, now: string, minted: string)
    requires IsWord(token)
    ensures var store' := AfterCallback(store, sessionId, token, offerId, category, Retrieved(true, amountTotal), now);
      var response := Root(store', news, None, Some("Bearer " + token), minted);
      && (offerId == AllCategories ==> response == NewsJson(news))
      && (offerId == OneCategory && category != "" ==> response == NewsJson(InCategory(news, category)))
      && (offerId != AllCategories && !(offerId == OneCategory && category != "") ==> response.Refused? && response.error.status == 403)
  {
    BearerHeader(token);
    CallbackEffect(store, sessionId, token, offerId, category, Retrieved(true, amountTotal), now);
  }

  /** The purchase flow end to end: a one-category request for "sports" from token t, the
      processor reporting the session paid, the success page's write, and then a bot request with
      an empty User-Agent and `Bearer t` is served exactly the sports items. */
  lemma PurchaseFlow(store: Store, news: seq<NewsItem>, token: string, sessionId: string, now: string, minted: string)
    requires IsWord(token)
    ensures var plan := PlanCheckout(PaymentRequest(token, OneCategory, Some("sports")));
      && plan.Ok? && plan.value.amountCents == 100
      && var p := plan.value.returnParams;
         var store' := AfterCallback(store, sessionId, p.contextToken, p.offerId, p.category,
                                     Retrieved(true, plan.value.amountCents), now);
         && store'[token].category == Some("sports")
         && Root(store', news, Some(""), Some("Bearer " + token), minted) == NewsJson(InCategory(news, "sports"))
  {
    BearerHeader(token);
  }
}
