/**
 * The entitlement store's records and the access decision the content
 * endpoint takes for a programmatic client.
 */
module Entitlements {
  import opened Wrappers
  import opened Offers

  /** A stored payment record (a JSON object in the store). Every key is optional because a
      store loaded from disk may hold anything; `amountCents` is the processor's `amount_total`. */
  datatype Entitlement = Entitlement(
    offerId: Option<string>,
    category: Option<string>,
    timestamp: Option<string>,
    sessionId: Option<string>,
    amountCents: Option<int>,
    webhookConfirmed: Option<bool>)
  {
    /** The record is an empty object, which Python treats as false. */
    predicate IsEmpty()
    {
      offerId.None? && category.None? && timestamp.None? && sessionId.None?
      && amountCents.None? && webhookConfirmed.None?
    }
  }

  /** The store: context token to payment record. */
  type Store = map<string, Entitlement>

  /** The record both confirmation paths write: the `category` key is present exactly when the
      category argument is non-empty, and the webhook path also marks the record as confirmed by it. */
  function Confirmed(offerId: string, category: string, timestamp: string, sessionId: string,
                     amountCents: int, viaWebhook: bool): (r: Entitlement)
    ensures !r.IsEmpty() && IsConfirmation(r)
    ensures r.category.Some? <==> category != ""
  {
    Entitlement(Some(offerId), if category != "" then Some(category) else None, Some(timestamp),
                Some(sessionId), Some(amountCents), if viaWebhook then Some(true) else None)
  }

  /** The outcome of the access decision. */
  datatype Access =
    | ServeAll                       // 200 with every item
    | ServeCategory(category: string) // 200 with the items of one category
    | Challenge                      // 402 with the offers and a new context token
    | Deny                           // 403, the record is incomplete or of an unknown offer
    | InvalidState                   // 500, the token's record is empty

  /** A token is valid when it is a key of the store: presence is the proof of payment. */
  predicate ValidateToken(store: Store, token: Option<string>)
  {
    token.Some? && token.value in store
  }

  /** The decision for a programmatic client presenting `token`. */
  function Decide(store: Store, token: Option<string>): Access
  {
    if !ValidateToken(store, token) then Challenge
    else
      var details := store[token.value];
      if details.IsEmpty() then InvalidState
      else if details.offerId == Some(AllCategories) then ServeAll
      else if details.offerId == Some(OneCategory) && details.category.Some? && details.category.value != "" then
        ServeCategory(details.category.value)
      else Deny
  }

  /** What a payment for `offerId` with category argument `category` is meant to buy. */
  function Grant(offerId: string, category: string): Access
  {
    if offerId == AllCategories then ServeAll
    else if offerId == OneCategory && category != "" then ServeCategory(category)
    else Deny
  }

  /** The decision table: an unknown or missing token is challenged; an all-categories record
      serves everything; a one-category record with a non-empty category serves that category;
      every other non-empty record is denied. */
  lemma DecisionTable(store: Store, token: Option<string>)
    ensures Decide(store, token) == Challenge <==> token.None? || token.value !in store
    ensures Decide(store, token) == ServeAll <==> token.Some? && token.value in store && store[token.value].offerId == Some(AllCategories)
    ensures forall c :: Decide(store, token) == ServeCategory(c) <==>
      token.Some? && token.value in store && store[token.value].offerId == Some(OneCategory)
      && store[token.value].category == Some(c) && c != ""
    ensures Decide(store, token) == Deny <==>
      token.Some? && token.value in store && !store[token.value].IsEmpty()
      && store[token.value].offerId != Some(AllCategories)
      && !(store[token.value].offerId == Some(OneCategory) && store[token.value].category.Some? && store[token.value].category.value != "")
  {
  }

  /** Writing a confirmed record makes its token decide to what the payment bought, and leaves
      the decision for every other token as it was. */
  lemma ConfirmedGrants(store: Store, token: string, offerId: string, category: string,
                        timestamp: string, sessionId: string, amountCents: int, viaWebhook: bool)
    ensures var store' := store[token := Confirmed(offerId, category, timestamp, sessionId, amountCents, viaWebhook)];
      Decide(store', Some(token)) == Grant(offerId, category)
      && forall other :: other != token ==> Decide(store', Some(other)) == Decide(store, Some(other))
  {
  }

  /** The record of a confirmation: non-empty, and a category key only when it is non-empty. */
  predicate IsConfirmation(r: Entitlement)
  {
    r.offerId.Some? && r.sessionId.Some? && r.timestamp.Some? && r.amountCents.Some?
    && (r.category.Some? ==> r.category.value != "")
  }

  /** Every record of the store is a confirmation record. */
  predicate AllConfirmed(store: Store)
  {
    forall t :: t in store ==> IsConfirmation(store[t])
  }

  /** On a store holding only confirmation records, the decision is never the 500 branch, and
      it is exactly what each record's payment bought. */
  lemma ConfirmedStoreDecides(store: Store, token: string)
    requires AllConfirmed(store)
    ensures Decide(store, Some(token)) != InvalidState
    ensures token in store ==>
      var r := store[token];
      IsConfirmation(r) && Decide(store, Some(token)) == Grant(r.offerId.value, r.category.GetOr(""))
  {
  }
}
