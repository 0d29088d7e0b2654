# NewsPay access control, modelled in Dafny

NewsPay is a pay-per-access news server. For each request to `/`, it first decides whether the caller is a human browser or a programmatic client. Browsers get every news item grouped by category. A programmatic client must present a bearer token, which is a context token that a confirmed payment has turned into an entitlement. A client with no token, or an unknown one, gets a `402` challenge. The challenge carries the two-offer catalog and a freshly minted context token. A client with a known token gets all the news or one category's items, depending on what was bought. An incomplete record is refused with `403`. Payments go through an external checkout processor. Two paths confirm a payment and write the record: the processor's redirect to `/payment/success` and its webhook.

The project models that decision engine and the entitlement store in `server/main.py`:

- `Text`: the Python string operations used by the core (`isspace`, `lower`, `strip`, `split()`, `in`).
- `Classifier`: the browser or bot test on the User-Agent header.
- `Auth`: the `Authorization: Bearer` parser.
- `Content`: news items, the category filter, the browser grouping loop and the page's columns.
- `Offers`: the fixed catalog, offer pricing and the payment-request endpoint.
- `Entitlements`: the stored record, the record both confirmation paths write, and the access decision.
- `Confirmations`: the effect and answer of the success callback and of the webhook.
- `Server`: the class `NewsPay`. It holds the store (`payments`), the news list and the webhook-secret setting. Its methods are startup loading, `GET /`, the success callback and the webhook.

External calls become inputs:
- The processor's answers: `SessionCreation`, `Retrieval`, a decoded `WebhookEvent` and a signature-valid flag.
- The clock: `now`.
- The minted `uuid4` value: `minted`.
- The store file's contents at startup: `Snapshot`.

## Model

| member | source | states |
|---|---|---|
| `Classifier.IsBrowserExactly` | server/main.py:107-117 | A User-Agent is a browser's exactly when it is not blank and its lower-cased form contains one of mozilla, chrome, safari, firefox, edge or opera. |
| `Classifier.IsBotRequest` | server/main.py:143 | A request is a bot's exactly when the header is absent or is not a browser's. The separate empty-string test adds nothing. |
| `Classifier.BlankIsBot` | server/main.py:108-110 | An empty or whitespace-only User-Agent is classified as a bot. |
| `Classifier.TokenMakesBrowser` | server/main.py:112-117 | A browser token in any mix of cases, anywhere in the header, makes the request a browser's. |
| `Classifier.CaseInsensitive` | server/main.py:114 | Two headers with the same lower-case form classify alike. |
| `Text.StripEmptyIffBlank` | server/main.py:109 | `strip() == ""` holds exactly for strings made only of whitespace. |
| `Text.ContainsAsciiAgrees` | server/main.py:114-117 | Two strings that differ only in non-ASCII characters contain the same ASCII substrings. |
| `Classifier.TokenTestAsciiOnly` | server/main.py:114-117 | The browser-token test gives the same answer on any lowering that agrees with `Lower` on ASCII characters. |
| `Text.Split` | server/main.py:131 | Every part of `split()` is a non-empty run without whitespace. There are no parts exactly when the string is blank. |
| `Auth.BearerToken` | server/main.py:129-134 | An absent header gives no token. Any token returned is a single non-empty word without whitespace. |
| `Auth.BearerShape` | server/main.py:129-134 | The converse of `BearerAccepted`: whenever a token is returned, the header is blanks, a scheme that lower-cases to `bearer`, non-empty blanks, that token and blanks. So headers of one, three or more words never yield a token. |
| `Auth.TwoWordShape` | server/main.py:131 | A string that `split()` cuts into exactly two parts is blanks, the first part, non-empty blanks, the second part and blanks. |
| `Auth.BearerAccepted` | server/main.py:130-133 | A header made of whitespace, a scheme that lower-cases to `bearer`, whitespace, a token and whitespace yields exactly that token. |
| `Auth.BearerHeader` | server/main.py:129-134 | The header a client sends, `Bearer <token>`, yields exactly the token for any single-word token. |
| `Auth.OtherSchemeRejected` | server/main.py:132-134 | Two words whose first does not lower-case to `bearer` give no token. |
| `Auth.BareTokenRejected` | server/main.py:132-134 | A header of a single word gives no token. |
| `Auth.ExtraPartRejected` | server/main.py:132-134 | A header of three words, separated by any non-empty whitespace, gives no token. |
| `Content.Select` | server/main.py:172 | The filtered list is a subsequence of the input, in the same order. It holds only accepted items, each exactly as often as in the input. |
| `Content.GroupByCategory` | server/main.py:228-233 | The loop appending each item to its category's list builds exactly `ByCategory`. That map sends each key present to that key's items, in order. |
| `Content.ByCategoryPartitions` | server/main.py:228-233 | Every item is in the group of its key (`Uncategorized` when it has no category). Every group is a non-empty, order-preserving subsequence holding only items of its key. |
| `Content.GroupIsCategoryFilter` | server/main.py:228-233 | For a real category, the browser group holds exactly the items the bot filter serves for it. |
| `Content.Columns` | server/main.py:271-276 | The page has a column for a category exactly when the category is listed and has a group, and the column shows that group. The column categories are exactly `Select` of the listed categories that have a group, so they follow the listed order. |
| `Content.ColumnsFollowOrder` | server/main.py:271-276 | The column categories are a subsequence of the listed order. When no category is listed twice, no column appears twice. |
| `Content.BrowserColumns` | server/main.py:271-276 | Each column belongs to one of the six listed categories and is non-empty, and holds that category's filtered items. Every listed category with items gets its column. The columns follow the order of the six categories, and none appears twice. |
| `Offers.HandlePaymentRequest` | server/main.py:320-375 | An invalid offer gets the pricing error whatever the processor would answer. For a valid offer, a created session is answered with "Checkout session created", the processor's checkout URL and session id. A processor error gives 400 "Payment processing failed: …" and anything unexpected 500. Only a created session succeeds. |
| `Offers.Pricing` | server/main.py:326-333 | `one_category` costs 100 cents and `all_categories` 500. Any other id is refused with 400 "Invalid offer_id: …" for every processor answer, so no checkout is created. The return values carry the token, the offer and the category or `""`. |
| `Offers.CatalogMatchesPricing` | server/main.py:191-210 | The accepted offer ids are exactly the catalog's. Each is charged 100 times its advertised dollar amount. |
| `Entitlements.Confirmed` | server/main.py:393-401 | A record written by a confirmation is never empty and is a confirmation record: it has an offer, a session, a timestamp and an amount. It has a category key exactly when the category argument is non-empty. |
| `Entitlements.DecisionTable` | server/main.py:152-179 | A missing or unknown token is challenged. An `all_categories` record serves everything. A `one_category` record with non-empty category c serves category c. Every other non-empty record is denied. |
| `Entitlements.ConfirmedGrants` | server/main.py:167-173 | After a confirmation record is written, its token is decided as the payment bought (`Grant`), and every other token's decision is unchanged. |
| `Entitlements.ConfirmedStoreDecides` | server/main.py:154-160 | On a store holding only confirmation records, the 500 branch never occurs, and each token gets what its record bought. |
| `Confirmations.CallbackReply` | server/main.py:391-439 | The success page succeeds exactly on a paid session and then shows the context token. An unpaid session is refused with 400 "Payment not completed". A processor error is refused with 400 "Error verifying payment: …". Only an unexpected failure gives 500. |
| `Confirmations.CallbackEffect` | server/main.py:391-405 | On a paid session, the store gains the context token with the given offer and session id, and a category key exactly when the category is non-empty. No other key changes, and the token is granted what the query's offer says. On any other answer the store is unchanged. |
| `Confirmations.CallbackIdempotent` | server/main.py:404 | Repeating the same callback at the same time changes nothing more. |
| `Confirmations.WebhookReceive` | server/main.py:468-479 | With a secret, an event is accepted only with a valid signature. A bad signature is answered 400 "Invalid signature", and a valid signature on an undecodable payload 400 "Invalid payload". Without a secret, any decodable event is accepted, and an undecodable payload escapes as 500. |
| `Confirmations.WebhookEffect` | server/main.py:482-507 | The store is written only for `checkout.session.completed` with a non-empty metadata token and offer. The write marks the record webhook-confirmed and stores the metadata's offer and session id. It has a category key, holding the metadata category, exactly when that category is non-empty. It grants what was bought and leaves other keys alone. Otherwise the store is unchanged. |
| `Confirmations.CallbackKeepsConfirmed` | server/main.py:391-405 | If every stored record is a confirmation record, it stays so after the success page. |
| `Confirmations.WebhookKeepsConfirmed` | server/main.py:482-507 | If every stored record is a confirmation record, it stays so after a webhook event. |
| `Confirmations.WebhookIdempotent` | server/main.py:482-509 | Applying the same event twice, at the same time, leaves the store as applying it once. |
| `Confirmations.ConfirmationsCommute` | server/main.py:482-507 | The callback and the webhook confirm one paid checkout. In either order of arrival, the same tokens end up stored and every token is decided alike, as the checkout bought. |
| `Confirmations.UnpaidCallbackAnswers500AsWritten` | server/main.py:431-439 | As written, an unpaid session is answered with 500. The corrected answer is 400. Neither writes the store. |
| `Confirmations.UnverifiedWebhookFailsAsWritten` | server/main.py:468-484 | As written, without a secret, a completed checkout fails with 500. The corrected handler accepts it and grants what was bought. |
| `Server.FreshStartChallenges` | server/main.py:52-68 | After a missing or unreadable store file, no token is entitled and every programmatic client is challenged. |
| `Server.RestoredDecides` | server/main.py:52-68 | After a readable store file, every token is decided exactly as the file's records say. |
| `Server.WritesKeepConfirmed` | server/main.py:391-405 | Any sequence of success-page visits and webhook deliveries, in any order, keeps every record a confirmation record. |
| `Server.ReachableStoresNeverInvalid` | server/main.py:154-160 | From a fresh server or a missing or unreadable store file, no sequence of writes ever leads any token to the 500 "Invalid token state" answer. Each stored token is decided as its record bought. |
| `Server.NewsPay.constructor` | server/main.py:22 | The store starts empty, so every record in it is a confirmation record. |
| `Server.NewsPay.Startup` | server/main.py:315-317 | Startup replaces the store with what the snapshot yields. |
| `Server.NewsPay.ReadRoot` | server/main.py:137-233 | `GET /` answers `Root` and leaves the store untouched. In the browser branch the grouping loop runs. |
| `Server.NewsPay.PaymentSuccess` | server/main.py:378-439 | The store afterwards is `AfterCallback` of the old store, and the answer is `CallbackReply`. A store of confirmation records stays one. |
| `Server.NewsPay.Webhook` | server/main.py:463-509 | A rejected delivery returns its error and leaves the store unchanged. An accepted one answers `success` and leaves the store as `AfterWebhook` of the old one. A store of confirmation records stays one. |
| `Server.UnpaidBotChallenged` | server/main.py:181-222 | A bot with an absent or unknown token gets a 402 answer with version 0.2.3 and the payment-request URL. It carries exactly two offers, `one_category` at 1 then `all_categories` at 5, and the minted context token. |
| `Server.PaidBotServed` | server/main.py:167-173 | An `all_categories` token gets the full list unchanged. A `one_category` token for category c gets exactly the items of category c, as an order-preserving subsequence. |
| `Server.IncompleteTokenDenied` | server/main.py:174-179 | A known token whose record has an unknown offer, or `one_category` without a non-empty category, is refused with 403. |
| `Server.BrowserIgnoresToken` | server/main.py:223-233 | A browser gets the grouped page whatever token it sends and whatever the store holds. |
| `Server.PaidTokenReads` | server/main.py:391-405 | After a paid callback, a bot sending `Bearer <token>` gets the full list for `all_categories`, the category's items for `one_category` with a category, and 403 otherwise. |
| `Server.PurchaseFlow` | server/main.py:326-359 | The whole flow: a `one_category`/`sports` request is priced at 100 cents. Its return values confirmed as paid store `sports` for the token. A bot with an empty User-Agent and `Bearer <token>` then gets exactly the sports items. |

In two handlers the code does not give the answer it evidently intends (see "## Findings"). For those, the class below models the corrected behaviour, and the model of the code as written sits beside it:
- `NewsPay.PaymentSuccess` answers 400 for an unpaid session, and `NewsPay.Webhook` stores a completed checkout when no signing secret is configured. Both follow the corrected handlers listed under "## Findings". What the code actually does is modelled by `CallbackReplyAsWritten` (500 for an unpaid session) and `WebhookReceiveAsWritten` (500 for a completed checkout without a secret, before any write).

Elsewhere the model follows the code:
- A record is not given a category only for the single-category offer. The code stores the category key whenever the category argument is non-empty, whatever the offer (`Entitlements.Confirmed`). An `all_categories` record with a category still serves everything.
- A known token whose stored record is an empty object is answered with 500 (`Access.InvalidState`). The code comments that this should not happen. `Server.ReachableStoresNeverInvalid` proves that it cannot happen on any store the server builds itself from an empty start. It can still happen on a store file written by something else.
- The success callback trusts its query parameters. `CallbackEffect` shows that the token is granted what the query's `offer_id` names, whatever the session's amount was.

## Left out

- `Text.Lower`: only ASCII letters are lower-cased; Python's `lower()` covers all of Unicode. On arbitrary Unicode this changes the classification. For example, `"SAFARİ"` ends in U+0130, which Python lowers to `i` plus a combining dot, so the code finds `safari` and the model does not. Header values reach the handler decoded as latin-1, however. There, `lower()` maps each character to one character, and no non-ASCII character becomes an ASCII letter. So Python's result agrees with `Lower` on every ASCII character. `Classifier.TokenTestAsciiOnly` proves that such a lowering finds the same tokens. The latin-1 decoding itself belongs to the web framework, which is not part of this model.
- HTML rendering: the CSS, the page text, the per-column sort by timestamp, the timestamp formatting and the title clean-up. The browser answer is modelled as its columns.
- Persistence: `save_payments_db` and the file reads and writes of `load_payments_db` are file I/O. Startup takes the file's contents as a `Snapshot`. The empty file written when none exists is not modelled.
- Mock news generation with Faker and `random`, and the global sort. The news list is any sequence.
- `uuid.uuid4()` and `datetime.now()`: they are inputs (`minted`, `now`). Freshness of the minted token is the generator's property.
- The processor calls (session create and retrieve, `Webhook.construct_event`): their outcomes are inputs. With a secret configured, the model checks the signature before parsing the payload, as the processor library does.
- The success URL: it is never URL-encoded, and what the URL string and its query parsing do is not modelled. The URL carries its three values as a `ReturnParams` record. The metadata's `amount` entry is never read back and is not modelled.
- Amounts: `amount_total / 100` is a float. The model stores `amount_total` as integer cents.
- The payment cancel page, the FastAPI routing, dependency injection and debug printing.
- Exceptions outside the modelled branches: a missing `type` or `data.object` key in an event, or a missing `amount_total`.
- Non-string JSON values and unknown keys in records loaded from the store file.
- `NewsItem.category`: a `category` key holding `null` is treated like a missing key. The code would group such an item under `None` rather than `Uncategorized`. The news generator always writes a string.
- The race between callback and webhook writers is a concurrency concern. `ConfirmationsCommute` shows that both orders of arrival decide every token alike.
- `client/main.py` (the command-line client) and `test_stripe.py` (a live processor connectivity check) are I/O with no local logic.

## Findings

| source | as written | input that shows it | evidently intended | confidence | as-written member | corrected member |
|---|---|---|---|---|---|---|
| server/main.py:431-439 | `HTTPException(400, "Payment not completed")` is raised inside the `try`. The catch-all `except Exception` catches it and answers 500 "Internal server error". | a session the processor reports as not paid | answer 400 "Payment not completed" | high, not executed | `Confirmations.UnpaidCallbackAnswers500AsWritten` (over `CallbackReplyAsWritten`) | `Confirmations.CallbackReply` |
| server/main.py:468-484 | Without a signing secret, the event comes from `json.loads` as a plain dict. `session.id` then raises `AttributeError`, so every completed checkout answers 500 and nothing is stored. | no secret configured, a `checkout.session.completed` event with token and offer in its metadata | read the session id as the object's `id` entry and store the record | high, not executed | `Confirmations.UnverifiedWebhookFailsAsWritten` (over `WebhookReceiveAsWritten`) | `Confirmations.WebhookReceive` |
