# fortune: order lifecycle model

fortune sells a personalised fortune report as a PDF. A customer submits a
name, birthdate, email and gender. The checkout route creates an order and
hands the customer to a payment provider. The provider reports the payment
outcome through a webhook. A successful payment marks the order paid,
generates the report, records its URL and mails a receipt. A status route
lets the thank-you page poll for the report URL.

This project models that lifecycle in Dafny:

- `Orders` (lib/db.ts) is the in-memory order store. The class
  `OrderStore` has one field, `orders: map<string, Order>`. Its methods
  `Upsert`, `SetStatus` and `SetPdf` are each proved equal to a pure map
  function (`Upserted`, `StatusSet`, `PdfSet`). The lemmas about the store
  are proved on those functions.
- `MockPayments` (lib/payments/mock.ts) is the simulated provider.
  - `CreateCheckout` builds the `ord_` id and the local checkout URL.
  - `ParseWebhook` normalises the two event shapes it accepts,
    `{type, orderId}` and the legacy `{orderId, ok}`.
- `FormEncoding` and `TextUtil` model how `URLSearchParams` serialises the
  checkout query: UTF-8, then percent-encoding with `+` for a space, as the
  `application/x-www-form-urlencoded` serializer of the WHATWG URL Standard
  prescribes. Each serializer has a decoder partner, and the round trip is
  proved. The round trip shows that the URL really carries the payload.
- `CheckoutApi`, `OrderApi` and `PaymentWebhook` model the three API
  routes.
  - The state-changing handlers are methods on an `OrderStore`.
  - Each is proved equal to a pure outcome function over the map before
    the request. That function yields the response and the new map, and
    for the webhook also the calls made to the report generator and the
    mailer.
- `Report` (server/generatePdf.ts) holds the deterministic parts of report
  generation:
  - the seven sections;
  - the gender label on the cover;
  - the `/reports/<orderId>.pdf` path of the local generator.
- `Lifecycle` joins the routes: a valid checkout followed by the event the
  checkout page posts settles the new order as paid or failed.

Behaviour that the code fixes and this model follows:

- The webhook never reads an order's current status. A repeated success
  generates the report and mails again. A failure event arriving after a
  success turns a paid order into a failed one, and its report URL stays
  recorded.
- The status is written before the report is generated. If generation
  throws, the order stays paid, keeps whatever URL it already had (none for
  a first delivery), no mail is sent and the framework answers 500.
- A mail error is caught. It changes neither the store nor the response.
- The status route answers `pdfUrl: null` both when no URL is stored and
  when the stored URL is the empty string (`o.pdfUrl || null`).
- The schema's length checks count UTF-16 code units, which is what
  JavaScript's `.length` counts.
- The amount is always 330, whatever the request body holds.

The following external services are parameters of the model:

- the JSON parser: `None` means it threw;
- the e-mail check of the validation library;
- the report generator: `None` means it threw;
- the mailer: `false` means it threw;
- the random part of the order id.

## Model

| member | source | states |
|---|---|---|
| `Orders.Lookup` | lib/db.ts:25-27 | `get` is null exactly when the id is absent; otherwise it is the stored record. |
| `Orders.Upserted` | lib/db.ts:21-24 | `upsert` adds the id to the keys and files the whole record under its own id. Every other entry is kept. |
| `Orders.StatusSet` | lib/db.ts:28-34 | `setStatus` keeps the key set. On a known id it changes only that record's status. On an unknown id the store is unchanged. |
| `Orders.PdfSet` | lib/db.ts:35-41 | `setPdf` keeps the key set. On a known id it changes only that record's `pdfUrl`. On an unknown id the store is unchanged. |
| `Orders.MutatorsKeepKeyed` | lib/db.ts:17-41 | All three mutators keep every record filed under its own `orderId`. |
| `Orders.UpsertThenGet` | lib/db.ts:21-27 | After `upsert(o)`, `get(o.orderId)` is `o`, and every other lookup answers as before. |
| `Orders.UpsertReplacesWholeRecord` | lib/db.ts:21-24 | Nothing of a previous record under the same id survives an upsert. |
| `Orders.StatusSetIgnoresCurrentStatus` | lib/db.ts:28-34 | `setStatus` overwrites any current status, terminal ones included, and keeps `pdfUrl`. |
| `Orders.MutatorsIdempotent` | lib/db.ts:28-41 | Applying `setStatus` or `setPdf` twice with the same arguments equals applying it once. |
| `Orders.OrderStore.constructor` | lib/db.ts:17 | The process starts with an empty store. |
| `Orders.OrderStore.Upsert` | lib/db.ts:21-24 | The new contents are `Upserted` of the old, and the method returns the given order. |
| `Orders.OrderStore.Get` | lib/db.ts:25-27 | The result is null exactly when the id is absent; otherwise it is the stored record. |
| `Orders.OrderStore.SetStatus` | lib/db.ts:28-34 | The new contents are `StatusSet` of the old. The result is null exactly for an unknown id; otherwise it is the updated record. |
| `Orders.OrderStore.SetPdf` | lib/db.ts:35-41 | The new contents are `PdfSet` of the old. The result is null exactly for an unknown id; otherwise it is the updated record. |
| `PaymentTypes.ParseGender` | pages/api/checkout.ts:11-13 | A recognised gender spells exactly its literal. |
| `PaymentTypes.ParseGenderOfLiteral` | lib/payments/types.ts:8 | Each of the six literals is recognised as itself. |
| `JsValues.Prop` | lib/payments/mock.ts:52-61 | Reading a property of a non-object gives `undefined`. A property present on an object reads as its stored value, and an absent one as `undefined`. |
| `TextUtil.DecimalRoundTrip` | lib/payments/mock.ts:20 | `String(amount)` for an integral amount reads back as that amount. |
| `TextUtil.Utf16Length` | pages/api/checkout.ts:8-9 | The length that `min(n)` checks lies between the number of characters and twice that. |
| `TextUtil.BmpLength` | pages/api/checkout.ts:8-9 | For a string of Basic Multilingual Plane characters the checked length is exactly the number of characters. |
| `TextUtil.AstralCountsTwice` | pages/api/checkout.ts:8-9 | Each character outside the Basic Multilingual Plane adds two to the checked length. |
| `TextUtil.SplitJoin` | server/generatePdf.ts:175 | Splitting on a separator undoes joining with it when no part contains the separator. |
| `FormEncoding.DecodeCharOfEncoding` | lib/payments/mock.ts:14-21 | Decoding the UTF-8 bytes of one character gives it back and consumes exactly those bytes. |
| `FormEncoding.Utf8RoundTrip` | lib/payments/mock.ts:14-21 | UTF-8 decoding undoes the serializer's UTF-8 encoding. |
| `FormEncoding.FormRoundTrip` | lib/payments/mock.ts:14-21 | Decoding a percent-encoded name or value gives it back. |
| `FormEncoding.FormEncodeHasNoSeparators` | lib/payments/mock.ts:14-21 | An encoded name or value contains neither `&` nor `=`. |
| `FormEncoding.QueryRoundTrip` | lib/payments/mock.ts:14-21 | Parsing `qs.toString()` gives back every name/value pair, in order. |
| `MockPayments.CreateCheckout` | lib/payments/mock.ts:12-26 | The id is `ord_` followed by the random part. The URL is `/checkout/`, then the id, then `?`, then the query. |
| `MockPayments.ParseCheckoutUrlOfParts` | lib/payments/mock.ts:23 | A URL of that shape reads back as its id and query pairs whenever the id holds no `?`. |
| `MockPayments.CheckoutUrlCarriesPayload` | lib/payments/mock.ts:12-26 | For a base-36 random part, the checkout URL reads back as the returned id and as the six query pairs in order. |
| `MockPayments.CheckoutQueryFields` | lib/payments/mock.ts:14-21 | Each query parameter, looked up by name, gives the id or the matching payload field. The amount reads back as the payload's number. |
| `MockPayments.SafeJson` | lib/payments/mock.ts:48-50 | The result is the parsed value, or `{}` when parsing throws. |
| `MockPayments.RawBody` | lib/payments/mock.ts:31 | A string body becomes its parsed value, or `{}` when parsing throws. A missing or null body becomes `{}`. Any other body is taken as it is. |
| `MockPayments.IsWebhookByType` | lib/payments/mock.ts:52-56 | The guard holds exactly for an object with a string `orderId` and a `type` of `payment.succeeded` or `payment.failed`. |
| `MockPayments.IsWebhookByOk` | lib/payments/mock.ts:58-62 | The guard holds exactly for an object with a string `orderId` and a boolean `ok`. |
| `MockPayments.ParseWebhook` | lib/payments/mock.ts:29-44 | There is an event exactly when the raw value is an object with a string `orderId` and either an event-literal `type` or a boolean `ok`. The event carries that `orderId`. A literal `type` decides the event type; otherwise `ok` decides it. |
| `MockPayments.ParseWebhookByType` | lib/payments/mock.ts:33-36 | `{type, orderId}` yields an event with that type and that id. |
| `MockPayments.ParseWebhookByOk` | lib/payments/mock.ts:38-41 | `{orderId, ok}` yields success exactly when `ok` is true. An event-literal `type` takes precedence. |
| `MockPayments.ParseWebhookRejects` | lib/payments/mock.ts:31 | The result is null in three cases: a missing or null body, a string body that does not parse, and any value without a string `orderId`. |
| `MockPayments.StringBodyParsedFirst` | lib/payments/mock.ts:31 | A string body is classified like the non-string value it parses to. |
| `CheckoutApi.ValidateCheckout` | pages/api/checkout.ts:7-14 | The body is accepted exactly when it is an object with a non-empty `name`, a `birthdate` of at least 8 code units, an `email` the e-mail check accepts and a gender literal. The result carries those values. |
| `CheckoutApi.CheckoutOutcome` | pages/api/checkout.ts:17-47 | The route answers 200, 400 or 405. Only a 200 writes the store. That write adds one order under the returned id, pending, with no URL and amount 330, and keeps every other order. |
| `CheckoutApi.HandleCheckout` | pages/api/checkout.ts:17-47 | The response and the new store contents are those of `CheckoutOutcome` on the old contents. |
| `CheckoutApi.CheckoutRejections` | pages/api/checkout.ts:18-22 | A non-POST request gets 405 and an invalid body gets 400; neither writes the store. The answer is 200 exactly for a POST with a valid body. |
| `CheckoutApi.CheckoutAccepted` | pages/api/checkout.ts:25-46 | A valid POST stores a pending order with the validated fields and amount 330 under the returned `ord_` id. It leaves every other order as it was. It answers with a URL that reads back as that id and the six query pairs: the id, the validated name, birthdate, email and gender, and amount `330`. |
| `CheckoutApi.DecimalOf330` | pages/api/checkout.ts:27 | The fixed amount is written as `330` in the query. |
| `CheckoutApi.AmountIsFixed` | pages/api/checkout.ts:25-28 | The stored amount is 330 whatever the body holds. |
| `OrderApi.OrderStatus` | pages/api/order.ts:5-10 | The response is 404 exactly when the query does not name a single stored id. Otherwise it is 200 with the stored status. `pdfUrl` is null exactly when no URL or an empty one is stored, and otherwise it is the stored URL. |
| `PaymentWebhook.HandleWebhook` | pages/api/webhooks/payment.ts:8-45 | The response, the new store contents and the calls to the generator and the mailer are those of `WebhookOutcome` on the old contents. |
| `PaymentWebhook.WebhookOutcome` | pages/api/webhooks/payment.ts:8-45 | The route answers 200, 400, 405 or 500. It never adds or removes an order. Only the event's order can change, and only in its status and `pdfUrl`. At most two external calls are made, and a 500 is exactly the case where the generator ran and the mailer did not. |
| `PaymentWebhook.WebhookRejections` | pages/api/webhooks/payment.ts:10-20 | A non-POST request gets 405 and an unrecognised event gets 400. Neither changes the store or calls the generator or the mailer. |
| `PaymentWebhook.SucceededForKnownOrder` | pages/api/webhooks/payment.ts:22-38 | A success for a known order leaves it paid with the generated URL and changes no other order. The report is generated from the paid order. The receipt goes out with the recorded order and URL, and the answer is 200. |
| `PaymentWebhook.GenerationFailureLeavesOrderPaid` | pages/api/webhooks/payment.ts:24-29 | If generation throws, the order is already paid and every other order is unchanged. No mail is sent and the answer is 500. |
| `PaymentWebhook.FailedEventMarksFailed` | pages/api/webhooks/payment.ts:39-44 | A failure event marks a known order failed whatever its status was. It keeps the URL, changes no other order and answers 200. |
| `PaymentWebhook.UnknownOrderIsAcknowledged` | pages/api/webhooks/payment.ts:22-44 | An event for an unknown order is answered 200 and changes nothing. |
| `PaymentWebhook.MailFailureIsHarmless` | pages/api/webhooks/payment.ts:33-37 | Whether the mailer succeeds changes neither the response nor the store. |
| `PaymentWebhook.NoTransitionGuard` | pages/api/webhooks/payment.ts:22-41 | A redelivered success generates and mails again. A later failure turns a paid order failed while its URL stays recorded. |
| `Report.BuildSections` | server/generatePdf.ts:148-177 | There are always seven sections, and the first is chosen by gender. Sections 2 to 7 carry the fixed titles. The first six bodies end with the shared paragraph, and the last is the checklist. |
| `Report.SectionsDependOnlyOnGender` | server/generatePdf.ts:148-177 | Orders with equal gender get identical sections. |
| `Report.ActionBodyLines` | server/generatePdf.ts:175 | The last body splits into exactly three lines, each starting with `・`. |
| `Report.MapGender` | server/generatePdf.ts:179-189 | The label is 未設定 exactly for a missing value or a string other than the six literals. |
| `Report.MapGenderInjective` | server/generatePdf.ts:179-189 | Distinct genders get distinct labels. |
| `Report.FirstTitleFromLabel` | server/generatePdf.ts:155-166 | For the five genders other than prefer-not, the first title is the gender label followed by のあなたへ; otherwise it is あなたへ. |
| `Report.LocalReportPath` | server/generatePdf.ts:130-145 | The local generator's URL is `/reports/`, then the order id, then `.pdf`. |
| `Report.ReportPathRoundTrip` | server/generatePdf.ts:130-145 | The local report path names exactly the order it was generated for. |
| `Lifecycle.PageEventParses` | lib/payments/mock.ts:33-36 | The `{type, orderId}` event the checkout page posts is recognised, with its type and order id. |
| `Lifecycle.CheckoutThenEvent` | pages/api/webhooks/payment.ts:22-41 | After a valid checkout and the page's event, the order is paid or failed as chosen and keeps its checkout details and amount 330. A generated URL is recorded; a failed order has none. |
| `Lifecycle.LocalReportUrlNamesOrder` | server/generatePdf.ts:127-146 | With the local generator, the URL a success records is the report path of that order. |

## Left out

- Drawing the PDF, fonts, colours, page layout and the date on the cover are not modelled. These are pdfkit calls and `dayjs` reading the clock. Only the section texts, the gender label and the output path are modelled.
- Writing the file to `public/reports` is not modelled: it is file-system I/O. The local generator is modelled only through the path it returns.
- The webhook imports `generateAndStorePdf`, but server/generatePdf.ts exports only `generatePdfBuffer` and `generateAndStorePdfLocal`. The generator the webhook calls is therefore a parameter (`Order -> Option<string>`). `Lifecycle.LocalReportUrlNamesOrder` instantiates it with the local generator's path.
- Receipt mail construction and SMTP delivery (server/mailer.ts) are not part of this model. Sending is a parameter that may fail.
- lib/ai.ts, the UI pages and the report download route are not part of this model. The checkout page appears only as the event body it posts.
- Provider selection (lib/payments/provider.ts) is not part of this model. The mock provider is always used.
- The random id part comes from `Math.random()`. It is a parameter, and the uniqueness of order ids is not claimed.
- The e-mail format check of the validation library is a parameter, not a definition.
- `JSON.parse` is a parameter: it returns a value or throws.
- Concurrency between requests is not modelled. Each request runs to completion on the store before the next starts.
- Object aliasing between the store and the handler's `order` variable is modelled by values. The mailer receives the stored record as it is after `setPdf`, which is what the shared object holds at that point.
- Strings are sequences of Unicode scalar values. Lone UTF-16 surrogates, which `URLSearchParams` replaces with U+FFFD, cannot occur in the model.
- Amounts are integers. Fractional and NaN amounts cannot occur, because the checkout route fixes the amount at 330.
- `DecimalString`: models `String(n)` for integers below 10^21 in magnitude only; beyond that JavaScript writes exponent form. The only amount the routes write is 330.
- The `console.error` log the webhook writes when the mailer throws is not modelled: it is logging I/O.
- Properties that JavaScript would find on prototypes are not modelled. A non-object reads as `undefined`, which holds for `orderId`, `type` and `ok`.
- `MailFailureIsHarmless` compares the effect sequences by length only. The `delivered` flag recorded in the receipt effect does differ.
