/** The order lifecycle across the routes: a checkout creates a pending
    order, the checkout page of the simulated provider posts a success or
    failure event for it, and the webhook settles it. */
module Lifecycle {
  import opened Options
  import opened JsValues
  import opened PaymentTypes
  import opened MockPayments
  import opened Orders
  import opened Http
  import opened CheckoutApi
  import opened PaymentWebhook
  import opened Report

  /** The body the checkout page posts when the customer pays (`success`)
      or gives up. */
  function PageEvent(success: bool, orderId: string): JsValue {
    Obj(map["type" := Str(if success then PaymentSucceeded.Literal() else PaymentFailed.Literal()),
            "orderId" := Str(orderId)])
  }

  /** The page's event is recognised, with the order id it was given. */
  lemma PageEventParses(success: bool, orderId: string, jsonParse: string -> Option<JsValue>)
    ensures ParseWebhook(PageEvent(success, orderId), jsonParse)
         == Some(WebhookEvent(if success then PaymentSucceeded else PaymentFailed, orderId))
  {
    var kind := if success then PaymentSucceeded else PaymentFailed;
    ParseWebhookByType(PageEvent(success, orderId).fields, kind, orderId, jsonParse);
  }

  /** A valid checkout followed by the page's event leaves the new order
      paid or failed as the customer chose, with the details entered at
      checkout and the fixed amount. A paid order whose report was
      generated carries the report URL and the webhook answers 200; a
      failed one has no URL. */
  lemma CheckoutThenEvent(
    m: Store, body: JsValue, isEmail: string -> bool, suffix: string, success: bool,
    jsonParse: string -> Option<JsValue>, generatePdf: Order -> Option<string>, sendReceipt: (Order, string) -> bool)
    requires ValidateCheckout(body, isEmail).Some?
    requires forall i :: 0 <= i < |suffix| ==> IsBase36Digit(suffix[i])
    ensures var (resp, m1) := CheckoutOutcome(m, "POST", body, isEmail, suffix);
      var id := OrderIdPrefix + suffix;
      var input := ValidateCheckout(body, isEmail).value;
      var w := WebhookOutcome(m1, "POST", PageEvent(success, id), jsonParse, generatePdf, sendReceipt);
      var generated := generatePdf(m1[id].(status := Paid));
      && id in m1
      && id in w.store
      && w.store[id].status == (if success then Paid else Failed)
      && w.store[id].(status := Pending, pdfUrl := None) == PendingOrder(id, input)
      && w.store[id].amount == 330
      && (success && generated.Some? ==> w.store[id].pdfUrl == generated && w.response.code == 200)
      && (success && generated.None? ==> w.store[id].pdfUrl == None && w.response.code == 500)
      && (!success ==> w.store[id].pdfUrl == None && w.response.code == 200)
  {
    CheckoutAccepted(m, body, isEmail, suffix);
    var (resp, m1) := CheckoutOutcome(m, "POST", body, isEmail, suffix);
    var id := OrderIdPrefix + suffix;
    assert m1[id] == PendingOrder(id, ValidateCheckout(body, isEmail).value);
    PageEventParses(success, id, jsonParse);
    var evt := PageEvent(success, id);
    if success {
      match generatePdf(m1[id].(status := Paid))
      case Some(url) => SucceededForKnownOrder(m1, evt, jsonParse, generatePdf, sendReceipt, id, url);
      case None => GenerationFailureLeavesOrderPaid(m1, evt, jsonParse, generatePdf, sendReceipt, id);
    } else {
      FailedEventMarksFailed(m1, evt, jsonParse, generatePdf, sendReceipt, id);
    }
  }

  /** With the local report generator (`generateAndStorePdfLocal`), the URL
      a success records for an order is the report path that names that
      order. */
  lemma LocalReportUrlNamesOrder(
    m: Store, body: JsValue, jsonParse: string -> Option<JsValue>,
    generatePdf: Order -> Option<string>, sendReceipt: (Order, string) -> bool, id: string)
    requires ParseWebhook(body, jsonParse) == Some(WebhookEvent(PaymentSucceeded, id))
    requires id in m
    requires forall o: Order :: generatePdf(o) == Some(LocalReportPath(o.orderId))
    requires Keyed(m)
    ensures var w := WebhookOutcome(m, "POST", body, jsonParse, generatePdf, sendReceipt);
      && w.store[id].pdfUrl.Some?
      && OrderIdOfReportPath(w.store[id].pdfUrl.value) == Some(id)
  {
    SucceededForKnownOrder(m, body, jsonParse, generatePdf, sendReceipt, id, LocalReportPath(id));
    ReportPathRoundTrip(id);
  }
}
