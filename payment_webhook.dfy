/** The payment webhook of pages/api/webhooks/payment.ts: reject anything but
    POST, parse the event, then on success mark the order paid, generate and
    record its report and try to mail a receipt; on failure mark it failed.
    The handler never reads the order's current status. */
module PaymentWebhook {
  import opened Options
  import opened JsValues
  import opened PaymentTypes
  import opened MockPayments
  import opened Orders
  import opened Http

  /** Calls the handler makes to the report generator and the mailer, in
      order, with what they were given. */
  datatype Effect =
    | PdfGenerated(order: Order)
    | ReceiptMailed(order: Order, pdfUrl: string, delivered: bool)

  datatype WebhookResult = WebhookResult(response: Response, store: Store, effects: seq<Effect>)

  /** The outcome of one delivery, from the store contents before it.
      `generatePdf` stands for the imported report generator: `Some(url)` is
      the URL it resolves to, `None` an exception, which escapes the handler
      and makes the framework answer 500. `sendReceipt` is the mailer:
      `false` is a thrown error, which the handler catches and logs. The
      order handed to the mailer is the stored object, which by then also
      holds the new URL. */
  function WebhookOutcome(
    m: Store, httpMethod: string, body: JsValue, jsonParse: string -> Option<JsValue>,
    generatePdf: Order -> Option<string>, sendReceipt: (Order, string) -> bool): (r: WebhookResult)
    ensures r.response.code in {200, 400, 405, 500}
    ensures r.store.Keys == m.Keys
    ensures forall k :: k in m && r.store[k] != m[k] ==>
      ParseWebhook(body, jsonParse).Some? && k == ParseWebhook(body, jsonParse).value.orderId
    ensures forall k :: k in m ==> r.store[k].(status := m[k].status, pdfUrl := m[k].pdfUrl) == m[k]
    ensures |r.effects| <= 2
    ensures r.response.code == 500 <==> |r.effects| == 1
  {
    if httpMethod != "POST" then WebhookResult(Response(405, ErrorMessage("Method not allowed")), m, [])
    else match ParseWebhook(body, jsonParse)
      case None => WebhookResult(Response(400, ErrorMessage("invalid event")), m, [])
      case Some(WebhookEvent(PaymentFailed, id)) =>
        WebhookResult(Response(200, Acknowledged), StatusSet(m, id, Failed), [])
      case Some(WebhookEvent(PaymentSucceeded, id)) =>
        var paid := StatusSet(m, id, Paid);
        match Lookup(paid, id)
        case None => WebhookResult(Response(200, Acknowledged), paid, [])
        case Some(order) =>
          match generatePdf(order)
          case None => WebhookResult(Response(500, InternalError), paid, [PdfGenerated(order)])
          case Some(url) =>
            var recorded := PdfSet(paid, id, url);
            var mailed := recorded[id];
            WebhookResult(Response(200, Acknowledged), recorded,
              [PdfGenerated(order), ReceiptMailed(mailed, url, sendReceipt(mailed, url))])
  }

  /** The route handler. */
  method HandleWebhook(
    store: OrderStore, httpMethod: string, body: JsValue, jsonParse: string -> Option<JsValue>,
    generatePdf: Order -> Option<string>, sendReceipt: (Order, string) -> bool)
    returns (resp: Response, effects: seq<Effect>)
    requires store.Valid()
    modifies store
    ensures store.Valid()
    ensures WebhookResult(resp, store.orders, effects)
         == WebhookOutcome(old(store.orders), httpMethod, body, jsonParse, generatePdf, sendReceipt)
  {
    effects := [];
    if httpMethod != "POST" {
      return Response(405, ErrorMessage("Method not allowed")), effects;
    }
    var evt := ParseWebhook(body, jsonParse);
    if evt.None? {
      return Response(400, ErrorMessage("invalid event")), effects;
    }
    var id := evt.value.orderId;
    if evt.value.kind == PaymentSucceeded {
      var _ := store.SetStatus(id, Paid);
      var order := store.Get(id);
      if order.Some? {
        var pdfUrl := generatePdf(order.value);
        effects := effects + [PdfGenerated(order.value)];
        if pdfUrl.None? {
          return Response(500, InternalError), effects;
        }
        var _ := store.SetPdf(id, pdfUrl.value);
        var mailed := store.orders[id];
        var delivered := sendReceipt(mailed, pdfUrl.value);
        effects := effects + [ReceiptMailed(mailed, pdfUrl.value, delivered)];
      }
    } else {
      var _ := store.SetStatus(id, Failed);
    }
    resp := Response(200, Acknowledged);
  }

  /** Anything but POST is answered 405 and a body the provider does not
      recognise 400; neither touches the store, the generator or the
      mailer. */
  lemma WebhookRejections(
    m: Store, httpMethod: string, body: JsValue, jsonParse: string -> Option<JsValue>,
    generatePdf: Order -> Option<string>, sendReceipt: (Order, string) -> bool)
    ensures var r := WebhookOutcome(m, httpMethod, body, jsonParse, generatePdf, sendReceipt);
      && (httpMethod != "POST" ==> r.response.code == 405 && r.store == m && r.effects == [])
      && (httpMethod == "POST" && ParseWebhook(body, jsonParse).None? ==>
            r.response.code == 400 && r.store == m && r.effects == [])
  {
  }

  /** A success for a known order leaves it paid with the generated URL,
      changes no other order, generates the report from the paid order and
      mails the receipt with the recorded order and URL, answering 200. */
  lemma SucceededForKnownOrder(
    m: Store, body: JsValue, jsonParse: string -> Option<JsValue>,
    generatePdf: Order -> Option<string>, sendReceipt: (Order, string) -> bool, id: string, url: string)
    requires ParseWebhook(body, jsonParse) == Some(WebhookEvent(PaymentSucceeded, id))
    requires id in m
    requires generatePdf(m[id].(status := Paid)) == Some(url)
    ensures var r := WebhookOutcome(m, "POST", body, jsonParse, generatePdf, sendReceipt);
      var done := m[id].(status := Paid, pdfUrl := Some(url));
      && r.response == Response(200, Acknowledged)
      && Lookup(r.store, id) == Some(done)
      && (forall k :: k != id ==> Lookup(r.store, k) == Lookup(m, k))
      && r.effects == [PdfGenerated(m[id].(status := Paid)), ReceiptMailed(done, url, sendReceipt(done, url))]
  {
  }

  /** The status is set to paid before generation starts, so a generator
      failure leaves the order paid (with its URL as before), changes no
      other order, sends no mail and answers 500. */
  lemma GenerationFailureLeavesOrderPaid(
    m: Store, body: JsValue, jsonParse: string -> Option<JsValue>,
    generatePdf: Order -> Option<string>, sendReceipt: (Order, string) -> bool, id: string)
    requires ParseWebhook(body, jsonParse) == Some(WebhookEvent(PaymentSucceeded, id))
    requires id in m
    requires generatePdf(m[id].(status := Paid)).None?
    ensures var r := WebhookOutcome(m, "POST", body, jsonParse, generatePdf, sendReceipt);
      && r.response.code == 500
      && Lookup(r.store, id) == Some(m[id].(status := Paid))
      && (forall k :: k != id ==> Lookup(r.store, k) == Lookup(m, k))
      && r.effects == [PdfGenerated(m[id].(status := Paid))]
  {
  }

  /** A failure event marks a known order failed, whatever its status was,
      keeps its URL, and calls neither generator nor mailer. */
  lemma FailedEventMarksFailed(
    m: Store, body: JsValue, jsonParse: string -> Option<JsValue>,
    generatePdf: Order -> Option<string>, sendReceipt: (Order, string) -> bool, id: string)
    requires ParseWebhook(body, jsonParse) == Some(WebhookEvent(PaymentFailed, id))
    ensures var r := WebhookOutcome(m, "POST", body, jsonParse, generatePdf, sendReceipt);
      && r.response == Response(200, Acknowledged)
      && r.effects == []
      && (id in m ==> Lookup(r.store, id) == Some(m[id].(status := Failed)))
      && (forall k :: k != id ==> Lookup(r.store, k) == Lookup(m, k))
  {
  }

  /** A recognised event for an unknown order is acknowledged with 200 and
      changes nothing: no store write, no report, no mail. */
  lemma UnknownOrderIsAcknowledged(
    m: Store, body: JsValue, jsonParse: string -> Option<JsValue>,
    generatePdf: Order -> Option<string>, sendReceipt: (Order, string) -> bool)
    requires ParseWebhook(body, jsonParse).Some?
    requires ParseWebhook(body, jsonParse).value.orderId !in m
    ensures var r := WebhookOutcome(m, "POST", body, jsonParse, generatePdf, sendReceipt);
      r.response == Response(200, Acknowledged) && r.store == m && r.effects == []
  {
  }

  /** Whether the mail goes out changes neither the store nor the answer. */
  lemma MailFailureIsHarmless(
    m: Store, httpMethod: string, body: JsValue, jsonParse: string -> Option<JsValue>,
    generatePdf: Order -> Option<string>, send1: (Order, string) -> bool, send2: (Order, string) -> bool)
    ensures var r1 := WebhookOutcome(m, httpMethod, body, jsonParse, generatePdf, send1);
      var r2 := WebhookOutcome(m, httpMethod, body, jsonParse, generatePdf, send2);
      r1.response == r2.response && r1.store == r2.store && |r1.effects| == |r2.effects|
  {
  }

  /** The handler does not look at the current status: a second delivery of
      the same success generates the report and mails again, and a failure
      delivered after a success turns the paid order failed while its URL
      stays recorded. */
  lemma NoTransitionGuard(
    m: Store, body: JsValue, failBody: JsValue, jsonParse: string -> Option<JsValue>,
    generatePdf: Order -> Option<string>, sendReceipt: (Order, string) -> bool, id: string, url: string)
    requires ParseWebhook(body, jsonParse) == Some(WebhookEvent(PaymentSucceeded, id))
    requires ParseWebhook(failBody, jsonParse) == Some(WebhookEvent(PaymentFailed, id))
    requires id in m
    requires generatePdf(m[id].(status := Paid)) == Some(url)
    requires generatePdf(m[id].(status := Paid, pdfUrl := Some(url))) == Some(url)
    ensures var first := WebhookOutcome(m, "POST", body, jsonParse, generatePdf, sendReceipt);
      var again := WebhookOutcome(first.store, "POST", body, jsonParse, generatePdf, sendReceipt);
      var failed := WebhookOutcome(first.store, "POST", failBody, jsonParse, generatePdf, sendReceipt);
      && first.store[id].status == Paid
      && |again.effects| == 2 && again.effects[0].PdfGenerated? && again.effects[1].ReceiptMailed?
      && again.store == first.store
      && failed.store[id].status == Failed
      && failed.store[id].pdfUrl == Some(url)
  {
    SucceededForKnownOrder(m, body, jsonParse, generatePdf, sendReceipt, id, url);
    var first := WebhookOutcome(m, "POST", body, jsonParse, generatePdf, sendReceipt);
    SucceededForKnownOrder(first.store, body, jsonParse, generatePdf, sendReceipt, id, url);
    FailedEventMarksFailed(first.store, failBody, jsonParse, generatePdf, sendReceipt, id);
  }
}
