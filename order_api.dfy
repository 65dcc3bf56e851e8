/** The status route of pages/api/order.ts: a read-only lookup of
    `req.query.orderId`. */
module OrderApi {
  import opened Options
  import opened Orders
  import opened Http

  /** The route handler. `Map.get` with a missing or repeated parameter finds
      nothing, so only a single value can name an order. `o.pdfUrl || null`
      turns both an absent and an empty URL into `null`. Being a function of
      the store, it cannot modify it.
      The answer is 404 exactly when no order is stored under the id; other
      answers are 200 with the stored status and with `pdfUrl` null when the
      order has no (or an empty) URL and the stored URL otherwise. */
  function OrderStatus(store: OrderStore, orderId: QueryParam): (r: Response)
    reads store
    ensures r.code == 404 <==> !(orderId.Single? && orderId.value in store.orders)
    ensures r.code == 404 ==> r.body == ErrorMessage("not found")
    ensures r.code != 404 ==>
      var o := store.orders[orderId.value];
      && r.code == 200
      && r.body.OrderView?
      && r.body.status == o.status
      && (r.body.pdfUrl.None? <==> o.pdfUrl.None? || o.pdfUrl.value == "")
      && (r.body.pdfUrl.Some? ==> r.body.pdfUrl == o.pdfUrl)
  {
    var found := if orderId.Single? then store.Get(orderId.value) else None;
    match found
    case None => Response(404, ErrorMessage("not found"))
    case Some(o) =>
      var url := if o.pdfUrl.Some? && o.pdfUrl.value != "" then o.pdfUrl else None;
      Response(200, OrderView(o.status, url))
  }
}
