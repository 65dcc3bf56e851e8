/** The responses the API routes send: a status code and a JSON body. */
module Http {
  import opened Options
  import opened Orders

  datatype ResponseBody =
    | ErrorMessage(error: string)                          // `{ error: ... }`
    | CheckoutCreated(checkoutUrl: string, orderId: string)
    | OrderView(status: Status, pdfUrl: Option<string>)    // `pdfUrl: null` is `None`
    | Acknowledged                                         // `{ ok: true }`
    | InternalError                                        // the framework's answer to an uncaught exception

  datatype Response = Response(code: int, body: ResponseBody)

  /** How a route sees `req.query.x`: absent, one value, or repeated. */
  datatype QueryParam = Missing | Single(value: string) | Multiple(values: seq<string>)
}
