/** The checkout route of pages/api/checkout.ts: reject anything but POST,
    validate the body against the schema, fix the amount at 330, ask the
    provider for a checkout, record a pending order and answer with the
    checkout URL and order id. */
module CheckoutApi {
  import opened Options
  import opened JsValues
  import opened TextUtil
  import opened PaymentTypes
  import opened MockPayments
  import opened Orders
  import opened Http

  /** The price of one report, in yen; the request cannot change it. */
  const CheckoutAmount: int := 330

  /** The fields the schema keeps (unknown keys are stripped). */
  datatype CheckoutInput = CheckoutInput(name: string, birthdate: string, email: string, gender: Gender)

  /** `schema.safeParse(req.body)`. `z.string().min(n)` counts UTF-16 code
      units; the library's e-mail check is the parameter `isEmail`. The body
      is accepted exactly when it is an object whose `name` is a non-empty
      string, whose `birthdate` is a string of length at least 8, whose
      `email` is a string `isEmail` accepts and whose `gender` is one of the
      six literals; the result carries those four values. */
  function ValidateCheckout(body: JsValue, isEmail: string -> bool): (r: Option<CheckoutInput>)
    ensures r.Some? <==>
      && body.Obj?
      && Prop(body, "name").Str? && Prop(body, "name").s != ""
      && Prop(body, "birthdate").Str? && Utf16Length(Prop(body, "birthdate").s) >= 8
      && Prop(body, "email").Str? && isEmail(Prop(body, "email").s)
      && Prop(body, "gender").Str? && ParseGender(Prop(body, "gender").s).Some?
    ensures r.Some? ==>
      && Prop(body, "name") == Str(r.value.name)
      && Prop(body, "birthdate") == Str(r.value.birthdate)
      && Prop(body, "email") == Str(r.value.email)
      && Prop(body, "gender") == Str(r.value.gender.Literal())
  {
    if !body.Obj? then None
    else
      var name, birthdate, email, gender := Prop(body, "name"), Prop(body, "birthdate"), Prop(body, "email"), Prop(body, "gender");
      if && name.Str? && Utf16Length(name.s) >= 1
         && birthdate.Str? && Utf16Length(birthdate.s) >= 8
         && email.Str? && isEmail(email.s)
         && gender.Str? && ParseGender(gender.s).Some?
      then Some(CheckoutInput(name.s, birthdate.s, email.s, ParseGender(gender.s).value))
      else None
  }

  /** The record the route stores for a created checkout. */
  function PendingOrder(orderId: string, input: CheckoutInput): Order {
    Order(orderId, input.name, input.birthdate, input.email, input.gender.Literal(), CheckoutAmount, Pending, None)
  }

  /** Response and store contents after one request to the route, from the
      store contents before it. */
  function CheckoutOutcome(m: Store, httpMethod: string, body: JsValue, isEmail: string -> bool, suffix: string): (r: (Response, Store))
    ensures r.0.code in {200, 400, 405}
    ensures r.0.code != 200 ==> r.1 == m
    ensures r.0.code == 200 ==> r.0.body.CheckoutCreated?
    ensures r.0.body.CheckoutCreated? ==>
      var id := r.0.body.orderId;
      && r.1.Keys == m.Keys + {id}
      && r.1[id].orderId == id && r.1[id].status == Pending && r.1[id].pdfUrl == None && r.1[id].amount == 330
      && (forall k :: k in m && k != id ==> r.1[k] == m[k])
  {
    if httpMethod != "POST" then (Response(405, ErrorMessage("Method not allowed")), m)
    else match ValidateCheckout(body, isEmail)
      case None => (Response(400, ErrorMessage("Bad request")), m)
      case Some(input) =>
        var payload := CheckoutPayload(input.name, input.birthdate, input.email, input.gender, CheckoutAmount);
        var result := CreateCheckout(payload, suffix);
        (Response(200, CheckoutCreated(result.checkoutUrl, result.orderId)), Upserted(m, PendingOrder(result.orderId, input)))
  }

  /** The route handler. `suffix` is the provider's random id part. */
  method HandleCheckout(store: OrderStore, httpMethod: string, body: JsValue, isEmail: string -> bool, suffix: string)
    returns (resp: Response)
    requires store.Valid()
    modifies store
    ensures store.Valid()
    ensures (resp, store.orders) == CheckoutOutcome(old(store.orders), httpMethod, body, isEmail, suffix)
  {
    if httpMethod != "POST" {
      return Response(405, ErrorMessage("Method not allowed"));
    }
    var parsed := ValidateCheckout(body, isEmail);
    if parsed.None? {
      return Response(400, ErrorMessage("Bad request"));
    }
    var input := parsed.value;
    var payload := CheckoutPayload(input.name, input.birthdate, input.email, input.gender, CheckoutAmount);
    var result := CreateCheckout(payload, suffix);
    var _ := store.Upsert(PendingOrder(result.orderId, input));
    resp := Response(200, CheckoutCreated(result.checkoutUrl, result.orderId));
  }

  /** Rejected requests: anything but POST is answered 405 and an invalid
      body 400, and neither writes the store. */
  lemma CheckoutRejections(m: Store, httpMethod: string, body: JsValue, isEmail: string -> bool, suffix: string)
    ensures var (resp, m') := CheckoutOutcome(m, httpMethod, body, isEmail, suffix);
      && (httpMethod != "POST" ==> resp.code == 405 && m' == m)
      && (httpMethod == "POST" && ValidateCheckout(body, isEmail).None? ==> resp.code == 400 && m' == m)
      && (resp.code == 200 <==> httpMethod == "POST" && ValidateCheckout(body, isEmail).Some?)
  {
  }

  /** A valid POST stores a pending order with the validated name,
      birthdate, email and gender and the fixed amount of 330 under the
      returned `ord_…` id, leaves every other order as it was, and answers
      with that id and a checkout URL that reads back as the id and the
      payload, amount included. */
  lemma CheckoutAccepted(m: Store, body: JsValue, isEmail: string -> bool, suffix: string)
    requires ValidateCheckout(body, isEmail).Some?
    requires forall i :: 0 <= i < |suffix| ==> IsBase36Digit(suffix[i])
    ensures var (resp, m') := CheckoutOutcome(m, "POST", body, isEmail, suffix);
      var input := ValidateCheckout(body, isEmail).value;
      var id := OrderIdPrefix + suffix;
      && resp == Response(200, resp.body)
      && resp.body.CheckoutCreated? && resp.body.orderId == id
      && Lookup(m', id) == Some(Order(id, input.name, input.birthdate, input.email, input.gender.Literal(), 330, Pending, None))
      && (forall k :: k != id ==> Lookup(m', k) == Lookup(m, k))
      && ParseCheckoutUrl(resp.body.checkoutUrl)
         == Some((id, CheckoutQuery(id, CheckoutPayload(input.name, input.birthdate, input.email, input.gender, 330))))
  {
    var input := ValidateCheckout(body, isEmail).value;
    var payload := CheckoutPayload(input.name, input.birthdate, input.email, input.gender, CheckoutAmount);
    var id := OrderIdPrefix + suffix;
    var result := CreateCheckout(payload, suffix);
    var (resp, m') := CheckoutOutcome(m, "POST", body, isEmail, suffix);
    assert resp == Response(200, CheckoutCreated(result.checkoutUrl, id));
    assert m' == Upserted(m, PendingOrder(id, input));
    CheckoutUrlCarriesPayload(payload, suffix);
  }

  lemma DecimalOf330()
    ensures DecimalString(CheckoutAmount) == "330"
  {
    assert Digits(3) == "3";
    assert Digits(33) == Digits(3) + "3";
    assert Digits(330) == Digits(33) + "0";
  }

  /** The amount stored and sent to the provider is 330 whatever the body
      holds, including an `amount` field of its own. */
  lemma AmountIsFixed(m: Store, body: JsValue, isEmail: string -> bool, suffix: string)
    requires ValidateCheckout(body, isEmail).Some?
    ensures var (resp, m') := CheckoutOutcome(m, "POST", body, isEmail, suffix);
      resp.body.CheckoutCreated? && resp.body.orderId in m' && m'[resp.body.orderId].amount == 330
  {
  }
}
