/** The simulated payment provider of lib/payments/mock.ts: checkout creation
    builds an `ord_…` id and a local checkout URL that carries the payload in
    its query string; webhook parsing normalises two historical payload
    shapes into one event and answers `null` for anything else. */
module MockPayments {
  import opened Options
  import opened JsValues
  import opened TextUtil
  import opened FormEncoding
  import opened PaymentTypes

  /** A character `Number.prototype.toString(36)` writes for the fractional
      digits of `Math.random()`. */
  predicate IsBase36Digit(c: char) {
    ('0' <= c <= '9') || ('a' <= c <= 'z')
  }

  const OrderIdPrefix: string := "ord_"
  const CheckoutPath: string := "/checkout/"

  /** The query parameters of the checkout URL, in insertion order. */
  function CheckoutQuery(orderId: string, payload: CheckoutPayload): seq<(string, string)> {
    [ ("orderId", orderId),
      ("name", payload.name),
      ("birthdate", payload.birthdate),
      ("email", payload.email),
      ("gender", payload.gender.Literal()),
      ("amount", DecimalString(payload.amount)) ]
  }

  /** `MockProvider.createCheckout`. The random part of the id,
      `Math.random().toString(36).slice(2, 10)`, is the parameter `suffix`. */
  function CreateCheckout(payload: CheckoutPayload, suffix: string): (r: CheckoutResponse)
    ensures |r.orderId| == |OrderIdPrefix| + |suffix|
    ensures r.orderId[..|OrderIdPrefix|] == OrderIdPrefix && r.orderId[|OrderIdPrefix|..] == suffix
    ensures |r.checkoutUrl| > |CheckoutPath| + |r.orderId|
    ensures r.checkoutUrl[..|CheckoutPath|] == CheckoutPath
    ensures r.checkoutUrl[|CheckoutPath|..|CheckoutPath| + |r.orderId|] == r.orderId
    ensures r.checkoutUrl[|CheckoutPath| + |r.orderId|] == '?'
  {
    var orderId := OrderIdPrefix + suffix;
    var qs := SerializeQuery(CheckoutQuery(orderId, payload));
    CheckoutUrlLayout(orderId, qs);
    CheckoutResponse(CheckoutPath + orderId + "?" + qs, orderId)
  }

  lemma CheckoutUrlLayout(orderId: string, qs: string)
    ensures var url := CheckoutPath + orderId + "?" + qs;
      && url[..|CheckoutPath|] == CheckoutPath
      && url[|CheckoutPath|..|CheckoutPath| + |orderId|] == orderId
      && url[|CheckoutPath| + |orderId|] == '?'
  {
    var url := CheckoutPath + orderId + "?" + qs;
    assert url[..|CheckoutPath|] == CheckoutPath;
    assert url[|CheckoutPath|..|CheckoutPath| + |orderId|] == orderId;
  }

  /** How the next hop reads a checkout URL: the path segment after
      `/checkout/` up to the first `?` is the order id, the rest is the
      query. */
  function ParseCheckoutUrl(url: string): Option<(string, seq<(string, string)>)> {
    if |url| >= |CheckoutPath| && url[..|CheckoutPath|] == CheckoutPath then
      var rest := url[|CheckoutPath|..];
      var i := IndexOf(rest, '?');
      if i < |rest| then
        match ParseQuery(rest[i + 1..])
        case Some(q) => Some((rest[..i], q))
        case None => None
      else None
    else None
  }

  /** The value of the first parameter called `name`. */
  function QueryValue(q: seq<(string, string)>, name: string): Option<string> {
    if |q| == 0 then None
    else if q[0].0 == name then Some(q[0].1)
    else QueryValue(q[1..], name)
  }

  /** A URL of the shape `createCheckout` builds reads back as its parts
      whenever the id holds no `?`. */
  lemma ParseCheckoutUrlOfParts(orderId: string, pairs: seq<(string, string)>)
    requires '?' !in orderId
    ensures ParseCheckoutUrl(CheckoutPath + orderId + "?" + SerializeQuery(pairs)) == Some((orderId, pairs))
  {
    var qs := SerializeQuery(pairs);
    QueryRoundTrip(pairs);
    var url := CheckoutPath + orderId + "?" + qs;
    var rest := orderId + "?" + qs;
    assert url[..|CheckoutPath|] == CheckoutPath;
    assert url[|CheckoutPath|..] == rest;
    assert forall j :: 0 <= j < |orderId| ==> rest[j] == orderId[j] && rest[j] != '?';
    assert rest[|orderId|] == '?';
    assert IndexOf(rest, '?') == |orderId|;
    assert rest[..|orderId|] == orderId;
    assert rest[|orderId| + 1..] == qs;
  }

  /** Reading the checkout URL back gives the returned order id, both as
      the path segment and as the query, with every field of the payload
      after it. */
  lemma CheckoutUrlCarriesPayload(payload: CheckoutPayload, suffix: string)
    requires forall i :: 0 <= i < |suffix| ==> IsBase36Digit(suffix[i])
    ensures var r := CreateCheckout(payload, suffix);
      ParseCheckoutUrl(r.checkoutUrl) == Some((r.orderId, CheckoutQuery(r.orderId, payload)))
  {
    var orderId := OrderIdPrefix + suffix;
    assert forall j :: 0 <= j < |orderId| ==> orderId[j] != '?' by {
      assert forall j :: |OrderIdPrefix| <= j < |orderId| ==> orderId[j] == suffix[j - |OrderIdPrefix|];
    }
    ParseCheckoutUrlOfParts(orderId, CheckoutQuery(orderId, payload));
  }

  /** Looked up by name, the checkout query gives the order id, the name,
      birthdate, email and gender literal of the payload, and a decimal
      amount that reads back as the payload's amount. */
  lemma CheckoutQueryFields(orderId: string, payload: CheckoutPayload)
    ensures var q := CheckoutQuery(orderId, payload);
      && QueryValue(q, "orderId") == Some(orderId)
      && QueryValue(q, "name") == Some(payload.name)
      && QueryValue(q, "birthdate") == Some(payload.birthdate)
      && QueryValue(q, "email") == Some(payload.email)
      && QueryValue(q, "gender") == Some(payload.gender.Literal())
      && QueryValue(q, "amount") == Some(DecimalString(payload.amount))
      && ParseDecimal(DecimalString(payload.amount)) == Some(payload.amount)
  {
    var q := CheckoutQuery(orderId, payload);
    var q2 := q[1..][1..];
    assert QueryValue(q, "birthdate") == QueryValue(q2, "birthdate");
    assert QueryValue(q, "email") == QueryValue(q2, "email");
    assert QueryValue(q, "gender") == QueryValue(q2, "gender");
    assert QueryValue(q, "amount") == QueryValue(q2, "amount");
    var q4 := q2[1..][1..];
    assert QueryValue(q2, "gender") == QueryValue(q4, "gender");
    assert QueryValue(q2, "amount") == QueryValue(q4, "amount");
    DecimalRoundTrip(payload.amount);
  }

  /** `safeJSON`: `JSON.parse(s)`, or `{}` when it throws. The parser is the
      parameter `jsonParse`; `None` stands for a thrown error. */
  function SafeJson(s: string, jsonParse: string -> Option<JsValue>): (v: JsValue)
    ensures jsonParse(s).None? ==> v == EmptyObject
    ensures jsonParse(s).Some? ==> v == jsonParse(s).value
  {
    match jsonParse(s)
    case Some(v) => v
    case None => EmptyObject
  }

  /** The value `parseWebhook` classifies: a string body is parsed first,
      `null` and `undefined` become `{}`, anything else is taken as is. */
  function RawBody(body: JsValue, jsonParse: string -> Option<JsValue>): (r: JsValue)
    ensures body.Str? && jsonParse(body.s).None? ==> r == EmptyObject
    ensures body.Str? && jsonParse(body.s).Some? ==> r == jsonParse(body.s).value
    ensures !body.Str? ==> !r.Undefined? && !r.Null?
    ensures !body.Str? && !body.Undefined? && !body.Null? ==> r == body
  {
    if body.Str? then SafeJson(body.s, jsonParse)
    else if body.Undefined? || body.Null? then EmptyObject
    else body
  }

  predicate IsEventLiteral(v: JsValue) {
    v == Str(PaymentSucceeded.Literal()) || v == Str(PaymentFailed.Literal())
  }

  /** `isWebhookByType`: `{type: 'payment.succeeded' | 'payment.failed', orderId: string}`. */
  predicate IsWebhookByType(x: JsValue)
    ensures IsWebhookByType(x) <==>
      && x.Obj?
      && "orderId" in x.fields && x.fields["orderId"].Str?
      && "type" in x.fields
      && (x.fields["type"] == Str("payment.succeeded") || x.fields["type"] == Str("payment.failed"))
  {
    Truthy(x) && Prop(x, "orderId").Str? && IsEventLiteral(Prop(x, "type"))
  }

  /** `isWebhookByOk`: `{orderId: string, ok: boolean}`. */
  predicate IsWebhookByOk(x: JsValue)
    ensures IsWebhookByOk(x) <==>
      && x.Obj?
      && "orderId" in x.fields && x.fields["orderId"].Str?
      && "ok" in x.fields && x.fields["ok"].Bool?
  {
    Truthy(x) && Prop(x, "orderId").Str? && Prop(x, "ok").Bool?
  }

  /** The classification chain of `parseWebhook` applied to a raw value. */
  function Classify(raw: JsValue): Option<WebhookEvent> {
    if IsWebhookByType(raw) then
      var kind := if Prop(raw, "type") == Str(PaymentSucceeded.Literal()) then PaymentSucceeded else PaymentFailed;
      Some(WebhookEvent(kind, Prop(raw, "orderId").s))
    else if IsWebhookByOk(raw) then
      Some(WebhookEvent(if Prop(raw, "ok").b then PaymentSucceeded else PaymentFailed, Prop(raw, "orderId").s))
    else None
  }

  /** `MockProvider.parseWebhook`: an event exactly when the raw value is an
      object with a string `orderId` and either an event-literal `type` or a
      boolean `ok`; the event carries that `orderId`, and its type is the
      `type` field when present, otherwise decided by `ok`. It never fails
      other than by answering `None`. */
  function ParseWebhook(body: JsValue, jsonParse: string -> Option<JsValue>): (r: Option<WebhookEvent>)
    ensures var raw := RawBody(body, jsonParse);
      r.Some? <==> raw.Obj? && Prop(raw, "orderId").Str? && (IsEventLiteral(Prop(raw, "type")) || Prop(raw, "ok").Bool?)
    ensures var raw := RawBody(body, jsonParse);
      r.Some? ==> Prop(raw, "orderId") == Str(r.value.orderId)
    ensures var raw := RawBody(body, jsonParse);
      r.Some? ==> if IsEventLiteral(Prop(raw, "type")) then Prop(raw, "type") == Str(r.value.kind.Literal())
                  else Prop(raw, "ok") == Bool(r.value.kind == PaymentSucceeded)
  {
    Classify(RawBody(body, jsonParse))
  }

  /** The current shape `{type, orderId}` yields an event with the same type
      and order id. */
  lemma ParseWebhookByType(fields: map<string, JsValue>, kind: EventType, id: string, jsonParse: string -> Option<JsValue>)
    requires "type" in fields && fields["type"] == Str(kind.Literal())
    requires "orderId" in fields && fields["orderId"] == Str(id)
    ensures ParseWebhook(Obj(fields), jsonParse) == Some(WebhookEvent(kind, id))
  {
  }

  /** The legacy shape `{orderId, ok}` yields success when `ok` is true and
      failure otherwise; when `type` is also an event literal, `type` wins. */
  lemma ParseWebhookByOk(fields: map<string, JsValue>, ok: bool, id: string, jsonParse: string -> Option<JsValue>)
    requires "ok" in fields && fields["ok"] == Bool(ok)
    requires "orderId" in fields && fields["orderId"] == Str(id)
    ensures !IsEventLiteral(Prop(Obj(fields), "type")) ==>
      ParseWebhook(Obj(fields), jsonParse) == Some(WebhookEvent(if ok then PaymentSucceeded else PaymentFailed, id))
    ensures IsEventLiteral(Prop(Obj(fields), "type")) ==>
      ParseWebhook(Obj(fields), jsonParse) == Some(WebhookEvent(if fields["type"] == Str("payment.succeeded") then PaymentSucceeded else PaymentFailed, id))
  {
  }

  /** Inputs answered with `None`: a missing or null body, a string body
      that does not parse, and any value whose `orderId` is not a string. */
  lemma ParseWebhookRejects(body: JsValue, jsonParse: string -> Option<JsValue>)
    ensures body.Undefined? || body.Null? ==> ParseWebhook(body, jsonParse) == None
    ensures body.Str? && jsonParse(body.s).None? ==> ParseWebhook(body, jsonParse) == None
    ensures !Prop(RawBody(body, jsonParse), "orderId").Str? ==> ParseWebhook(body, jsonParse) == None
  {
  }

  /** A string body is classified exactly like the value it parses to
      (unless that value is itself a string, which is not parsed twice). */
  lemma StringBodyParsedFirst(s: string, v: JsValue, jsonParse: string -> Option<JsValue>)
    requires jsonParse(s) == Some(v) && !v.Str?
    ensures ParseWebhook(Str(s), jsonParse) == ParseWebhook(v, jsonParse)
  {
  }
}
