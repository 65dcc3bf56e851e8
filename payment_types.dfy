/** The transfer objects at the payment-provider boundary
    (lib/payments/types.ts). */
module PaymentTypes {
  import opened Options

  /** The six gender literals a checkout payload may carry. */
  datatype Gender = Female | Male | NonBinary | Transgender | Genderqueer | PreferNot {
    function Literal(): string {
      match this
      case Female => "female"
      case Male => "male"
      case NonBinary => "non-binary"
      case Transgender => "transgender"
      case Genderqueer => "genderqueer"
      case PreferNot => "prefer-not"
    }
  }

  /** The literal a string spells, if any (what `z.enum([...])` accepts). */
  function ParseGender(s: string): (r: Option<Gender>)
    ensures r.Some? ==> r.value.Literal() == s
  {
    match s
    case "female" => Some(Female)
    case "male" => Some(Male)
    case "non-binary" => Some(NonBinary)
    case "transgender" => Some(Transgender)
    case "genderqueer" => Some(Genderqueer)
    case "prefer-not" => Some(PreferNot)
    case _ => None
  }

  /** Every literal is recognised as itself, so the six literals are
      distinct and `ParseGender` accepts exactly them. */
  lemma ParseGenderOfLiteral(g: Gender)
    ensures ParseGender(g.Literal()) == Some(g)
  {
  }

  datatype CheckoutPayload = CheckoutPayload(
    name: string,
    birthdate: string,
    email: string,
    gender: Gender,
    amount: int)

  datatype CheckoutResponse = CheckoutResponse(checkoutUrl: string, orderId: string)

  datatype EventType = PaymentSucceeded | PaymentFailed {
    function Literal(): string {
      match this
      case PaymentSucceeded => "payment.succeeded"
      case PaymentFailed => "payment.failed"
    }
  }

  datatype WebhookEvent = WebhookEvent(kind: EventType, orderId: string)
}
