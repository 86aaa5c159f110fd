/**
 * The two pure steps of the payment path: building the gateway order
 * request, and the signature check on a payment the gateway reports back.
 */
module Payment {
  import opened Wrappers
  import opened JsValues

  /**
   * `createHmac('sha256', key).update(message).digest('hex')`: HMAC (RFC 2104)
   * over SHA-256 (FIPS 180-4), hex-encoded. Its internals are not modelled; only
   * the exact comparison with the claimed signature matters.
   */
  type Hmac = (string, string) -> string

  /** The text the gateway signs, `${order_id}|${payment_id}`; a missing id reads "undefined". */
  function SignedMessage(orderId: Option<string>, paymentId: Option<string>): string {
    Interpolate(orderId) + "|" + Interpolate(paymentId)
  }

  function ExpectedSignature(hmac: Hmac, secret: string, orderId: Option<string>, paymentId: Option<string>): string {
    hmac(secret, SignedMessage(orderId, paymentId))
  }

  /** `expectedSignature === razorpay_signature`: exact string equality, and a missing signature never matches. */
  predicate SignatureValid(hmac: Hmac, secret: string, orderId: Option<string>, paymentId: Option<string>, claimed: Option<string>) {
    claimed == Some(ExpectedSignature(hmac, secret, orderId, paymentId))
  }

  /** At most one claimed signature passes for a given order and payment: any change to it fails. */
  lemma SignatureIsExact(hmac: Hmac, secret: string, orderId: Option<string>, paymentId: Option<string>, c1: string, c2: string)
    requires SignatureValid(hmac, secret, orderId, paymentId, Some(c1)) && c1 != c2
    ensures !SignatureValid(hmac, secret, orderId, paymentId, Some(c2))
  {
  }

  /**
   * The signed text names the order and the payment unambiguously as long as the
   * order id holds no '|': the first '|' ends the order id.
   */
  lemma SignedMessageDeterminesIds(o1: Option<string>, p1: Option<string>, o2: Option<string>, p2: Option<string>)
    requires '|' !in Interpolate(o1) && '|' !in Interpolate(o2)
    requires SignedMessage(o1, p1) == SignedMessage(o2, p2)
    ensures Interpolate(o1) == Interpolate(o2) && Interpolate(p1) == Interpolate(p2)
  {
    var x1, x2 := Interpolate(o1), Interpolate(o2);
    var s := SignedMessage(o1, p1);
    FirstBar(x1, Interpolate(p1));
    FirstBar(x2, Interpolate(p2));
    assert |x1| == |x2|;
    assert x1 == s[..|x1|] && x2 == s[..|x2|];
    assert Interpolate(p1) == s[|x1| + 1..];
    assert Interpolate(p2) == s[|x2| + 1..];
  }

  /** In `x|y` with no '|' in `x`, the first '|' sits right after `x`. */
  lemma FirstBar(x: string, y: string)
    requires '|' !in x
    ensures (x + "|" + y)[|x|] == '|'
    ensures forall k :: 0 <= k < |x| ==> (x + "|" + y)[k] != '|'
  {
    forall k | 0 <= k < |x|
      ensures (x + "|" + y)[k] != '|'
    {
      assert (x + "|" + y)[k] == x[k];
    }
  }

  /** The body of a create-order request; `amount` is in rupees. */
  datatype OrderBody = OrderBody(amount: Option<int>, currency: Option<string>, receipt: Option<string>)

  /** The options passed to `orders.create`; the amount is in paise, and None stands for NaN (no amount given). */
  datatype OrderRequest = OrderRequest(amount: Option<int>, currency: string, receipt: Option<string>)

  /** The order the gateway returns. */
  datatype Order = Order(id: string, amount: int, currency: string, receipt: Option<string>)

  /** `orders.create` at the gateway: the order, or the error message it fails with. */
  type Gateway = OrderRequest -> Result<Order, string>

  /** The currency used when the request names none. */
  const DefaultCurrency: string := "INR"

  const PaisePerRupee: int := 100

  /**
   * `{ amount: amount * 100, currency, receipt }` with `currency = 'INR'` as the
   * destructuring default: the gateway is asked for exactly the rupee amount, in
   * whole paise, and in INR unless told otherwise.
   */
  function OrderRequestFor(b: OrderBody): (r: OrderRequest)
    ensures r.amount.Some? <==> b.amount.Some?
    ensures b.amount.Some? ==> r.amount.value % PaisePerRupee == 0 && r.amount.value / PaisePerRupee == b.amount.value
    ensures b.currency.None? ==> r.currency == DefaultCurrency
    ensures b.currency.Some? ==> r.currency == b.currency.value
    ensures r.receipt == b.receipt
  {
    OrderRequest(
      if b.amount.Some? then Some(b.amount.value * PaisePerRupee) else None,
      b.currency.GetOr(DefaultCurrency),
      b.receipt)
  }
}

/** Request methods, the JSON responses of the handlers, and a handler's effect on the database. */
module Http {
  import opened Schema
  import opened Store
  import opened Payment

  /** The request method; `OtherMethod` stands for any method other than the five named ones, so its name is never one of theirs. */
  datatype Method = Options | Get | Post | Put | Delete | OtherMethod(name: string)

  /** The JSON body of a response. */
  datatype Body =
    | Blank                                       // ''
    | ErrorMessage(error: string)                 // { error }
    | StoreError                                  // { error: err.message } for a failed query
    | Refused(message: string)                    // { success: false, message }
    | SignatureRejected                           // { success: false, error: 'Invalid Signature' }
    | Registered(registrationId: int, amount: int) // { message: 'Registration initiated.', registrationId, amount }
    | PaymentVerified                             // { success: true, message: 'Payment Verified and Email Sent' }
    | GatewayOrder(order: Order)                  // the order as the gateway returned it
    | EventList(events: seq<Event>)
    | RegistrationList(registrations: seq<Registration>)
    | EventCreated(id: int)                       // { success: true, id }
    | Done                                        // { success: true }
    | LoggedIn(token: string)                     // { success: true, token }
    | MessageSent                                 // { success: true, message: 'Message sent successfully!' }
    | NotFoundPage                                // Express's "Cannot <METHOD> <path>" page for an unmatched route

  datatype Response = Response(status: int, body: Body)

  /** What one request does: the response it gets and the database it leaves. */
  datatype Step = Step(response: Response, after: Tables)

  const Preflight: Response := Response(200, Blank)
  const MethodNotAllowed: Response := Response(405, ErrorMessage("Method Not Allowed"))
  const StoreFailure: Response := Response(500, StoreError)
  const NoRoute: Response := Response(404, NotFoundPage)
}
