/**
 * The two payment providers seen from BookingController: the requests it
 * sends and how it reads their replies. A reply is an input to the model;
 * an exception thrown by the provider library, or raised while reading the
 * reply, is a reply carrying that exception's message.
 */
module Payments {
  import opened Wrappers
  import opened Models

  /** How the controller classifies a provider's answer. */
  datatype PaymentOutcome = Succeeded | RequiresRedirect(url: string) | RequiresNewMethod | Failed(reason: string)

  /** Named routes the controller generates. */
  datatype Route = BookingsIndex | BookingsCreate(roomId: RoomId) | PaypalCallbackRoute

  /** Outbound requests to the providers, as the controller builds them. */
  datatype ProviderCall =
    | CreatePaymentIntent(amountCents: nat, currency: string, paymentMethodId: Option<string>)
    | CreateOrder(value: string, currencyCode: string, returnTo: Route, cancelTo: Route)
    | CapturePaymentOrder(token: Option<string>)

  /** The fixed charge: 1000 cents in US dollars for Stripe, "10.00" USD for PayPal, whatever the room. */
  const StripeAmountCents: nat := 1000
  const StripeCurrency: string := "usd"
  const PayPalValue: string := "10.00"
  const PayPalCurrency: string := "USD"

  // ----- Stripe: one confirmed PaymentIntent per request -----

  /** The PaymentIntent returned by the provider, or the message of the exception raised. */
  datatype StripeReply = Intent(status: string, redirectUrl: string) | StripeError(message: string)

  /** The status switch of `handleStripePayment` and its two catch blocks. */
  function StripeOutcome(reply: StripeReply): (o: PaymentOutcome)
    ensures o.Succeeded? <==> reply.Intent? && reply.status == "succeeded"
    ensures o.RequiresRedirect? <==>
            reply.Intent? && (reply.status == "requires_action" || reply.status == "requires_source_action")
    ensures o.RequiresRedirect? ==> o.url == reply.redirectUrl
    ensures o.RequiresNewMethod? <==> reply.Intent? && reply.status == "requires_payment_method"
    ensures o.Failed? && reply.Intent? ==> o.reason == "Payment failed."
    ensures reply.StripeError? ==> o == Failed(reply.message)
  {
    match reply
    case StripeError(m) => Failed(m)
    case Intent(status, url) =>
      if status == "requires_action" || status == "requires_source_action" then RequiresRedirect(url)
      else if status == "succeeded" then Succeeded
      else if status == "requires_payment_method" then RequiresNewMethod
      else Failed("Payment failed.")
  }

  // ----- PayPal phase 1: create the order -----

  /** One entry of the order response's `links` array. */
  datatype Link = Link(href: Option<string>)

  /** The array returned by `createOrder`, or the message of the exception it raised. */
  datatype OrderReply = OrderResponse(id: Option<string>, links: seq<Link>) | OrderError(message: string)

  /** The approval URL: the `href` of the SECOND link, and only when the order has an id. */
  function ApprovalLink(reply: OrderReply): (r: Option<string>)
    ensures r.Some? <==>
            reply.OrderResponse? && reply.id.Some? && |reply.links| > 1 && reply.links[1].href.Some?
    ensures r.Some? ==> r.value == reply.links[1].href.value
  {
    match reply
    case OrderError(_) => None
    case OrderResponse(id, links) =>
      if id.Some? && |links| > 1 && links[1].href.Some? then Some(links[1].href.value) else None
  }

  /** Phase 1 either sends the browser to the approval page or fails; it never books. */
  function OrderOutcome(reply: OrderReply): (o: PaymentOutcome)
    ensures o.RequiresRedirect? || o.Failed?
    ensures o.RequiresRedirect? <==> ApprovalLink(reply).Some?
    ensures o.RequiresRedirect? ==> o.url == ApprovalLink(reply).value
    ensures reply.OrderResponse? && o.Failed? ==> o.reason == "PayPal order creation failed."
    ensures reply.OrderError? ==> o == Failed(reply.message)
  {
    match reply
    case OrderError(m) => Failed(m)
    case OrderResponse(_, _) =>
      match ApprovalLink(reply)
      case Some(url) => RequiresRedirect(url)
      case None => Failed("PayPal order creation failed.")
  }

  // ----- PayPal phase 2: capture on the callback -----

  /** The capture response's `status`, or the message of the exception raised while capturing or reading it. */
  datatype CaptureReply = CaptureResponse(status: string) | CaptureError(message: string)

  /** Only the exact status "COMPLETED" counts as paid. */
  function CaptureOutcome(reply: CaptureReply): (o: PaymentOutcome)
    ensures o.Succeeded? || o.Failed?
    ensures o.Succeeded? <==> reply == CaptureResponse("COMPLETED")
    ensures reply.CaptureResponse? && o.Failed? ==> o.reason == "Payment was not completed."
    ensures reply.CaptureError? ==> o == Failed(reply.message)
  {
    match reply
    case CaptureError(m) => Failed(m)
    case CaptureResponse(status) =>
      if status == "COMPLETED" then Succeeded else Failed("Payment was not completed.")
  }
}
