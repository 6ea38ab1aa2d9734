/**
 * The payment gateway as the handlers see it.  Creating a checkout
 * session yields a payment-page URL or none (gateway not configured);
 * verifying a webhook delivery yields an event or none (not configured,
 * or a bad signature).  When the customer pays, the gateway reports a
 * completion event whose metadata carries the invoice id the checkout
 * request was created with.
 */
module Gateway {
  import opened Wrappers
  import opened Domain

  /** The parameters of `createCheckoutSession`. */
  datatype CheckoutRequest = CheckoutRequest(
    invoiceId: Id,
    amount: int,
    caseTitle: string,
    successUrl: string,
    cancelUrl: string)

  /** A verified event: its type and `data.object.metadata?.invoiceId`. */
  datatype Event = Event(kind: string, invoiceId: Option<string>)

  const CheckoutCompleted: string := "checkout.session.completed"

  /** The event the gateway delivers once the session of `req` is paid. */
  function CompletionEvent(req: CheckoutRequest): (e: Event)
    ensures e.kind == CheckoutCompleted && e.invoiceId == Some(req.invoiceId)
  {
    Event(CheckoutCompleted, Some(req.invoiceId))
  }
}
