/**
 * The payment webhook: a verified checkout-completed event that names an
 * invoice marks that invoice PAID and stamps the payment time.  The write
 * does not look at the invoice's current status.
 */
module WebhookRoute {
  import opened Wrappers
  import opened Domain
  import opened Db
  import opened Gateway

  /** The invoice an event asks to mark paid, if any. */
  function Target(event: Option<Event>): (t: Option<Id>)
    ensures t.Some? <==> event.Some? && event.value.kind == CheckoutCompleted && Truthy(event.value.invoiceId)
    ensures t.Some? ==> t == event.value.invoiceId
  {
    if event.Some? && event.value.kind == CheckoutCompleted && Truthy(event.value.invoiceId)
    then event.value.invoiceId
    else None
  }

  /** The response code and the invoice table after one delivery. */
  datatype Ack = Ack(code: int, invoices: map<Id, Invoice>)

  /**
   * One delivery: no event, another event type or a completed event
   * without an invoice id is acknowledged with 200 and writes nothing.
   * Otherwise the update either raises (the store fails, or no invoice has
   * that id), giving 500 and no write, or sets status PAID and `paidAt`.
   */
  function Reconcile(invoices: map<Id, Invoice>, event: Option<Event>, now: Time, fault: bool): (a: Ack)
    ensures a.code == 200 || a.code == 500
    ensures a.code == 500 <==> Target(event).Some? && (fault || Target(event).value !in invoices)
    ensures a.code == 500 || Target(event).None? ==> a.invoices == invoices
    ensures a.invoices.Keys == invoices.Keys
    ensures forall k :: k in invoices && Target(event) != Some(k) ==> a.invoices[k] == invoices[k]
    ensures a.code == 200 && Target(event).Some? ==>
              var k := Target(event).value;
              a.invoices[k] == invoices[k].(status := Paid, paidAt := Some(now))
  {
    match Target(event)
    case None => Ack(200, invoices)
    case Some(k) =>
      if fault || k !in invoices then Ack(500, invoices)
      else Ack(200, invoices[k := invoices[k].(status := Paid, paidAt := Some(now))])
  }

  /** POST: applies `Reconcile` to the stored invoices. */
  method Handle(db: Database, event: Option<Event>, now: Time, fault: bool) returns (code: int)
    requires db.Valid()
    modifies db`invoices
    ensures db.Valid()
    ensures code == Reconcile(old(db.invoices), event, now, fault).code
    ensures db.invoices == Reconcile(old(db.invoices), event, now, fault).invoices
  {
    var target := Target(event);
    if target.None? {
      return 200;
    }
    var k := target.value;
    if fault || k !in db.invoices {
      return 500;
    }
    db.invoices := db.invoices[k := db.invoices[k].(status := Paid, paidAt := Some(now))];
    code := 200;
  }

  /** Without a verified event nothing is written and the sender gets 200. */
  lemma NoEventIsAcknowledged(invoices: map<Id, Invoice>, now: Time, fault: bool)
    ensures Reconcile(invoices, None, now, fault) == Ack(200, invoices)
  {
  }

  /**
   * The write does not consult the prior status: a CANCELLED invoice
   * becomes PAID, and an already PAID one has its payment time re-stamped.
   */
  lemma PriorStatusIgnored(invoices: map<Id, Invoice>, e: Event, now: Time)
    requires Target(Some(e)).Some? && Target(Some(e)).value in invoices
    ensures var k := Target(Some(e)).value;
            var a := Reconcile(invoices, Some(e), now, false);
            a.code == 200 && a.invoices[k].status == Paid && a.invoices[k].paidAt == Some(now)
  {
  }

  /** A second delivery of the same event leaves the invoice PAID with the later time. */
  lemma {:induction false} RepeatedDelivery(invoices: map<Id, Invoice>, e: Event, t1: Time, t2: Time)
    requires Target(Some(e)).Some? && Target(Some(e)).value in invoices
    ensures var k := Target(Some(e)).value;
            var once := Reconcile(invoices, Some(e), t1, false);
            var twice := Reconcile(once.invoices, Some(e), t2, false);
            twice.code == 200 && twice.invoices[k].status == Paid && twice.invoices[k].paidAt == Some(t2)
            && twice.invoices[k] == once.invoices[k].(paidAt := Some(t2))
  {
    var k := Target(Some(e)).value;
    var once := Reconcile(invoices, Some(e), t1, false);
    assert k in once.invoices;
  }

  /**
   * Paying through a checkout session marks exactly the invoice the
   * session was created for, since the gateway echoes its id back.
   */
  lemma PaymentMarksCheckedOutInvoice(invoices: map<Id, Invoice>, req: CheckoutRequest, now: Time)
    requires req.invoiceId in invoices && req.invoiceId != ""
    ensures var a := Reconcile(invoices, Some(CompletionEvent(req)), now, false);
            a.code == 200 && a.invoices == invoices[req.invoiceId := invoices[req.invoiceId].(status := Paid, paidAt := Some(now))]
  {
  }
}
