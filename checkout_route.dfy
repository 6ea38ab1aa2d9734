/**
 * The checkout endpoint: a chain of early returns (no session, no invoice
 * id, unknown invoice, invoice already PAID) and then one call to the
 * payment gateway for the invoice's total.  It writes nothing.
 */
module CheckoutRoute {
  import opened Wrappers
  import opened Domain
  import opened Db
  import opened Gateway

  const DefaultAppUrl: string := "http://localhost:3000"

  /** `NEXT_PUBLIC_APP_URL ?? "http://localhost:3000"`. */
  function AppUrl(configured: Option<string>): string {
    configured.GetOr(DefaultAppUrl)
  }

  predicate EndsWith(s: string, suffix: string) {
    |suffix| <= |s| && s[|s| - |suffix|..] == suffix
  }

  /** The gateway request for an invoice: its id, its total, and return URLs that carry its id. */
  function ChargeFor(inv: Invoice, caseTitle: string, appUrl: string): (req: CheckoutRequest)
    ensures req.invoiceId == inv.id && req.amount == inv.totalAmount && req.caseTitle == caseTitle
    ensures appUrl <= req.successUrl && EndsWith(req.successUrl, inv.id)
    ensures appUrl <= req.cancelUrl && EndsWith(req.cancelUrl, inv.id)
    ensures req.successUrl != req.cancelUrl
  {
    var success := appUrl + "/payment/success?invoiceId=" + inv.id;
    var cancel := appUrl + "/payment/cancel?invoiceId=" + inv.id;
    assert success[|appUrl| + 9] == 's' && cancel[|appUrl| + 9] == 'c';
    CheckoutRequest(inv.id, inv.totalAmount, caseTitle, success, cancel)
  }

  /** Where the checks stop, or the request the gateway is called with. */
  datatype Plan = Reject(code: int) | Charge(req: CheckoutRequest)

  /**
   * The checks in order: 401 without a session, 400 without an invoice
   * id, 500 when the lookup fails, 404 for an unknown invoice, 400 for a
   * PAID one.  Every other status reaches the gateway.
   */
  function PlanCheckout(
    signedIn: bool, invoiceId: Option<Id>, invoices: map<Id, Invoice>, cases: map<Id, Case>,
    appUrl: string, fault: bool): (p: Plan)
    requires CasesExist(invoices, cases)
    ensures !signedIn ==> p == Reject(401)
    ensures signedIn && !Truthy(invoiceId) ==> p == Reject(400)
    ensures signedIn && Truthy(invoiceId) && fault ==> p == Reject(500)
    ensures signedIn && Truthy(invoiceId) && !fault && invoiceId.value !in invoices ==> p == Reject(404)
    ensures signedIn && Truthy(invoiceId) && !fault && invoiceId.value in invoices ==>
              (p == Reject(400) <==> invoices[invoiceId.value].status == Paid)
    ensures p.Charge? <==>
              signedIn && Truthy(invoiceId) && !fault && invoiceId.value in invoices
              && invoices[invoiceId.value].status != Paid
    ensures p.Charge? ==>
              var inv := invoices[invoiceId.value];
              p.req == ChargeFor(inv, cases[inv.caseId].title, appUrl)
    ensures p.Reject? ==> p.code in {400, 401, 404, 500}
  {
    if !signedIn then Reject(401)
    else if !Truthy(invoiceId) then Reject(400)
    else if fault then Reject(500)
    else if invoiceId.value !in invoices then Reject(404)
    else
      var inv := invoices[invoiceId.value];
      if inv.status == Paid then Reject(400)
      else Charge(ChargeFor(inv, cases[inv.caseId].title, appUrl))
  }

  datatype Response = Response(code: int, url: Option<string>)

  /** POST: the plan, then 503 when the gateway returns no URL or an empty one, and 200 with the URL otherwise. */
  function Checkout(
    session: Option<Session>, invoiceId: Option<Id>, invoices: map<Id, Invoice>, cases: map<Id, Case>,
    configuredUrl: Option<string>, gateway: CheckoutRequest -> Option<string>, fault: bool): (r: Response)
    requires CasesExist(invoices, cases)
    ensures r.code == 200 <==> r.url.Some?
    ensures r.code in {200, 400, 401, 404, 500, 503}
    ensures r.code == 503 || r.code == 200 <==>
              PlanCheckout(session.Some?, invoiceId, invoices, cases, AppUrl(configuredUrl), fault).Charge?
    ensures var p := PlanCheckout(session.Some?, invoiceId, invoices, cases, AppUrl(configuredUrl), fault);
            p.Reject? ==> r == Response(p.code, None)
    ensures var p := PlanCheckout(session.Some?, invoiceId, invoices, cases, AppUrl(configuredUrl), fault);
            p.Charge? ==> r == (if !Truthy(gateway(p.req)) then Response(503, None) else Response(200, gateway(p.req)))
  {
    match PlanCheckout(session.Some?, invoiceId, invoices, cases, AppUrl(configuredUrl), fault)
    case Reject(code) => Response(code, None)
    case Charge(req) =>
      var url := gateway(req);
      if !Truthy(url) then Response(503, None) else Response(200, url)
  }

  /** Only PAID is refused: DRAFT, SENT and CANCELLED invoices all reach the gateway for their total. */
  lemma OnlyPaidIsRefused(
    invoiceId: Id, invoices: map<Id, Invoice>, cases: map<Id, Case>, appUrl: string)
    requires CasesExist(invoices, cases) && Keyed(invoices, InvoiceId)
    requires invoiceId != "" && invoiceId in invoices
    ensures var p := PlanCheckout(true, Some(invoiceId), invoices, cases, appUrl, false);
            (p == Reject(400) <==> invoices[invoiceId].status == Paid)
            && (p.Charge? ==> p.req.amount == invoices[invoiceId].totalAmount && p.req.invoiceId == invoiceId)
  {
  }

  /** A refused request never reaches the gateway: its response is the same whatever the gateway would do. */
  lemma RefusalIgnoresGateway(
    session: Option<Session>, invoiceId: Option<Id>, invoices: map<Id, Invoice>, cases: map<Id, Case>,
    configuredUrl: Option<string>, g1: CheckoutRequest -> Option<string>, g2: CheckoutRequest -> Option<string>,
    fault: bool)
    requires CasesExist(invoices, cases)
    requires PlanCheckout(session.Some?, invoiceId, invoices, cases, AppUrl(configuredUrl), fault).Reject?
    ensures Checkout(session, invoiceId, invoices, cases, configuredUrl, g1, fault)
         == Checkout(session, invoiceId, invoices, cases, configuredUrl, g2, fault)
  {
  }

  /**
   * After a successful checkout, paying marks the invoice that was
   * checked out: the gateway's completion event names that invoice.
   */
  lemma CheckoutNamesItsInvoice(
    invoiceId: Option<Id>, invoices: map<Id, Invoice>, cases: map<Id, Case>, appUrl: string, fault: bool)
    requires CasesExist(invoices, cases) && Keyed(invoices, InvoiceId)
    requires PlanCheckout(true, invoiceId, invoices, cases, appUrl, fault).Charge?
    ensures var e := CompletionEvent(PlanCheckout(true, invoiceId, invoices, cases, appUrl, fault).req);
            e.kind == CheckoutCompleted && e.invoiceId == invoiceId && Truthy(e.invoiceId)
  {
  }
}
