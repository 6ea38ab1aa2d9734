/**
 * The invoice collection endpoint: listing every invoice for
 * headquarters, and creating an invoice or estimate in status DRAFT from
 * a client-supplied list of line items.
 */
module InvoicesRoute {
  import opened Wrappers
  import opened Domain
  import opened Listing
  import opened Db

  /** The JSON body of a creation request; every field may be missing. */
  datatype InvoiceRequest = InvoiceRequest(
    kind: Option<string>,
    caseId: Option<Id>,
    items: Option<seq<LineItem>>,
    note: Option<string>)

  /** The only validation: a type, a case and at least one item. */
  predicate Complete(req: InvoiceRequest) {
    Truthy(req.kind) && Truthy(req.caseId) && req.items.Some? && |req.items.value| > 0
  }

  /** The record inserted for a complete request. */
  function Created(id: Id, req: InvoiceRequest, issuer: Option<Id>, now: Time): Invoice
    requires Complete(req)
  {
    Invoice(
      id := id,
      kind := req.kind.value,
      caseId := req.caseId.value,
      issuedById := issuer,
      status := Draft,
      totalAmount := TotalOf(req.items.value),
      note := req.note,
      issuedAt := None,
      paidAt := None,
      items := req.items.value,
      createdAt := now)
  }

  /**
   * POST: 401 unless the caller is headquarters, 400 for an incomplete
   * request, 500 when the insert fails (the store raises, or the case
   * does not exist), and otherwise 201 with one new invoice in DRAFT.
   */
  method Post(db: Database, session: Option<Session>, req: InvoiceRequest, id: Id, now: Time, fault: bool)
    returns (code: int)
    requires db.Valid() && id !in db.invoices
    modifies db`invoices
    ensures db.Valid()
    ensures !IsHeadquarters(session) ==> code == 401
    ensures IsHeadquarters(session) && !Complete(req) ==> code == 400
    ensures IsHeadquarters(session) && Complete(req) ==>
              code == if fault || req.caseId.value !in db.cases then 500 else 201
    ensures code == 201 ==> db.invoices == old(db.invoices)[id := Created(id, req, session.value.dbId, now)]
    ensures code != 201 ==> db.invoices == old(db.invoices)
  {
    if !IsHeadquarters(session) {
      return 401;
    }
    if !Truthy(req.kind) || !Truthy(req.caseId) || req.items.None? || |req.items.value| == 0 {
      return 400;
    }
    if fault || req.caseId.value !in db.cases {
      return 500;
    }
    db.invoices := db.invoices[id := Created(id, req, session.value.dbId, now)];
    code := 201;
  }

  /** GET: 401 unless headquarters; otherwise every invoice once, newest first. */
  method List(db: Database, session: Option<Session>, fault: bool) returns (code: int, r: seq<Invoice>)
    requires db.Valid()
    ensures !IsHeadquarters(session) ==> code == 401
    ensures IsHeadquarters(session) ==> code == if fault then 500 else 200
    ensures code != 200 ==> r == []
    ensures code == 200 ==> forall x :: x in r <==> x in db.invoices.Values
    ensures Distinct(r) && NewestFirst(r, InvoiceCreatedAt)
  {
    if !IsHeadquarters(session) {
      return 401, [];
    }
    if fault {
      return 500, [];
    }
    KeyedIsInjective(db.invoices, InvoiceId);
    r := FindMany(db.invoices, (inv: Invoice) => true, InvoiceCreatedAt);
    code := 200;
  }

  /** A created invoice starts in DRAFT, unpaid, with its items stored verbatim and in order. */
  lemma CreatedIsDraftSnapshot(id: Id, req: InvoiceRequest, issuer: Option<Id>, now: Time)
    requires Complete(req)
    ensures Created(id, req, issuer, now).status == Draft
    ensures Created(id, req, issuer, now).items == req.items.value
    ensures Created(id, req, issuer, now).paidAt.None? && Created(id, req, issuer, now).issuedAt.None?
    ensures req.note.None? ==> Created(id, req, issuer, now).note.None?
  {
  }

  /**
   * The total is the sum of the client's stored amounts; it agrees with
   * quantity times unit price exactly when the client priced every item.
   */
  lemma CreatedTotalOfPricedItems(id: Id, req: InvoiceRequest, issuer: Option<Id>, now: Time)
    requires Complete(req)
    requires forall i :: 0 <= i < |req.items.value| ==> Priced(req.items.value[i])
    ensures Created(id, req, issuer, now).totalAmount == Subtotal(req.items.value)
  {
    TotalOfPriced(req.items.value);
  }

  /** The handler does not recompute amounts: an unpriced item is totalled as sent. */
  lemma TotalNotRecomputed()
    ensures var req := InvoiceRequest(Some("INVOICE"), Some("c1"), Some([LineItem("labor", 2, 5000, 1)]), None);
            Complete(req) && Created("i1", req, None, 0).totalAmount == 1 && Subtotal(req.items.value) == 10000
  {
    var items := [LineItem("labor", 2, 5000, 1)];
    assert items[..0] == [];
  }
}
