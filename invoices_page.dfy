/**
 * The headquarters invoice list page: a status label with a DRAFT
 * fallback, a label for the document type, and the invoices newest first.
 */
module InvoicesPage {
  import opened Wrappers
  import opened Domain
  import opened Listing
  import opened Db

  /** A label and the colour classes it is drawn with. */
  datatype Style = Style(text: string, className: string)

  /** The `statusLabel` table. */
  function StatusEntry(status: string): Option<Style> {
    if status == "DRAFT" then Some(Style("下書き", "bg-gray-100 text-gray-600"))
    else if status == "SENT" then Some(Style("送付済み", "bg-blue-100 text-blue-700"))
    else if status == "PAID" then Some(Style("支払済み", "bg-green-100 text-green-700"))
    else if status == "CANCELLED" then Some(Style("キャンセル", "bg-red-100 text-red-600"))
    else None
  }

  /** `statusLabel[inv.status] ?? statusLabel.DRAFT`. */
  function StatusStyle(status: string): (s: Style)
    ensures StatusEntry(status).None? ==> s == StatusEntry("DRAFT").value
    ensures StatusEntry(status).Some? ==> s == StatusEntry(status).value
  {
    StatusEntry(status).GetOr(Style("下書き", "bg-gray-100 text-gray-600"))
  }

  /** `inv.type === "INVOICE" ? "請求書" : "見積書"`. */
  function TypeLabel(kind: string): (text: string)
    ensures text == "請求書" <==> kind == "INVOICE"
    ensures text != "請求書" ==> text == "見積書"
  {
    if kind == "INVOICE" then "請求書" else "見積書"
  }

  /** Each stored status has its own entry, and the four labels differ. */
  lemma EveryStatusHasOwnLabel(a: InvoiceStatus, b: InvoiceStatus)
    ensures StatusEntry(a.Name()).Some?
    ensures a != b ==> StatusStyle(a.Name()).text != StatusStyle(b.Name()).text
  {
    var d, s, p, c := "下書き", "送付済み", "支払済み", "キャンセル";
    assert d[0] != s[0] && d[0] != p[0] && d[0] != c[0];
    assert s[0] != c[0] && p[0] != c[0];
    assert s[1] != p[1];
  }

  /** One row of the list. */
  datatype Row = Row(id: Id, typeLabel: string, status: Style, totalAmount: int)

  function RowOf(inv: Invoice): Row {
    Row(inv.id, TypeLabel(inv.kind), StatusStyle(inv.status.Name()), inv.totalAmount)
  }

  datatype Page = RedirectTo(path: string) | Rows(rows: seq<Row>)

  /** The page: non-headquarters callers go to "/login"; otherwise one row per invoice, newest first. */
  method Render(db: Database, session: Option<Session>) returns (page: Page, ghost shown: seq<Invoice>)
    requires db.Valid()
    ensures !IsHeadquarters(session) ==> page == RedirectTo("/login")
    ensures IsHeadquarters(session) ==>
              page.Rows? && |page.rows| == |shown| && forall i :: 0 <= i < |shown| ==> page.rows[i] == RowOf(shown[i])
    ensures forall x :: x in shown ==> x in db.invoices.Values
    ensures IsHeadquarters(session) ==> forall x :: x in db.invoices.Values ==> x in shown
    ensures Distinct(shown) && NewestFirst(shown, InvoiceCreatedAt)
  {
    if !IsHeadquarters(session) {
      return RedirectTo("/login"), [];
    }
    KeyedIsInjective(db.invoices, InvoiceId);
    var invoices := FindMany(db.invoices, (inv: Invoice) => true, InvoiceCreatedAt);
    shown := invoices;
    page := Rows(seq(|invoices|, i requires 0 <= i < |invoices| => RowOf(invoices[i])));
  }
}
