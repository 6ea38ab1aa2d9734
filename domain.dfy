/**
 * The records kept by the database and the enumerations of the schema:
 * cases, invoices with their line items, users, roles, and the session
 * that the sign-in layer hands to every request handler.
 */
module Domain {
  import opened Wrappers

  /** Database identifiers and external identity references. */
  type Id = string

  /** Timestamps, in milliseconds; clocks are passed in as parameters. */
  type Time = int

  datatype Role = Headquarters | Handyman | EndUser

  datatype CaseStatus = Pending | Assigned | InProgress | Completed | Cancelled {
    /** The enumeration literal as the schema spells it. */
    function Name(): string {
      match this
      case Pending => "PENDING"
      case Assigned => "ASSIGNED"
      case InProgress => "IN_PROGRESS"
      case Completed => "COMPLETED"
      case Cancelled => "CANCELLED"
    }
  }

  /** The enumeration literal `s` names, if any. */
  function ParseCaseStatus(s: string): (r: Option<CaseStatus>)
    ensures r.Some? ==> r.value.Name() == s
    ensures forall st: CaseStatus :: st.Name() == s ==> r == Some(st)
  {
    if s == "PENDING" then Some(Pending)
    else if s == "ASSIGNED" then Some(Assigned)
    else if s == "IN_PROGRESS" then Some(InProgress)
    else if s == "COMPLETED" then Some(Completed)
    else if s == "CANCELLED" then Some(CaseStatus.Cancelled)
    else None
  }

  datatype InvoiceStatus = Draft | Sent | Paid | Cancelled {
    function Name(): string {
      match this
      case Draft => "DRAFT"
      case Sent => "SENT"
      case Paid => "PAID"
      case Cancelled => "CANCELLED"
    }
  }

  datatype InvoiceType = InvoiceKind | EstimateKind {
    function Name(): string {
      match this
      case InvoiceKind => "INVOICE"
      case EstimateKind => "ESTIMATE"
    }
  }

  /** One row of an invoice or estimate; `amount` is stored, not derived. */
  datatype LineItem = LineItem(name: string, quantity: int, unitPrice: int, amount: int)

  /** The stored amount equals quantity times unit price. */
  predicate Priced(item: LineItem) {
    item.amount == item.quantity * item.unitPrice
  }

  /** The sum of the stored amounts, as `items.reduce((sum, item) => sum + item.amount, 0)`. */
  function TotalOf(items: seq<LineItem>): int {
    if items == [] then 0 else TotalOf(items[..|items| - 1]) + items[|items| - 1].amount
  }

  /** The sum of quantity times unit price, recomputed from the items. */
  function Subtotal(items: seq<LineItem>): int {
    if items == [] then 0
    else Subtotal(items[..|items| - 1]) + items[|items| - 1].quantity * items[|items| - 1].unitPrice
  }

  /** When every item is priced, the stored total is the recomputed one. */
  lemma {:induction false} TotalOfPriced(items: seq<LineItem>)
    requires forall i :: 0 <= i < |items| ==> Priced(items[i])
    ensures TotalOf(items) == Subtotal(items)
  {
    if items != [] {
      var init := items[..|items| - 1];
      assert forall i :: 0 <= i < |init| ==> init[i] == items[i];
      TotalOfPriced(init);
      assert Priced(items[|items| - 1]);
    }
  }

  datatype Case = Case(
    id: Id,
    title: string,
    description: string,
    address: Option<string>,
    scheduledAt: Option<string>,
    status: CaseStatus,
    handymanId: Option<Id>,
    clientId: Option<Id>,
    completedAt: Option<Time>,
    createdAt: Time)

  datatype Invoice = Invoice(
    id: Id,
    kind: string,
    caseId: Id,
    issuedById: Option<Id>,
    status: InvoiceStatus,
    totalAmount: int,
    note: Option<string>,
    issuedAt: Option<Time>,
    paidAt: Option<Time>,
    items: seq<LineItem>,
    createdAt: Time)

  datatype User = User(
    id: Id,
    cognitoId: Option<string>,
    lineUserId: Option<string>,
    email: Option<string>,
    name: string,
    role: Role)

  /** What a handler sees of the signed-in user; either part may be unset. */
  datatype Session = Session(role: Option<Role>, dbId: Option<Id>)

  /** JavaScript truthiness of an optional string: present and non-empty. */
  predicate Truthy(s: Option<string>) {
    s.Some? && s.value != ""
  }

  /** `session && session.user.role === "HEADQUARTERS"`. */
  predicate IsHeadquarters(session: Option<Session>) {
    session.Some? && session.value.role == Some(Headquarters)
  }

  function CaseCreatedAt(c: Case): Time { c.createdAt }

  function InvoiceCreatedAt(inv: Invoice): Time { inv.createdAt }
}
