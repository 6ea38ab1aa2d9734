/**
 * The new-invoice form: an editable list of line items that always has
 * at least one row and keeps every row's amount equal to quantity times
 * unit price, the running total, and the guard that refuses to submit
 * without a case.
 */
module InvoiceEditor {
  import opened Wrappers
  import opened Domain
  import opened InvoicesRoute

  /** A change made through one input of a row. */
  datatype ItemEdit =
    | SetName(name: string)
    | SetQuantity(quantity: int)
    | SetUnitPrice(unitPrice: int)
    | SetAmount(amount: int)

  /** The row a new form or `addItem` starts from. */
  function EmptyItem(): (e: LineItem)
    ensures e.name == "" && e.quantity == 1 && e.unitPrice == 0
    ensures Priced(e) && e.amount == 0
  {
    LineItem("", 1, 0, 0)
  }

  /** Sets one field of `item`, then recomputes its amount. */
  function Edit(item: LineItem, e: ItemEdit): (r: LineItem)
    ensures Priced(r)
    ensures r.name == (if e.SetName? then e.name else item.name)
    ensures r.quantity == (if e.SetQuantity? then e.quantity else item.quantity)
    ensures r.unitPrice == (if e.SetUnitPrice? then e.unitPrice else item.unitPrice)
  {
    var next := match e
      case SetName(n) => item.(name := n)
      case SetQuantity(q) => item.(quantity := q)
      case SetUnitPrice(p) => item.(unitPrice := p)
      case SetAmount(a) => item.(amount := a);
    next.(amount := next.quantity * next.unitPrice)
  }

  /** `prev.filter((_, i) => i !== index)`. */
  function Without(s: seq<LineItem>, index: int): (r: seq<LineItem>)
    ensures 0 <= index < |s| ==> |r| == |s| - 1
    ensures 0 <= index < |s| ==> forall j :: 0 <= j < |r| ==> r[j] == s[if j < index then j else j + 1]
    ensures !(0 <= index < |s|) ==> r == s
  {
    if 0 <= index < |s| then s[..index] + s[index + 1..] else s
  }

  /** Every row of the list is priced and there is at least one row. */
  ghost predicate WellFormed(items: seq<LineItem>) {
    |items| >= 1 && forall i :: 0 <= i < |items| ==> Priced(items[i])
  }

  class Editor {
    var kind: InvoiceType
    var caseId: Id
    var items: seq<LineItem>
    var note: string
    var error: string

    ghost predicate Valid()
      reads this
    {
      WellFormed(items)
    }

    /** The form as first rendered, with the case preselected from the query string. */
    constructor (defaultCaseId: Id)
      ensures Valid()
      ensures kind == InvoiceKind && caseId == defaultCaseId && items == [EmptyItem()]
      ensures note == "" && error == ""
    {
      kind := InvoiceKind;
      caseId := defaultCaseId;
      items := [EmptyItem()];
      note := "";
      error := "";
    }

    /** `updateItem`: rewrites row `index` and leaves every other row as it was. */
    method UpdateItem(index: int, e: ItemEdit)
      requires Valid()
      requires 0 <= index < |items|
      modifies this`items
      ensures Valid()
      ensures items == old(items)[index := Edit(old(items)[index], e)]
    {
      var next := items;
      next := next[index := Edit(next[index], e)];
      items := next;
    }

    /** `addItem`: appends one empty row. */
    method AddItem()
      requires Valid()
      modifies this`items
      ensures Valid()
      ensures items == old(items) + [EmptyItem()]
    {
      items := items + [EmptyItem()];
    }

    /** `removeItem`: does nothing to a one-row list, otherwise drops row `index` if there is one. */
    method RemoveItem(index: int)
      requires Valid()
      modifies this`items
      ensures Valid()
      ensures items == if |old(items)| == 1 then old(items) else Without(old(items), index)
    {
      if |items| == 1 {
        return;
      }
      items := Without(items, index);
    }

    /** The total shown under the rows: the sum of the row amounts. */
    function TotalAmount(): (t: int)
      reads this
      requires Valid()
      ensures t == Subtotal(items)
    {
      TotalOfPriced(items);
      TotalOf(items)
    }

    /** `handleSubmit`: without a case it sets the error and sends nothing. */
    method Submit() returns (sent: Option<InvoiceRequest>)
      requires Valid()
      modifies this`error
      ensures caseId == "" ==> sent.None? && error == "案件を選択してください"
      ensures caseId != "" ==> sent == Some(Body()) && error == ""
    {
      if caseId == "" {
        error := "案件を選択してください";
        return None;
      }
      error := "";
      sent := Some(Body());
    }

    /** The JSON body `{ type, caseId, items, note }`. */
    function Body(): InvoiceRequest
      reads this
    {
      InvoiceRequest(Some(kind.Name()), Some(caseId), Some(items), Some(note))
    }
  }

  /**
   * What the form submits always passes the endpoint's validation, and the
   * endpoint stores the total the form displayed.
   */
  lemma SubmittedBodyIsAccepted(kind: InvoiceType, caseId: Id, items: seq<LineItem>, note: string)
    requires WellFormed(items) && caseId != ""
    ensures var req := InvoiceRequest(Some(kind.Name()), Some(caseId), Some(items), Some(note));
            Complete(req) && forall id, issuer, now :: Created(id, req, issuer, now).totalAmount == Subtotal(items)
  {
    TotalOfPriced(items);
  }

  /** Each kind of edit keeps the row priced, and an edit of `amount` itself is overwritten. */
  lemma EditOfAmountIsRecomputed(item: LineItem, a: int)
    ensures Edit(item, SetAmount(a)).amount == item.quantity * item.unitPrice
  {
  }

  /** Updating row `index` changes the total by the difference of that row's amounts. */
  lemma {:induction false} TotalAfterUpdate(s: seq<LineItem>, index: int, item: LineItem)
    requires 0 <= index < |s|
    ensures TotalOf(s[index := item]) == TotalOf(s) - s[index].amount + item.amount
    decreases |s|
  {
    var t := s[index := item];
    var n := |s| - 1;
    assert t[..n] == if index == n then s[..n] else s[..n][index := item];
    if index < n {
      TotalAfterUpdate(s[..n], index, item);
      assert s[..n][index] == s[index];
    }
  }

  /** Removing row `index` takes exactly that row's amount off the total. */
  lemma {:induction false} TotalAfterRemove(s: seq<LineItem>, index: int)
    requires 0 <= index < |s|
    ensures TotalOf(Without(s, index)) == TotalOf(s) - s[index].amount
    decreases |s|
  {
    var n := |s| - 1;
    var r := Without(s, index);
    if index == n {
      assert r == s[..n];
    } else {
      assert r[..|r| - 1] == Without(s[..n], index);
      assert r[|r| - 1] == s[n];
      TotalAfterRemove(s[..n], index);
      assert s[..n][index] == s[index];
    }
  }
}
