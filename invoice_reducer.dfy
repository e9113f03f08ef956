/** The invoicing slice of the store: `invoiceReducer`. */
module InvoiceReducer {
  import opened Wrappers
  import opened Types
  import opened Actions
  import opened Records
  import Lists

  datatype InvoiceState = InvoiceState(
    invoices: seq<Invoice>,
    currentInvoice: Option<Invoice>,
    loading: bool,
    error: Option<string>)

  const InitialInvoiceState: InvoiceState := InvoiceState([], None, false, None)

  function Id(i: Invoice): string { i.id }

  /** The `RECORD_PAYMENT_SUCCESS` update of one invoice. */
  function Pay(inv: Invoice, amount: real, newStatus: InvoiceStatus): Invoice
  {
    inv.(amountPaid := inv.amountPaid + amount, status := newStatus)
  }

  /** The update `x => Pay(x, amount, newStatus)` that a payment maps over the invoices. */
  function Payment(amount: real, newStatus: InvoiceStatus): Invoice -> Invoice
  {
    x => Pay(x, amount, newStatus)
  }

  /** The update that sets the status, as `MARK_AS_SENT` and `MARK_AS_OVERDUE` map it. */
  function Mark(status: InvoiceStatus): Invoice -> Invoice
  {
    (x: Invoice) => x.(status := status)
  }

  /** The `MARK_AS_PAID` update of one invoice. */
  function SetPaid(inv: Invoice): Invoice
  {
    inv.(status := Paid, amountPaid := inv.total)
  }

  /** `current?.id === id`: false when there is no current invoice. */
  predicate IsCurrent(current: Option<Invoice>, id: string)
  {
    current.Some? && current.value.id == id
  }

  /** Applies `f` to the current invoice when its id is `id`. */
  function UpdateCurrent(current: Option<Invoice>, id: string, f: Invoice -> Invoice): Option<Invoice>
  {
    if IsCurrent(current, id) then Some(f(current.value)) else current
  }

  predicate IsRequest(a: InvoiceAction)
  {
    a.FetchInvoicesRequest? || a.FetchInvoiceRequest? || a.CreateInvoiceRequest?
    || a.UpdateInvoiceRequest? || a.DeleteInvoiceRequest? || a.SendInvoiceRequest?
    || a.RecordPaymentRequest?
  }

  predicate IsFailure(a: InvoiceAction)
  {
    a.FetchInvoicesFailure? || a.FetchInvoiceFailure? || a.CreateInvoiceFailure?
    || a.UpdateInvoiceFailure? || a.DeleteInvoiceFailure? || a.SendInvoiceFailure?
    || a.RecordPaymentFailure?
  }

  /** `invoiceReducer(state, action)`: an action of another slice falls to `default`. */
  function Reduce(s: InvoiceState, a: Action): (r: InvoiceState)
    ensures SliceOf(a) != InvoiceSlice ==> r == s
  {
    match a
    case InvoiceAct(action) => Step(s, action)
    case _ => s
  }

  /** `RECORD_PAYMENT_SUCCESS`: the payment is applied to the listed and the current invoice. */
  function RecordPayment(s: InvoiceState, id: string, amount: real, newStatus: InvoiceStatus): InvoiceState
  {
    s.(loading := false, invoices := UpdateWhere(s.invoices, Id, id, Payment(amount, newStatus)),
       currentInvoice := UpdateCurrent(s.currentInvoice, id, Payment(amount, newStatus)), error := None)
  }

  /** The actions whose branch assigns `invoices`. */
  predicate WritesList(a: InvoiceAction)
  {
    a.FetchInvoicesSuccess? || a.CreateInvoiceSuccess? || a.UpdateInvoiceSuccess? || a.SendInvoiceSuccess?
    || a.DeleteInvoiceSuccess? || a.RecordPaymentSuccess? || a.MarkAsSent? || a.MarkAsPaid? || a.MarkAsOverdue?
  }

  /** The branches of `invoiceReducer`'s switch; every other action leaves the list alone. */
  function Step(s: InvoiceState, a: InvoiceAction): (r: InvoiceState)
    ensures !WritesList(a) ==> r.invoices == s.invoices
  {
    match a
    case FetchInvoicesRequest | FetchInvoiceRequest | CreateInvoiceRequest | UpdateInvoiceRequest
      | DeleteInvoiceRequest | SendInvoiceRequest | RecordPaymentRequest =>
      s.(loading := true, error := None)
    case FetchInvoicesSuccess(invoices) =>
      s.(loading := false, invoices := invoices, error := None)
    case FetchInvoiceSuccess(invoice) =>
      s.(loading := false, currentInvoice := Some(invoice), error := None)
    case CreateInvoiceSuccess(invoice) =>
      s.(loading := false, invoices := s.invoices + [invoice], currentInvoice := Some(invoice), error := None)
    case UpdateInvoiceSuccess(_) | SendInvoiceSuccess(_) =>
      s.(loading := false, invoices := ReplaceWhere(s.invoices, Id, a.invoice),
         currentInvoice := Some(a.invoice), error := None)
    case DeleteInvoiceSuccess(id) =>
      s.(loading := false, invoices := RemoveWhere(s.invoices, Id, id),
         currentInvoice := if IsCurrent(s.currentInvoice, id) then None else s.currentInvoice,
         error := None)
    case RecordPaymentSuccess(id, amount, newStatus) => RecordPayment(s, id, amount, newStatus)
    case MarkAsSent(id) =>
      s.(invoices := UpdateWhere(s.invoices, Id, id, Mark(Sent)),
         currentInvoice := UpdateCurrent(s.currentInvoice, id, Mark(Sent)))
    case MarkAsPaid(id) =>
      s.(invoices := UpdateWhere(s.invoices, Id, id, SetPaid),
         currentInvoice := UpdateCurrent(s.currentInvoice, id, SetPaid))
    case MarkAsOverdue(id) =>
      s.(invoices := UpdateWhere(s.invoices, Id, id, Mark(Overdue)),
         currentInvoice := UpdateCurrent(s.currentInvoice, id, Mark(Overdue)))
    case FetchInvoicesFailure(_) | FetchInvoiceFailure(_) | CreateInvoiceFailure(_) | UpdateInvoiceFailure(_)
      | DeleteInvoiceFailure(_) | SendInvoiceFailure(_) | RecordPaymentFailure(_) =>
      s.(loading := false, error := Some(a.error))
    case ClearInvoiceError =>
      s.(error := None)
  }

  lemma RequestAndFailure(s: InvoiceState, a: InvoiceAction)
    ensures IsRequest(a) ==> Step(s, a) == s.(loading := true, error := None)
    ensures IsFailure(a) ==> Step(s, a) == s.(loading := false, error := Some(a.error))
  {
  }

  /**
   * A payment adds exactly its amount to `amountPaid` of the invoices with
   * that id and sets their status; nothing else of any invoice changes.
   */
  lemma RecordPaymentEffect(s: InvoiceState, id: string, amount: real, newStatus: InvoiceStatus)
    ensures var r := Step(s, RecordPaymentSuccess(id, amount, newStatus));
      && |r.invoices| == |s.invoices|
      && (forall i :: 0 <= i < |s.invoices| && s.invoices[i].id == id ==>
            r.invoices[i].amountPaid == s.invoices[i].amountPaid + amount
            && r.invoices[i].status == newStatus
            && r.invoices[i].(amountPaid := s.invoices[i].amountPaid, status := s.invoices[i].status) == s.invoices[i])
      && (forall i :: 0 <= i < |s.invoices| && s.invoices[i].id != id ==> r.invoices[i] == s.invoices[i])
  {
  }

  /** Two payments on one invoice amount to a single payment of their sum. */
  lemma {:induction false} PaymentsAccumulate(s: InvoiceState, id: string, p1: real, p2: real, st1: InvoiceStatus, st2: InvoiceStatus)
    ensures Step(Step(s, RecordPaymentSuccess(id, p1, st1)), RecordPaymentSuccess(id, p2, st2))
         == Step(s, RecordPaymentSuccess(id, p1 + p2, st2))
  {
    var s1 := RecordPayment(s, id, p1, st1);
    assert Step(s, RecordPaymentSuccess(id, p1, st1)) == s1;
    assert Step(s1, RecordPaymentSuccess(id, p2, st2)) == RecordPayment(s1, id, p2, st2);
    assert Step(s, RecordPaymentSuccess(id, p1 + p2, st2)) == RecordPayment(s, id, p1 + p2, st2);
    RecordPaymentsCompose(s, id, p1, p2, st1, st2);
  }

  lemma {:induction false} RecordPaymentsCompose(s: InvoiceState, id: string, p1: real, p2: real, st1: InvoiceStatus, st2: InvoiceStatus)
    ensures RecordPayment(RecordPayment(s, id, p1, st1), id, p2, st2) == RecordPayment(s, id, p1 + p2, st2)
  {
    PaymentsCompose(p1, p2, st1, st2);
    UpdateWhereCompose(s.invoices, Id, id, Payment(p1, st1), Payment(p2, st2), Payment(p1 + p2, st2));
  }

  /** Paying `p1` and then `p2` is paying `p1 + p2`, for any one invoice. */
  lemma PaymentsCompose(p1: real, p2: real, st1: InvoiceStatus, st2: InvoiceStatus)
    ensures forall x: Invoice :: Payment(p2, st2)(Payment(p1, st1)(x)) == Payment(p1 + p2, st2)(x)
  {
    forall x: Invoice
      ensures Payment(p2, st2)(Payment(p1, st1)(x)) == Payment(p1 + p2, st2)(x)
    {
      assert Pay(Pay(x, p1, st1), p2, st2) == Pay(x, p1 + p2, st2);
    }
  }

  /** The order of two payments with the same resulting status does not matter. */
  lemma PaymentOrderIrrelevant(s: InvoiceState, id: string, p1: real, p2: real, st: InvoiceStatus)
    ensures Step(Step(s, RecordPaymentSuccess(id, p1, st)), RecordPaymentSuccess(id, p2, st))
         == Step(Step(s, RecordPaymentSuccess(id, p2, st)), RecordPaymentSuccess(id, p1, st))
  {
    PaymentsAccumulate(s, id, p1, p2, st, st);
    PaymentsAccumulate(s, id, p2, p1, st, st);
    assert p1 + p2 == p2 + p1;
  }

  /** The actions that install an invoice or a list from their payload, or delete. */
  predicate ReplacesEntries(a: InvoiceAction)
  {
    a.FetchInvoicesSuccess? || a.FetchInvoiceSuccess? || a.CreateInvoiceSuccess?
    || a.UpdateInvoiceSuccess? || a.SendInvoiceSuccess? || a.DeleteInvoiceSuccess?
  }

  /**
   * When the current invoice equals an entry of the list, payments and the
   * status marks keep it equal to that entry.
   */
  lemma CurrentInvoiceInSync(s: InvoiceState, a: InvoiceAction, i: nat)
    requires i < |s.invoices| && s.currentInvoice == Some(s.invoices[i])
    requires !ReplacesEntries(a)
    ensures var r := Step(s, a); i < |r.invoices| && r.currentInvoice == Some(r.invoices[i])
  {
  }

  /** Marking as paid sets the status to PAID and `amountPaid` to the total, and is idempotent. */
  lemma MarkAsPaidEffect(s: InvoiceState, id: string)
    ensures var r := Step(s, MarkAsPaid(id));
      && |r.invoices| == |s.invoices|
      && (forall i :: 0 <= i < |s.invoices| ==>
            if s.invoices[i].id == id
            then r.invoices[i].status == Paid && r.invoices[i].amountPaid == s.invoices[i].total
                 && r.invoices[i].(status := s.invoices[i].status, amountPaid := s.invoices[i].amountPaid) == s.invoices[i]
            else r.invoices[i] == s.invoices[i])
    ensures Step(Step(s, MarkAsPaid(id)), MarkAsPaid(id)) == Step(s, MarkAsPaid(id))
  {
    UpdateWhereIdempotent(s.invoices, Id, id, SetPaid);
  }

  /**
   * Marking as sent changes only the status of the invoices with that id;
   * amount paid, total and items stay. It is idempotent.
   */
  lemma MarkAsSentEffect(s: InvoiceState, id: string)
    ensures var r := Step(s, MarkAsSent(id));
      && |r.invoices| == |s.invoices|
      && (forall i :: 0 <= i < |s.invoices| ==>
            r.invoices[i] == if s.invoices[i].id == id then s.invoices[i].(status := Sent) else s.invoices[i])
      && (forall i :: 0 <= i < |s.invoices| ==>
            r.invoices[i].amountPaid == s.invoices[i].amountPaid && r.invoices[i].total == s.invoices[i].total
            && r.invoices[i].items == s.invoices[i].items)
    ensures Step(Step(s, MarkAsSent(id)), MarkAsSent(id)) == Step(s, MarkAsSent(id))
  {
    UpdateWhereIdempotent(s.invoices, Id, id, Mark(Sent));
  }

  /**
   * Marking as overdue changes only the status of the invoices with that id;
   * amount paid, total and items stay. It is idempotent.
   */
  lemma MarkAsOverdueEffect(s: InvoiceState, id: string)
    ensures var r := Step(s, MarkAsOverdue(id));
      && |r.invoices| == |s.invoices|
      && (forall i :: 0 <= i < |s.invoices| ==>
            r.invoices[i] == if s.invoices[i].id == id then s.invoices[i].(status := Overdue) else s.invoices[i])
      && (forall i :: 0 <= i < |s.invoices| ==>
            r.invoices[i].amountPaid == s.invoices[i].amountPaid && r.invoices[i].total == s.invoices[i].total
            && r.invoices[i].items == s.invoices[i].items)
    ensures Step(Step(s, MarkAsOverdue(id)), MarkAsOverdue(id)) == Step(s, MarkAsOverdue(id))
  {
    UpdateWhereIdempotent(s.invoices, Id, id, Mark(Overdue));
  }

  /** The reducer does not look at the prior status: a PAID invoice can be marked overdue. */
  lemma OverdueAfterPaid(s: InvoiceState, i: nat)
    requires i < |s.invoices| && s.invoices[i].status == Paid
    ensures Step(s, MarkAsOverdue(s.invoices[i].id)).invoices[i].status == Overdue
  {
  }

  /**
   * A payment is neither capped at the balance due nor checked against the
   * prior status: whatever is recorded is added, whatever status is sent is set.
   */
  lemma PaymentUnchecked(s: InvoiceState, i: nat, amount: real, newStatus: InvoiceStatus)
    requires i < |s.invoices|
    requires s.invoices[i].amountPaid + amount > s.invoices[i].total
    ensures var paid := Step(s, RecordPaymentSuccess(s.invoices[i].id, amount, newStatus)).invoices[i];
      paid.amountPaid > paid.total && paid.status == newStatus
  {
  }

  /** Update and send replace the invoices with the payload's id, in place. */
  lemma UpdateInvoiceReplaces(s: InvoiceState, a: InvoiceAction)
    requires a.UpdateInvoiceSuccess? || a.SendInvoiceSuccess?
    ensures var r := Step(s, a);
      && |r.invoices| == |s.invoices|
      && (forall i :: 0 <= i < |s.invoices| ==>
            r.invoices[i] == if s.invoices[i].id == a.invoice.id then a.invoice else s.invoices[i])
      && r.currentInvoice == Some(a.invoice)
  {
  }

  /**
   * Deletion keeps exactly the invoices with another id, in their order,
   * and clears the current invoice exactly when its id matched.
   */
  lemma DeleteInvoiceRemoves(s: InvoiceState, id: string)
    ensures var r := Step(s, DeleteInvoiceSuccess(id));
      && (forall x | x in r.invoices :: x in s.invoices && x.id != id)
      && (forall x | x in s.invoices && x.id != id :: x in r.invoices)
      && Lists.IsSubsequence(r.invoices, s.invoices)
      && (forall x :: multiset(r.invoices)[x] == if x.id != id then multiset(s.invoices)[x] else 0)
      && (r.currentInvoice == None <==> (s.currentInvoice == None || s.currentInvoice.value.id == id))
      && (r.currentInvoice != None ==> r.currentInvoice == s.currentInvoice)
  {
  }
}
