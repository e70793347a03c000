/**
 * The payments page: which status changes it offers for a payment, the labels it shows, the
 * detail modal, the choice between a filtered and a full load, and the status update that
 * reloads the list and closes the modal.
 */
module PaymentsPageView {
  import opened Wrappers
  import opened Domain
  import opened MockPaymentApi
  import PaymentUseCases

  /** A button that requests a status change. */
  datatype StatusAction = StatusAction(caption: string, target: PaymentStatus)

  /** The buttons of the detail modal for a payment in `status`. */
  function DetailActions(status: PaymentStatus): seq<StatusAction> {
    match status
    case PENDIENTE => [StatusAction("Aprobar Pago", PAGADO), StatusAction("Rechazar Pago", RECHAZADO)]
    case PAGADO => [StatusAction("Marcar como Pendiente", PENDIENTE)]
    case RECHAZADO => [StatusAction("Marcar como Pendiente", PENDIENTE)]
    case _ => []
  }

  /** The status change button of a table row: approval, for pending payments only. */
  function RowActions(status: PaymentStatus): seq<StatusAction> {
    if status == PENDIENTE then [StatusAction("Aprobar", PAGADO)] else []
  }

  /** The status changes the interface lets a user make: a pending payment is approved or
      rejected; an approved or rejected one goes back to pending. */
  predicate OfferedTransition(from: PaymentStatus, to: PaymentStatus) {
    (from == PENDIENTE && (to == PAGADO || to == RECHAZADO)) ||
    ((from == PAGADO || from == RECHAZADO) && to == PENDIENTE)
  }

  /** The detail buttons offer exactly the transitions above: never the current status, and
      nothing at all for a created or cancelled payment. */
  lemma DetailActionsExact(from: PaymentStatus, to: PaymentStatus)
    ensures (exists a :: a in DetailActions(from) && a.target == to) <==> OfferedTransition(from, to)
    ensures forall a :: a in DetailActions(from) ==> a.target != from
    ensures DetailActions(from) == [] <==> from == CREADO || from == CANCELADO
  {
    if OfferedTransition(from, to) {
      if from == PENDIENTE {
        assert DetailActions(from)[0].target == PAGADO && DetailActions(from)[1].target == RECHAZADO;
        assert DetailActions(from)[0] in DetailActions(from) && DetailActions(from)[1] in DetailActions(from);
      } else {
        assert DetailActions(from)[0] in DetailActions(from);
      }
    }
  }

  /** The row offers only approval, only for a pending payment, and it is the first button of
      the same payment's detail modal. */
  lemma RowActionIsFirstDetailAction(status: PaymentStatus)
    ensures RowActions(status) != [] <==> status == PENDIENTE
    ensures RowActions(status) != [] ==>
              |RowActions(status)| == 1 && RowActions(status)[0].target == DetailActions(status)[0].target
  {
  }

  /** Every offered change can be undone with an offered change, and a rejected payment can be
      approved in two steps; a created or cancelled payment never leaves its status from the
      interface. */
  lemma OfferedTransitionsReversible(from: PaymentStatus, to: PaymentStatus)
    ensures OfferedTransition(from, to) ==> OfferedTransition(to, from)
    ensures OfferedTransition(RECHAZADO, PENDIENTE) && OfferedTransition(PENDIENTE, PAGADO)
    ensures (from == CREADO || from == CANCELADO) ==> !OfferedTransition(from, to)
    ensures (to == CREADO || to == CANCELADO) ==> !OfferedTransition(from, to)
  {
  }

  /** `renderPaymentType`: the display name of a payment type. */
  function TypeLabel(t: PaymentType): string {
    match t
    case EFECTIVO => "Efectivo"
    case TRANSFERENCIA => "Transferencia"
    case CHEQUE => "Cheque"
    case TARJETA => "Tarjeta"
    case OTRO => "Otro"
  }

  /** The badge text of a status. */
  function StatusLabel(s: PaymentStatus): string {
    match s
    case CREADO => "Creado"
    case PENDIENTE => "Pendiente"
    case PAGADO => "Pagado"
    case RECHAZADO => "Rechazado"
    case CANCELADO => "Cancelado"
  }

  /** The badge CSS class of a status. */
  function StatusClass(s: PaymentStatus): string {
    match s
    case CREADO => "status-created"
    case PENDIENTE => "status-pending"
    case PAGADO => "status-paid"
    case RECHAZADO => "status-rejected"
    case CANCELADO => "status-cancelled"
  }

  /** Reads a type back from its label. */
  function TypeFromLabel(text: string): Option<PaymentType> {
    if text == "Efectivo" then Some(EFECTIVO)
    else if text == "Transferencia" then Some(TRANSFERENCIA)
    else if text == "Cheque" then Some(CHEQUE)
    else if text == "Tarjeta" then Some(TARJETA)
    else if text == "Otro" then Some(OTRO)
    else None
  }

  /** Reads a status back from its badge text. */
  function StatusFromLabel(text: string): Option<PaymentStatus> {
    if text == "Creado" then Some(CREADO)
    else if text == "Pendiente" then Some(PENDIENTE)
    else if text == "Pagado" then Some(PAGADO)
    else if text == "Rechazado" then Some(RECHAZADO)
    else if text == "Cancelado" then Some(CANCELADO)
    else None
  }

  /** Reads a status back from its badge class. */
  function StatusFromClass(cls: string): Option<PaymentStatus> {
    if cls == "status-created" then Some(CREADO)
    else if cls == "status-pending" then Some(PENDIENTE)
    else if cls == "status-paid" then Some(PAGADO)
    else if cls == "status-rejected" then Some(RECHAZADO)
    else if cls == "status-cancelled" then Some(CANCELADO)
    else None
  }

  /** Every type has a non-empty label, so the `|| type` fallback is never taken, and the
      label names its type unambiguously. */
  lemma TypeLabelRoundTrip(t: PaymentType)
    ensures TypeLabel(t) != ""
    ensures TypeFromLabel(TypeLabel(t)) == Some(t)
  {
  }

  /** A badge's text and its class each name its status unambiguously. */
  lemma StatusLabelRoundTrip(s: PaymentStatus)
    ensures StatusFromLabel(StatusLabel(s)) == Some(s)
    ensures StatusFromClass(StatusClass(s)) == Some(s)
  {
  }

  /** The toast shown after a status change. */
  datatype Notification = Notification(message: string, kind: string)

  const UpdateSucceeded := Notification("Estado de pago actualizado correctamente", "success")
  const UpdateFailed := Notification("Error al actualizar estado de pago", "error")

  class PaymentsPage {
    var filters: PaymentFilters
    var selectedPayment: Option<Payment>
    var isDetailModalOpen: bool
    var notification: Option<Notification>
    /** How many times the list was asked to load again: the task re-runs whenever the
        `filters` object is replaced, even by an equal copy. */
    var reloads: nat

    /** The modal is open exactly when a payment is selected. */
    ghost predicate Valid()
      reads this
    {
      isDetailModalOpen <==> selectedPayment.Some?
    }

    /** Connected: no filters, no modal, no toast. */
    constructor ()
      ensures Valid()
      ensures filters == NoPaymentFilters && selectedPayment == None && !isDetailModalOpen
      ensures notification == None && reloads == 0
    {
      filters := NoPaymentFilters;
      selectedPayment := None;
      isDetailModalOpen := false;
      notification := None;
      reloads := 0;
    }

    /** `handleFilter`: takes the emitted filters, which reloads the list. */
    method HandleFilter(f: PaymentFilters)
      modifies this`filters, this`reloads
      ensures filters == f && reloads == old(reloads) + 1
    {
      filters := f;
      reloads := reloads + 1;
    }

    /** `showPaymentDetail(payment)`. */
    method ShowPaymentDetail(payment: Payment)
      modifies this`selectedPayment, this`isDetailModalOpen
      ensures Valid()
      ensures selectedPayment == Some(payment) && isDetailModalOpen
    {
      selectedPayment := Some(payment);
      isDetailModalOpen := true;
    }

    /** `closeDetailModal()`. */
    method CloseDetailModal()
      modifies this`selectedPayment, this`isDetailModalOpen
      ensures Valid()
      ensures selectedPayment == None && !isDetailModalOpen
    {
      isDetailModalOpen := false;
      selectedPayment := None;
    }

    /** The load task: the filtered query when the filter object has any property, the full
        list otherwise. Both branches answer the same selection. */
    method LoadPayments(uc: PaymentUseCases.PaymentUseCase) returns (r: seq<Payment>)
      ensures r == SelectPayments(uc.repository.payments, filters)
      ensures PaymentFilterKeys(filters) == {} ==> r == uc.repository.payments
    {
      PaymentFilterKeysExact(filters);
      if PaymentFilterKeys(filters) != {} {
        r := uc.GetPaymentsByFilters(filters);
      } else {
        r := uc.GetAllPayments();
        NoFiltersSelectAll(uc.repository.payments, filters);
      }
    }

    /** `updatePaymentStatus(paymentId, status)`: on success the list reloads, an open modal
        closes and the success toast shows; on failure only the error toast shows. No
        transition rule is checked here. */
    method UpdatePaymentStatus(uc: PaymentUseCases.PaymentUseCase, paymentId: int, status: PaymentStatus)
      requires Valid() && uc.Valid()
      modifies this, uc.repository
      ensures Valid() && uc.Valid()
      ensures filters == old(filters) && uc.repository.nextId == old(uc.repository.nextId)
      ensures IndexOfId(old(uc.repository.payments), paymentId) == -1 ==>
                uc.repository.payments == old(uc.repository.payments) &&
                reloads == old(reloads) && notification == Some(UpdateFailed) &&
                selectedPayment == old(selectedPayment) && isDetailModalOpen == old(isDetailModalOpen)
      ensures IndexOfId(old(uc.repository.payments), paymentId) != -1 ==>
                var k := IndexOfId(old(uc.repository.payments), paymentId);
                uc.repository.payments == old(uc.repository.payments)[k := old(uc.repository.payments)[k].(status := status)] &&
                reloads == old(reloads) + 1 && notification == Some(UpdateSucceeded) &&
                selectedPayment == None && !isDetailModalOpen
    {
      var r := uc.UpdatePaymentStatus(paymentId, UpdatePaymentStatusDto(status));
      if r.Failure? {
        notification := Some(UpdateFailed);
        return;
      }
      reloads := reloads + 1;
      if isDetailModalOpen {
        CloseDetailModal();
      }
      notification := Some(UpdateSucceeded);
    }

    /** A button of the open detail modal: asks for the button's status on the selected
        payment. When that payment is stored, its status becomes one the rule offers from
        the status the modal showed. */
    method ClickDetailAction(uc: PaymentUseCases.PaymentUseCase, i: nat)
      requires Valid() && uc.Valid() && isDetailModalOpen
      requires i < |DetailActions(selectedPayment.value.status)|
      modifies this, uc.repository
      ensures Valid() && uc.Valid()
      ensures |uc.repository.payments| == |old(uc.repository.payments)|
      ensures uc.repository.nextId == old(uc.repository.nextId) && filters == old(filters)
      ensures IndexOfId(old(uc.repository.payments), old(selectedPayment).value.id) == -1 ==>
                uc.repository.payments == old(uc.repository.payments) && isDetailModalOpen &&
                notification == Some(UpdateFailed) && reloads == old(reloads) &&
                selectedPayment == old(selectedPayment)
      ensures IndexOfId(old(uc.repository.payments), old(selectedPayment).value.id) != -1 ==>
                var k := IndexOfId(old(uc.repository.payments), old(selectedPayment).value.id);
                uc.repository.payments == old(uc.repository.payments)[k := old(uc.repository.payments)[k].(
                  status := DetailActions(old(selectedPayment).value.status)[i].target)] &&
                notification == Some(UpdateSucceeded) && reloads == old(reloads) + 1 &&
                selectedPayment == None &&
                uc.repository.payments[k].status != old(selectedPayment).value.status &&
                OfferedTransition(old(selectedPayment).value.status, uc.repository.payments[k].status) &&
                !isDetailModalOpen
    {
      var shown := selectedPayment.value;
      var action := DetailActions(shown.status)[i];
      DetailActionsExact(shown.status, action.target);
      UpdatePaymentStatus(uc, shown.id, action.target);
    }
  }
}
