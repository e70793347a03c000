/**
 * The page listing one student's payments: the loaders that answer nothing for an empty
 * code, the code copied in from the route, the detail modal keyed by a payment id (closed as
 * soon as the id is not in the loaded list), and the status update with its reload.
 */
module StudentPaymentsPageView {
  import opened Wrappers
  import opened Domain
  import opened Seqs
  import opened MockStudentApi
  import opened MockPaymentApi
  import MockData
  import StudentUseCases
  import PaymentUseCases
  import PaymentsPageView

  /** The buttons of this page's detail modal for a payment in `status`. */
  function DetailActions(status: PaymentStatus): seq<PaymentsPageView.StatusAction> {
    if status == PENDIENTE then
      [PaymentsPageView.StatusAction("Aprobar Pago", PAGADO), PaymentsPageView.StatusAction("Rechazar Pago", RECHAZADO)]
    else if status == PAGADO || status == RECHAZADO then
      [PaymentsPageView.StatusAction("Marcar como Pendiente", PENDIENTE)]
    else []
  }

  /** The status change button of a table row. */
  function RowActions(status: PaymentStatus): seq<PaymentsPageView.StatusAction> {
    if status == PENDIENTE then [PaymentsPageView.StatusAction("Aprobar", PAGADO)] else []
  }

  /** Both pages offer the same buttons for every status, so everything proved about the
      payments page's rule holds here. */
  lemma SameActionsAsPaymentsPage(status: PaymentStatus)
    ensures DetailActions(status) == PaymentsPageView.DetailActions(status)
    ensures RowActions(status) == PaymentsPageView.RowActions(status)
  {
  }

  /** This page offers exactly the transitions of the shared rule. */
  lemma DetailActionsExact(from: PaymentStatus, to: PaymentStatus)
    ensures (exists a :: a in DetailActions(from) && a.target == to) <==> PaymentsPageView.OfferedTransition(from, to)
    ensures forall a :: a in DetailActions(from) ==> a.target != from
  {
    SameActionsAsPaymentsPage(from);
    PaymentsPageView.DetailActionsExact(from, to);
  }

  class StudentPaymentsPage {
    /** The code whose payments are shown. */
    var codigo: string
    /** The code handed over by the route. */
    var studentCode: string
    var student: Option<Student>
    var selectedPaymentId: Option<int>
    var isDetailModalOpen: bool
    var notification: Option<PaymentsPageView.Notification>
    /** How many times the payments task was run again. */
    var paymentReloads: nat

    /** The modal is open exactly when a payment id is selected. */
    ghost predicate Valid()
      reads this
    {
      isDetailModalOpen <==> selectedPaymentId.Some?
    }

    constructor ()
      ensures Valid()
      ensures codigo == "" && studentCode == "" && student == None
      ensures selectedPaymentId == None && !isDetailModalOpen && notification == None
      ensures paymentReloads == 0
    {
      codigo := "";
      studentCode := "";
      student := None;
      selectedPaymentId := None;
      isDetailModalOpen := false;
      notification := None;
      paymentReloads := 0;
    }

    /** `updated(changed)`: a changed, non-empty `studentCode` becomes the shown code. */
    method Updated(studentCodeChanged: bool)
      modifies this`codigo
      ensures studentCodeChanged && studentCode != "" ==> codigo == studentCode
      ensures !(studentCodeChanged && studentCode != "") ==> codigo == old(codigo)
    {
      if studentCodeChanged && studentCode != "" {
        codigo := studentCode;
      }
    }

    /** The student task: nothing for an empty code, without a query; otherwise the student
        with that code, if any. */
    method LoadStudent(uc: StudentUseCases.StudentUseCase) returns (r: Option<Student>)
      ensures codigo == "" ==> r == None
      ensures codigo != "" ==>
                (r.Some? <==> IndexOfCode(uc.repository.students, codigo) != -1) &&
                (r.Some? ==> r.value == uc.repository.students[IndexOfCode(uc.repository.students, codigo)])
    {
      if codigo == "" {
        return None;
      }
      r := uc.GetStudentByCode(codigo);
    }

    /** The student task's completion: a found student is kept for the page. */
    method CompleteStudentLoad(loaded: Option<Student>)
      modifies this`student
      ensures loaded.Some? ==> student == loaded
      ensures loaded.None? ==> student == old(student)
    {
      if loaded.Some? {
        student := loaded;
      }
    }

    /** The payments task: `[]` for an empty code, without a query; otherwise the use case's
        answer, which fails for an unknown student and is that student's fixture payments
        for a known one. */
    method LoadPayments(uc: StudentUseCases.StudentUseCase) returns (r: Result<seq<Payment>, Error>)
      ensures codigo == "" ==> r == Success([])
      ensures codigo != "" ==>
                (r.Failure? <==> IndexOfCode(uc.repository.students, codigo) == -1) &&
                (r.Failure? ==> r.error == StudentNotFound(codigo)) &&
                (r.Success? ==>
                   (r.value == MockData.GetStudentPayments(codigo) &&
                    forall p :: p in r.value ==> p.estudiante.codigo == codigo))
    {
      if codigo == "" {
        return Success([]);
      }
      r := uc.GetStudentPayments(codigo);
      if r.Success? {
        MockData.StudentPaymentsExact(codigo);
      }
    }

    /** `showPaymentDetail(paymentId)`. */
    method ShowPaymentDetail(paymentId: int)
      modifies this`selectedPaymentId, this`isDetailModalOpen
      ensures Valid()
      ensures selectedPaymentId == Some(paymentId) && isDetailModalOpen
    {
      selectedPaymentId := Some(paymentId);
      isDetailModalOpen := true;
    }

    /** `closeDetailModal()`. */
    method CloseDetailModal()
      modifies this`selectedPaymentId, this`isDetailModalOpen
      ensures Valid()
      ensures selectedPaymentId == None && !isDetailModalOpen
    {
      isDetailModalOpen := false;
      selectedPaymentId := None;
    }

    /** The open modal over the loaded list: it shows the first payment with the selected id;
        when the list has none, the modal closes itself and shows nothing. */
    method RenderDetail(payments: seq<Payment>) returns (shown: Option<Payment>)
      requires Valid() && isDetailModalOpen
      modifies this`selectedPaymentId, this`isDetailModalOpen
      ensures Valid()
      ensures shown.Some? <==> exists i :: 0 <= i < |payments| && payments[i].id == old(selectedPaymentId).value
      ensures shown.Some? ==> shown.value in payments && shown.value.id == old(selectedPaymentId).value &&
                              selectedPaymentId == old(selectedPaymentId) && isDetailModalOpen
      ensures shown.Some? ==> exists i :: 0 <= i < |payments| && payments[i] == shown.value &&
                                (forall j :: 0 <= j < i ==> payments[j].id != old(selectedPaymentId).value)
      ensures shown.None? ==> selectedPaymentId == None && !isDetailModalOpen
    {
      var id := selectedPaymentId.value;
      shown := Find(payments, ById(id));
      FindFacts(payments, ById(id));
      if shown.None? {
        CloseDetailModal();
      }
    }

    /** `updatePaymentStatus(paymentId, status)`: on success the payments task runs again, an
        open modal closes and the success toast shows; on failure only the error toast shows. */
    method UpdatePaymentStatus(uc: PaymentUseCases.PaymentUseCase, paymentId: int, status: PaymentStatus)
      requires Valid() && uc.Valid()
      modifies this, uc.repository
      ensures Valid() && uc.Valid()
      ensures codigo == old(codigo) && studentCode == old(studentCode) && student == old(student)
      ensures uc.repository.nextId == old(uc.repository.nextId)
      ensures IndexOfId(old(uc.repository.payments), paymentId) == -1 ==>
                uc.repository.payments == old(uc.repository.payments) &&
                paymentReloads == old(paymentReloads) && notification == Some(PaymentsPageView.UpdateFailed) &&
                selectedPaymentId == old(selectedPaymentId) && isDetailModalOpen == old(isDetailModalOpen)
      ensures IndexOfId(old(uc.repository.payments), paymentId) != -1 ==>
                var k := IndexOfId(old(uc.repository.payments), paymentId);
                uc.repository.payments == old(uc.repository.payments)[k := old(uc.repository.payments)[k].(status := status)] &&
                paymentReloads == old(paymentReloads) + 1 && notification == Some(PaymentsPageView.UpdateSucceeded) &&
                selectedPaymentId == None && !isDetailModalOpen
    {
      var r := uc.UpdatePaymentStatus(paymentId, UpdatePaymentStatusDto(status));
      if r.Failure? {
        notification := Some(PaymentsPageView.UpdateFailed);
        return;
      }
      paymentReloads := paymentReloads + 1;
      if isDetailModalOpen {
        CloseDetailModal();
      }
      notification := Some(PaymentsPageView.UpdateSucceeded);
    }
  }

  /** The reloaded list after a status change comes from the fixtures, not from the payment
      store: for the fixture student EST-001 it shows its first payment as approved whatever
      status the store now holds for it. */
  lemma ReloadShowsFixtureStatus()
    ensures MockData.GetStudentPayments("EST-001")[0].id == 1
    ensures MockData.GetStudentPayments("EST-001")[0].status == PAGADO
  {
    MockData.Est001Payments();
  }
}
