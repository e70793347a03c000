/**
 * `PaymentUseCase`: the payment operations of the application layer. Reads pass the
 * repository's answer through; creation checks the student code first; the status update and
 * the receipt lookup check that the payment exists before delegating. No transition rule is
 * applied to status changes.
 */
module PaymentUseCases {
  import opened Wrappers
  import opened Domain
  import opened MockPaymentApi

  class PaymentUseCase {
    const repository: MockPaymentRepository

    ghost predicate Valid()
      reads this, repository
    {
      repository.Valid()
    }

    constructor (repository: MockPaymentRepository)
      ensures this.repository == repository
    {
      this.repository := repository;
    }

    /** `getAllPayments()`: the repository's answer, unchanged. */
    method GetAllPayments() returns (r: seq<Payment>)
      ensures r == repository.payments
    {
      r := repository.GetAll();
    }

    /** `getPaymentById(id)`: the repository's answer, unchanged. */
    method GetPaymentById(id: int) returns (r: Option<Payment>)
      ensures r.Some? <==> IndexOfId(repository.payments, id) != -1
      ensures r.Some? ==> r.value == repository.payments[IndexOfId(repository.payments, id)]
    {
      r := repository.GetById(id);
    }

    /** `getPaymentsByFilters(f)`: the repository's answer, unchanged. */
    method GetPaymentsByFilters(f: PaymentFilters) returns (r: seq<Payment>)
      ensures r == SelectPayments(repository.payments, f)
    {
      r := repository.GetByFilters(f);
    }

    /** `getPaymentsByStatus(status)`: the repository's answer, unchanged. */
    method GetPaymentsByStatus(status: PaymentStatus) returns (r: seq<Payment>)
      ensures forall p :: p in r <==> p in repository.payments && p.status == status
      ensures r == SelectPayments(repository.payments, NoPaymentFilters.(status := Some(status)))
    {
      r := repository.GetByStatus(status);
    }

    /** `getPaymentsByType(type)`: the repository's answer, unchanged. */
    method GetPaymentsByType(t: PaymentType) returns (r: seq<Payment>)
      ensures forall p :: p in r <==> p in repository.payments && p.paymentType == t
      ensures r == SelectPayments(repository.payments, NoPaymentFilters.(paymentType := Some(t)))
    {
      r := repository.GetByType(t);
    }

    /** `getPaymentFile(id)`: throws when the payment does not exist; otherwise the repository's
        answer, which is null when the payment has no receipt. */
    method GetPaymentFile(pagoId: int) returns (r: Result<Option<string>, Error>)
      ensures IndexOfId(repository.payments, pagoId) == -1 <==> r == Failure(PaymentNotFound(pagoId))
      ensures r.Success? ==>
                var p := repository.payments[IndexOfId(repository.payments, pagoId)];
                r.value == (if Truthy(p.file) then p.file else None)
    {
      var payment := repository.GetById(pagoId);
      if payment.None? {
        return Failure(PaymentNotFound(pagoId));
      }
      var file := repository.GetPaymentFile(pagoId);
      r := Success(file);
    }

    /** `createPayment(dto)`: an empty student code throws before the repository is touched; a
        missing student snapshot only warns; otherwise the repository creates the payment and
        its result is returned unchanged. */
    method CreatePayment(dto: CreatePaymentDto) returns (r: Result<Payment, Error>)
      requires Valid()
      modifies repository
      ensures Valid()
      ensures dto.estudianteId == "" ==>
                r == Failure(StudentIdRequired) &&
                repository.payments == old(repository.payments) && repository.nextId == old(repository.nextId)
      ensures dto.estudianteId != "" ==>
                r == Success(NewPayment(old(repository.nextId), dto)) &&
                repository.payments == old(repository.payments) + [r.value] &&
                repository.nextId == old(repository.nextId) + 1
    {
      if dto.estudianteId == "" {
        return Failure(StudentIdRequired);
      }
      // a payload without `estudiante` only logs a warning
      var created := repository.Create(dto);
      r := Success(created);
    }

    /** `updatePaymentStatus(id, dto)`: an unknown id throws not-found and the store is left as
        it was; an existing payment gets the new status, whatever its current one. */
    method UpdatePaymentStatus(pagoId: int, dto: UpdatePaymentStatusDto) returns (r: Result<Payment, Error>)
      requires Valid()
      modifies repository
      ensures Valid() && repository.nextId == old(repository.nextId)
      ensures IndexOfId(old(repository.payments), pagoId) == -1 ==>
                r == Failure(PaymentNotFound(pagoId)) && repository.payments == old(repository.payments)
      ensures IndexOfId(old(repository.payments), pagoId) != -1 ==>
                var k := IndexOfId(old(repository.payments), pagoId);
                r == Success(old(repository.payments)[k].(status := dto.status)) &&
                repository.payments == old(repository.payments)[k := r.value]
    {
      var existing := repository.GetById(pagoId);
      if existing.None? {
        return Failure(PaymentNotFound(pagoId));
      }
      r := repository.UpdateStatus(pagoId, dto);
    }
  }
}
