/**
 * `MockPaymentRepository`: the in-memory payment store. It starts from a copy of the payment
 * fixture, hands out ids from an auto-increment counter, answers filter queries that keep the
 * store order, and replaces the status of one payment in place.
 */
module MockPaymentApi {
  import opened Wrappers
  import opened Domain
  import opened Seqs
  import MockData

  function ById(id: int): Payment -> bool {
    (p: Payment) => p.id == id
  }

  /** `payments.findIndex(p => p.id === id)`. */
  function IndexOfId(ps: seq<Payment>, id: int): int {
    FirstIndex(ps, ById(id))
  }

  /** The store invariant: ids are pairwise distinct and all below the next id to hand out. */
  ghost predicate IdInvariant(ps: seq<Payment>, nextId: int) {
    (forall i, j :: 0 <= i < j < |ps| ==> ps[i].id != ps[j].id) &&
    (forall i :: 0 <= i < |ps| ==> ps[i].id < nextId)
  }

  // The five conditions of getByFilters; an absent (or empty) text field imposes nothing.
  predicate CodeOk(f: PaymentFilters, p: Payment) {
    Truthy(f.estudiante_codigo) ==> p.estudiante.codigo == f.estudiante_codigo.value
  }
  predicate StartOk(f: PaymentFilters, p: Payment) {
    Truthy(f.fechaInicio) ==> DateAtOrAfter(p.fecha, f.fechaInicio.value)
  }
  predicate EndOk(f: PaymentFilters, p: Payment) {
    Truthy(f.fechaFin) ==> DateAtOrBefore(p.fecha, f.fechaFin.value)
  }
  predicate StatusOk(f: PaymentFilters, p: Payment) {
    f.status.Some? ==> p.status == f.status.value
  }
  predicate TypeOk(f: PaymentFilters, p: Payment) {
    f.paymentType.Some? ==> p.paymentType == f.paymentType.value
  }

  /** A payment passes the filters when it satisfies every present condition. */
  predicate MatchesFilters(f: PaymentFilters, p: Payment) {
    CodeOk(f, p) && StartOk(f, p) && EndOk(f, p) && StatusOk(f, p) && TypeOk(f, p)
  }

  function Matching(f: PaymentFilters): Payment -> bool {
    (p: Payment) => MatchesFilters(f, p)
  }

  /** What `getByFilters(f)` answers on a store `ps`. */
  function SelectPayments(ps: seq<Payment>, f: PaymentFilters): seq<Payment> {
    Filter(ps, Matching(f))
  }

  /** `getByFilters` answers, in store order, exactly the stored payments that satisfy every
      present filter field: an exact, case-sensitive snapshot code, a date range inclusive at
      both ends, and equal status and type. */
  lemma SelectPaymentsExact(ps: seq<Payment>, f: PaymentFilters, p: Payment)
    ensures p in SelectPayments(ps, f) <==>
      p in ps &&
      (Truthy(f.estudiante_codigo) ==> p.estudiante.codigo == f.estudiante_codigo.value) &&
      (Truthy(f.fechaInicio) ==> DateKey(p.fecha).Some? && DateKey(f.fechaInicio.value).Some? &&
                                 DateKey(p.fecha).value >= DateKey(f.fechaInicio.value).value) &&
      (Truthy(f.fechaFin) ==> DateKey(p.fecha).Some? && DateKey(f.fechaFin.value).Some? &&
                              DateKey(p.fecha).value <= DateKey(f.fechaFin.value).value) &&
      (f.status.Some? ==> p.status == f.status.value) &&
      (f.paymentType.Some? ==> p.paymentType == f.paymentType.value)
    ensures IsSubsequence(SelectPayments(ps, f), ps)
  {
    FilterMembership(ps, Matching(f), p);
    FilterIsSubsequence(ps, Matching(f));
  }

  /** Filters with no field, or only empty text fields, return the whole store unchanged. */
  lemma NoFiltersSelectAll(ps: seq<Payment>, f: PaymentFilters)
    requires !Truthy(f.estudiante_codigo) && !Truthy(f.fechaInicio) && !Truthy(f.fechaFin)
    requires f.status.None? && f.paymentType.None?
    ensures SelectPayments(ps, f) == ps
  {
    FilterKeepsAll(ps, Matching(f));
  }

  /** A date bound that `new Date` cannot read (`NaN`) lets no payment through. */
  lemma UnreadableDateBoundSelectsNothing(ps: seq<Payment>, f: PaymentFilters)
    requires (Truthy(f.fechaInicio) && DateKey(f.fechaInicio.value).None?) ||
             (Truthy(f.fechaFin) && DateKey(f.fechaFin.value).None?)
    ensures SelectPayments(ps, f) == []
  {
    FilterKeepsNone(ps, Matching(f));
  }

  /** On the fixtures the code filter compares codes exactly, case included: "EST-001" finds
      payments 1 and 4, "est-001" finds nothing. */
  lemma FixtureCodeFilterIsCaseSensitive()
    ensures SelectPayments(MockData.MOCK_PAYMENTS, NoPaymentFilters.(estudiante_codigo := Some("EST-001"))) ==
              [MockData.MOCK_PAYMENTS[0], MockData.MOCK_PAYMENTS[3]]
    ensures SelectPayments(MockData.MOCK_PAYMENTS, NoPaymentFilters.(estudiante_codigo := Some("est-001"))) == []
  {
    var ps := MockData.MOCK_PAYMENTS;
    var upper := Matching(NoPaymentFilters.(estudiante_codigo := Some("EST-001")));
    assert ps[1..][1..][1..][1..] == [];
    assert Filter(ps[3..], upper) == [ps[3]];
    assert Filter(ps[2..], upper) == [ps[3]];
    assert Filter(ps[1..], upper) == [ps[3]];
    var lower := Matching(NoPaymentFilters.(estudiante_codigo := Some("est-001")));
    forall i | 0 <= i < |ps|
      ensures !lower(ps[i])
    {
      assert ps[i].estudiante.codigo[0] == 'E';
    }
    FilterKeepsNone(ps, lower);
  }

  /** On the fixtures only payment 2 is pending. */
  lemma FixturePendingPayments()
    ensures SelectPayments(MockData.MOCK_PAYMENTS, NoPaymentFilters.(status := Some(PENDIENTE))) ==
              [MockData.MOCK_PAYMENTS[1]]
    ensures MockData.MOCK_PAYMENTS[1].id == 2
  {
    var ps := MockData.MOCK_PAYMENTS;
    var pending := Matching(NoPaymentFilters.(status := Some(PENDIENTE)));
    assert ps[1..][1..][1..][1..] == [];
    assert Filter(ps[3..], pending) == [];
    assert Filter(ps[2..], pending) == [];
    assert Filter(ps[1..], pending) == [ps[1]];
  }

  /** Both date bounds are inclusive: a payment dated exactly on the start or on the end day
      passes those two conditions. */
  lemma DateBoundsInclusive(p: Payment, f: PaymentFilters)
    requires DateKey(p.fecha).Some?
    requires f.fechaInicio == Some(p.fecha) && f.fechaFin == Some(p.fecha)
    ensures StartOk(f, p) && EndOk(f, p)
  {
  }

  /** The snapshot a created payment gets: the student code from the payload and fixed
      placeholders for the other fields. */
  function PlaceholderStudent(codigo: string): Student {
    Student("999", codigo, "Estudiante", "Prueba", "PROG1", None)
  }

  /** The payment `create(dto)` stores under id `id`. */
  function NewPayment(id: int, dto: CreatePaymentDto): Payment {
    Payment(id, dto.fecha, dto.monto, dto.paymentType, dto.status, dto.file, PlaceholderStudent(dto.estudianteId))
  }

  /** The created payment takes every payload field but the student snapshot, whose code is
      `estudianteId`; a snapshot sent in the payload is ignored. */
  lemma NewPaymentFromPayload(id: int, dto: CreatePaymentDto, other: Option<Student>)
    ensures NewPayment(id, dto).id == id
    ensures NewPayment(id, dto).estudiante.codigo == dto.estudianteId
    ensures NewPayment(id, dto) == NewPayment(id, dto.(estudiante := other))
    ensures NewPayment(id, dto).(id := 0, estudiante := PlaceholderStudent("")) ==
            Payment(0, dto.fecha, dto.monto, dto.paymentType, dto.status, dto.file, PlaceholderStudent(""))
  {
  }

  /** The fixture satisfies the store invariant with `nextId` = length + 1. */
  lemma FixtureIdInvariant()
    ensures IdInvariant(MockData.MOCK_PAYMENTS, |MockData.MOCK_PAYMENTS| + 1)
  {
    MockData.FixturePaymentFacts();
  }

  /** Appending a payment under the next id, and then counting on, keeps the invariant. */
  lemma AppendKeepsIdInvariant(ps: seq<Payment>, nextId: int, p: Payment)
    requires IdInvariant(ps, nextId) && p.id == nextId
    ensures IdInvariant(ps + [p], nextId + 1)
  {
  }

  /** Replacing the status of the payment at `k` keeps every id, hence the invariant. */
  lemma StatusChangeKeepsIdInvariant(ps: seq<Payment>, nextId: int, k: nat, s: PaymentStatus)
    requires IdInvariant(ps, nextId) && k < |ps|
    ensures IdInvariant(ps[k := ps[k].(status := s)], nextId)
  {
  }

  /** With distinct ids, looking up the id of any stored payment finds that very payment. */
  lemma {:induction false} LookupOfStoredId(ps: seq<Payment>, nextId: int, k: nat)
    requires IdInvariant(ps, nextId) && k < |ps|
    ensures IndexOfId(ps, ps[k].id) == k
  {
  }

  /** A payment created under `nextId` is not found before the append: every stored id is smaller. */
  lemma NextIdIsFresh(ps: seq<Payment>, nextId: int)
    requires IdInvariant(ps, nextId)
    ensures IndexOfId(ps, nextId) == -1
  {
  }

  class MockPaymentRepository {
    var payments: seq<Payment>
    var nextId: int

    ghost predicate Valid()
      reads this
    {
      IdInvariant(payments, nextId)
    }

    /** The store starts as a copy of the fixture and counts on from its length + 1. */
    constructor ()
      ensures Valid()
      ensures payments == MockData.MOCK_PAYMENTS && nextId == 5
    {
      payments := MockData.MOCK_PAYMENTS;
      nextId := |MockData.MOCK_PAYMENTS| + 1;
      FixtureIdInvariant();
    }

    /** `getAll()`: a copy of the whole store. */
    method GetAll() returns (r: seq<Payment>)
      ensures r == payments
    {
      r := payments;
    }

    /** `getById(id)`: the first payment with that id, or null. */
    method GetById(id: int) returns (r: Option<Payment>)
      ensures r.Some? <==> exists i :: 0 <= i < |payments| && payments[i].id == id
      ensures r.Some? ==> r.value == payments[IndexOfId(payments, id)] && r.value.id == id
    {
      var k := IndexOfId(payments, id);
      r := if k == -1 then None else Some(payments[k]);
    }

    /** `getByFilters(f)`: narrows a copy of the store by each present field in turn. */
    method GetByFilters(f: PaymentFilters) returns (r: seq<Payment>)
      ensures r == SelectPayments(payments, f)
      ensures forall p :: p in r <==> p in payments && MatchesFilters(f, p)
    {
      var s1 := (p: Payment) => CodeOk(f, p);
      var s2 := (p: Payment) => CodeOk(f, p) && StartOk(f, p);
      var s3 := (p: Payment) => CodeOk(f, p) && StartOk(f, p) && EndOk(f, p);
      var s4 := (p: Payment) => CodeOk(f, p) && StartOk(f, p) && EndOk(f, p) && StatusOk(f, p);

      r := payments;
      if Truthy(f.estudiante_codigo) {
        var codigo := f.estudiante_codigo.value;
        r := Filter(r, (p: Payment) => p.estudiante.codigo == codigo);
        FilterCongruent(payments, (p: Payment) => p.estudiante.codigo == codigo, s1);
      } else {
        FilterKeepsAll(payments, s1);
      }
      assert r == Filter(payments, s1);

      if Truthy(f.fechaInicio) {
        var inicio := f.fechaInicio.value;
        var q := (p: Payment) => DateAtOrAfter(p.fecha, inicio);
        r := Filter(r, q);
        FilterCompose(payments, s1, q, s2);
      } else {
        FilterCongruent(payments, s1, s2);
      }
      assert r == Filter(payments, s2);

      if Truthy(f.fechaFin) {
        var fin := f.fechaFin.value;
        var q := (p: Payment) => DateAtOrBefore(p.fecha, fin);
        r := Filter(r, q);
        FilterCompose(payments, s2, q, s3);
      } else {
        FilterCongruent(payments, s2, s3);
      }
      assert r == Filter(payments, s3);

      if f.status.Some? {
        var status := f.status.value;
        var q := (p: Payment) => p.status == status;
        r := Filter(r, q);
        FilterCompose(payments, s3, q, s4);
      } else {
        FilterCongruent(payments, s3, s4);
      }
      assert r == Filter(payments, s4);

      if f.paymentType.Some? {
        var t := f.paymentType.value;
        var q := (p: Payment) => p.paymentType == t;
        r := Filter(r, q);
        FilterCompose(payments, s4, q, Matching(f));
      } else {
        FilterCongruent(payments, s4, Matching(f));
      }
      forall p ensures p in r <==> p in payments && MatchesFilters(f, p) {
        SelectPaymentsExact(payments, f, p);
      }
    }

    /** `getByStatus(status)`: the stored payments with that status, in store order. */
    method GetByStatus(status: PaymentStatus) returns (r: seq<Payment>)
      ensures r == SelectPayments(payments, NoPaymentFilters.(status := Some(status)))
      ensures forall p :: p in r <==> p in payments && p.status == status
    {
      var q := (p: Payment) => p.status == status;
      r := Filter(payments, q);
      FilterCongruent(payments, q, Matching(NoPaymentFilters.(status := Some(status))));
      forall p ensures p in r <==> p in payments && p.status == status {
        FilterMembership(payments, q, p);
      }
    }

    /** `getByType(type)`: the stored payments of that type, in store order. */
    method GetByType(t: PaymentType) returns (r: seq<Payment>)
      ensures r == SelectPayments(payments, NoPaymentFilters.(paymentType := Some(t)))
      ensures forall p :: p in r <==> p in payments && p.paymentType == t
    {
      var q := (p: Payment) => p.paymentType == t;
      r := Filter(payments, q);
      FilterCongruent(payments, q, Matching(NoPaymentFilters.(paymentType := Some(t))));
      forall p ensures p in r <==> p in payments && p.paymentType == t {
        FilterMembership(payments, q, p);
      }
    }

    /** `getPaymentFile(id)`: `payment?.file || null`, so null when the payment is missing or
        its file is null or empty. */
    method GetPaymentFile(pagoId: int) returns (r: Option<string>)
      ensures r.Some? <==> exists i :: 0 <= i < |payments| && payments[i].id == pagoId && Truthy(payments[i].file) &&
                                       forall j :: 0 <= j < i ==> payments[j].id != pagoId
      ensures r.Some? ==> r == payments[IndexOfId(payments, pagoId)].file && r.value != ""
    {
      var payment := GetById(pagoId);
      r := if payment.Some? && Truthy(payment.value.file) then payment.value.file else None;
      if r.Some? {
        assert IndexOfId(payments, pagoId) >= 0;
      }
    }

    /** `create(dto)`: appends one payment under the next id and counts on; nothing already
        stored changes. */
    method Create(dto: CreatePaymentDto) returns (r: Payment)
      requires Valid()
      modifies this
      ensures Valid()
      ensures r == NewPayment(old(nextId), dto)
      ensures payments == old(payments) + [r] && nextId == old(nextId) + 1
    {
      r := NewPayment(nextId, dto);
      AppendKeepsIdInvariant(payments, nextId, r);
      nextId := nextId + 1;
      payments := payments + [r];
    }

    /** `updateStatus(id, dto)`: throws on an unknown id and leaves the store as it was;
        otherwise replaces only the status of the first payment with that id. */
    method UpdateStatus(pagoId: int, dto: UpdatePaymentStatusDto) returns (r: Result<Payment, Error>)
      requires Valid()
      modifies this
      ensures Valid() && nextId == old(nextId)
      ensures IndexOfId(old(payments), pagoId) == -1 ==>
                r == Failure(PaymentNotFound(pagoId)) && payments == old(payments)
      ensures IndexOfId(old(payments), pagoId) != -1 ==>
                var k := IndexOfId(old(payments), pagoId);
                r == Success(old(payments)[k].(status := dto.status)) &&
                payments == old(payments)[k := r.value]
    {
      var index := IndexOfId(payments, pagoId);
      if index == -1 {
        return Failure(PaymentNotFound(pagoId));
      }
      var updated := payments[index].(status := dto.status);
      StatusChangeKeepsIdInvariant(payments, nextId, index, dto.status);
      payments := payments[index := updated];
      r := Success(updated);
    }
  }

  /** A status update changes nothing but the status of one entry: the length, every other
      entry, and every other field of that entry stay as they were. */
  lemma StatusUpdateFrame(ps: seq<Payment>, k: nat, s: PaymentStatus)
    requires k < |ps|
    ensures var qs := ps[k := ps[k].(status := s)];
      |qs| == |ps| &&
      (forall j :: 0 <= j < |ps| && j != k ==> qs[j] == ps[j]) &&
      qs[k].status == s &&
      qs[k].(status := ps[k].status) == ps[k]
  {
  }
}
