/** The fixture data of the in-memory repositories and the fixture lookup of a student's payments. */
module MockData {
  import opened Wrappers
  import opened Domain
  import opened Seqs

  const Juan := Student("1", "EST-001", "Juan", "Pérez", "ING1", None)
  const Maria := Student("2", "EST-002", "María", "González", "MED1", None)
  const Carlos := Student("3", "EST-003", "Carlos", "Rodríguez", "ADM1", None)

  /** `MOCK_STUDENTS`. */
  const MOCK_STUDENTS: seq<Student> := [Juan, Maria, Carlos]

  /** `MOCK_PAYMENTS`. */
  const MOCK_PAYMENTS: seq<Payment> := [
    Payment(1, "2025-04-01", 500000.0, TRANSFERENCIA, PAGADO, None, Juan),
    Payment(2, "2025-04-10", 750000.0, EFECTIVO, PENDIENTE, None, Maria),
    Payment(3, "2025-04-15", 350000.0, CHEQUE, RECHAZADO, None, Carlos),
    Payment(4, "2025-04-20", 600000.0, TARJETA, PAGADO, None, Juan)
  ]

  /** The payments whose embedded snapshot carries exactly this student code. */
  function OfStudent(codigo: string): Payment -> bool {
    (p: Payment) => p.estudiante.codigo == codigo
  }

  /** `getStudentPayments(codigo)`: filters the static fixture, never a repository's live copy. */
  function GetStudentPayments(codigo: string): seq<Payment> {
    Filter(MOCK_PAYMENTS, OfStudent(codigo))
  }

  /** The result is, in fixture order, exactly the fixture payments whose snapshot code is
      `codigo` (case-sensitive equality), each as often as in the fixture. */
  lemma StudentPaymentsExact(codigo: string)
    ensures forall p :: p in GetStudentPayments(codigo) <==> p in MOCK_PAYMENTS && p.estudiante.codigo == codigo
    ensures IsSubsequence(GetStudentPayments(codigo), MOCK_PAYMENTS)
  {
    forall p
      ensures p in GetStudentPayments(codigo) <==> p in MOCK_PAYMENTS && p.estudiante.codigo == codigo
    {
      FilterMembership(MOCK_PAYMENTS, OfStudent(codigo), p);
    }
    FilterIsSubsequence(MOCK_PAYMENTS, OfStudent(codigo));
  }

  /** A code that no fixture student has yields the empty list, not an error. */
  lemma UnknownCodeHasNoPayments(codigo: string)
    requires forall s :: s in MOCK_STUDENTS ==> s.codigo != codigo
    ensures GetStudentPayments(codigo) == []
  {
    FixtureSnapshotsMatchStudents();
    StudentPaymentsExact(codigo);
    var r := GetStudentPayments(codigo);
    assert forall i :: 0 <= i < |r| ==> r[i] in r;
  }

  /** Only fixture payments (ids 1 to 4) are ever returned, whatever was created or updated
      in a payment repository since. */
  lemma StudentPaymentsAreFixtures(codigo: string, p: Payment)
    requires p in GetStudentPayments(codigo)
    ensures p in MOCK_PAYMENTS && 1 <= p.id <= 4
  {
    StudentPaymentsExact(codigo);
  }

  /** `getStudentPayments('EST-001')` is exactly the payments with ids 1 and 4. */
  lemma Est001Payments()
    ensures GetStudentPayments("EST-001") == [MOCK_PAYMENTS[0], MOCK_PAYMENTS[3]]
    ensures GetStudentPayments("EST-001")[0].id == 1 && GetStudentPayments("EST-001")[1].id == 4
  {
    var f := OfStudent("EST-001");
    assert MOCK_PAYMENTS[1..][1..][1..][1..] == [];
    assert Filter(MOCK_PAYMENTS[3..], f) == [MOCK_PAYMENTS[3]];
    assert Filter(MOCK_PAYMENTS[2..], f) == [MOCK_PAYMENTS[3]];
    assert Filter(MOCK_PAYMENTS[1..], f) == [MOCK_PAYMENTS[3]];
  }

  /** Fixture payment ids are 1, 2, 3, 4, hence pairwise distinct, and every amount is positive. */
  lemma FixturePaymentFacts()
    ensures |MOCK_PAYMENTS| == 4
    ensures forall i :: 0 <= i < 4 ==> MOCK_PAYMENTS[i].id == i + 1
    ensures forall i, j :: 0 <= i < j < |MOCK_PAYMENTS| ==> MOCK_PAYMENTS[i].id != MOCK_PAYMENTS[j].id
    ensures forall p :: p in MOCK_PAYMENTS ==> p.monto > 0.0
  {
  }

  /** Every fixture snapshot is the fixture student with the same code, and fixture student
      codes are pairwise distinct. */
  lemma FixtureSnapshotsMatchStudents()
    ensures forall p :: p in MOCK_PAYMENTS ==> p.estudiante in MOCK_STUDENTS
    ensures forall p, s :: p in MOCK_PAYMENTS && s in MOCK_STUDENTS && s.codigo == p.estudiante.codigo ==> s == p.estudiante
    ensures forall i, j :: 0 <= i < j < |MOCK_STUDENTS| ==> MOCK_STUDENTS[i].codigo != MOCK_STUDENTS[j].codigo
  {
  }
}
