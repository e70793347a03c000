/**
 * The domain model of the payments application: students, payments with their embedded
 * student snapshot, the two five-valued enumerations, the creation and update payloads,
 * the filter shapes, and the errors the repositories and use cases throw.
 */
module Domain {
  import opened Wrappers

  datatype PaymentType = EFECTIVO | TRANSFERENCIA | CHEQUE | TARJETA | OTRO

  datatype PaymentStatus = CREADO | PENDIENTE | PAGADO | RECHAZADO | CANCELADO

  /** A student record. `foto` is `string | null`. */
  datatype Student = Student(
    id: string,
    codigo: string,
    nombre: string,
    apellido: string,
    programaId: string,
    foto: Option<string>)

  /** A payment. `estudiante` is a value copy of the paying student's record, taken when the
      payment is created and never kept in step with the live record afterwards. */
  datatype Payment = Payment(
    id: int,
    fecha: string,
    monto: real,
    paymentType: PaymentType,
    status: PaymentStatus,
    file: Option<string>,
    estudiante: Student)

  /** The payment payload without `id` and snapshot, plus the student code. The declared type
      has no `estudiante` field, yet the payment form sends one and the use case looks at it,
      so it is carried here as an optional field. */
  datatype CreatePaymentDto = CreatePaymentDto(
    fecha: string,
    monto: real,
    paymentType: PaymentType,
    status: PaymentStatus,
    file: Option<string>,
    estudianteId: string,
    estudiante: Option<Student>)

  datatype UpdatePaymentStatusDto = UpdatePaymentStatusDto(status: PaymentStatus)

  /** A student record without `id`. */
  datatype CreateStudentDto = CreateStudentDto(
    codigo: string,
    nombre: string,
    apellido: string,
    programaId: string,
    foto: Option<string>)

  /** `Partial<CreateStudentDto>`: `None` is an absent property. */
  datatype UpdateStudentDto = UpdateStudentDto(
    codigo: Option<string>,
    nombre: Option<string>,
    apellido: Option<string>,
    programaId: Option<string>,
    foto: Option<Option<string>>)

  /** Student filters; every field is optional. */
  datatype StudentFilters = StudentFilters(
    codigo: Option<string>,
    programaId: Option<string>,
    search: Option<string>)

  /** Payment filters; every field is optional. */
  datatype PaymentFilters = PaymentFilters(
    estudiante_codigo: Option<string>,
    fechaInicio: Option<string>,
    fechaFin: Option<string>,
    status: Option<PaymentStatus>,
    paymentType: Option<PaymentType>)

  /** The JavaScript condition `if (s)` on an optional text field: present and non-empty. */
  predicate Truthy(o: Option<string>) {
    o.Some? && o.value != ""
  }

  const NoStudentFilters := StudentFilters(None, None, None)
  const NoPaymentFilters := PaymentFilters(None, None, None, None, None)

  /** The property names of a payment filter object. */
  datatype PaymentFilterKey = CodigoKey | FechaInicioKey | FechaFinKey | StatusKey | TypeKey

  /** `Object.keys(filters)`: the names of the properties that are present. */
  function PaymentFilterKeys(f: PaymentFilters): set<PaymentFilterKey> {
    (if f.estudiante_codigo.Some? then {CodigoKey} else {}) +
    (if f.fechaInicio.Some? then {FechaInicioKey} else {}) +
    (if f.fechaFin.Some? then {FechaFinKey} else {}) +
    (if f.status.Some? then {StatusKey} else {}) +
    (if f.paymentType.Some? then {TypeKey} else {})
  }

  /** A key is listed exactly when its property is present; no key at all is the empty object. */
  lemma PaymentFilterKeysExact(f: PaymentFilters)
    ensures CodigoKey in PaymentFilterKeys(f) <==> f.estudiante_codigo.Some?
    ensures FechaInicioKey in PaymentFilterKeys(f) <==> f.fechaInicio.Some?
    ensures FechaFinKey in PaymentFilterKeys(f) <==> f.fechaFin.Some?
    ensures StatusKey in PaymentFilterKeys(f) <==> f.status.Some?
    ensures TypeKey in PaymentFilterKeys(f) <==> f.paymentType.Some?
    ensures PaymentFilterKeys(f) == {} <==> f == NoPaymentFilters
  {
    if PaymentFilterKeys(f) == {} {
      assert CodigoKey !in PaymentFilterKeys(f);
    }
  }

  /** The errors thrown by the repositories and the use cases. */
  datatype Error =
    | PaymentNotFound(pagoId: int)        // "Pago con ID … no encontrado"
    | StudentNotFound(codigo: string)     // "Estudiante con código … no encontrado"
    | StudentIdRequired                   // "El ID del estudiante es requerido para crear un pago"

  /** The string value of each enumeration member. */
  function StatusName(s: PaymentStatus): string {
    match s
    case CREADO => "CREADO"
    case PENDIENTE => "PENDIENTE"
    case PAGADO => "PAGADO"
    case RECHAZADO => "RECHAZADO"
    case CANCELADO => "CANCELADO"
  }

  function TypeName(t: PaymentType): string {
    match t
    case EFECTIVO => "EFECTIVO"
    case TRANSFERENCIA => "TRANSFERENCIA"
    case CHEQUE => "CHEQUE"
    case TARJETA => "TARJETA"
    case OTRO => "OTRO"
  }

  predicate IsDigit(c: char) {
    '0' <= c <= '9'
  }

  /** `/^\d{4}-\d{2}-\d{2}$/`: four digits, a dash, two digits, a dash, two digits. */
  predicate IsDateShape(s: string) {
    |s| == 10 &&
    IsDigit(s[0]) && IsDigit(s[1]) && IsDigit(s[2]) && IsDigit(s[3]) && s[4] == '-' &&
    IsDigit(s[5]) && IsDigit(s[6]) && s[7] == '-' && IsDigit(s[8]) && IsDigit(s[9])
  }

  function DigitValue(c: char): int {
    c as int - '0' as int
  }

  /** The time value of `new Date(s)` as a day number `yyyymmdd`, or `None` for an invalid
      date (`NaN`). Only the date-only ISO form with month 01-12 and day 01-31 is read. */
  function DateKey(s: string): (r: Option<int>)
    ensures r.Some? ==> IsDateShape(s)
  {
    if !IsDateShape(s) then None
    else
      var y := DigitValue(s[0]) * 1000 + DigitValue(s[1]) * 100 + DigitValue(s[2]) * 10 + DigitValue(s[3]);
      var m := DigitValue(s[5]) * 10 + DigitValue(s[6]);
      var d := DigitValue(s[8]) * 10 + DigitValue(s[9]);
      if 1 <= m <= 12 && 1 <= d <= 31 then Some(y * 10000 + m * 100 + d) else None
  }

  /** `new Date(a) >= new Date(b)`: false as soon as either side is `NaN`. */
  predicate DateAtOrAfter(a: string, b: string) {
    DateKey(a).Some? && DateKey(b).Some? && DateKey(a).value >= DateKey(b).value
  }

  /** `new Date(a) <= new Date(b)`. */
  predicate DateAtOrBefore(a: string, b: string) {
    DateKey(a).Some? && DateKey(b).Some? && DateKey(a).value <= DateKey(b).value
  }
}
