/**
 * The payment form: the input sanitiser, the per-field validation rules that fill the
 * `errors` map, the whole-form check, the student search guard, and the selection of a
 * student. Submitting the form is not part of this model.
 */
module PaymentFormComponent {
  import opened Wrappers
  import opened Domain
  import opened Seqs
  import opened Text
  import opened MockStudentApi
  import StudentUseCases
  import PaymentsPageView
  import MockPaymentApi

  /** The characters `sanitizeInput` removes: `; ' " \ < >`. */
  predicate IsStripped(c: char) {
    c == ';' || c == '\'' || c == '"' || c == '\\' || c == '<' || c == '>'
  }

  function Kept(): char -> bool {
    (c: char) => !IsStripped(c)
  }

  /** `value.replace(/[;'"\\<>]/g, '')`. */
  function SanitizeInput(value: string): string {
    Filter(value, Kept())
  }

  /** The sanitiser removes every stripped character and keeps every other one, as often as
      it occurs and in its original order. */
  lemma SanitizeInputExact(value: string)
    ensures forall i :: 0 <= i < |SanitizeInput(value)| ==> !IsStripped(SanitizeInput(value)[i])
    ensures forall c :: multiset(SanitizeInput(value))[c] == if IsStripped(c) then 0 else multiset(value)[c]
    ensures IsSubsequence(SanitizeInput(value), value)
  {
    FilterAllSatisfy(value, Kept());
    forall c ensures multiset(SanitizeInput(value))[c] == if IsStripped(c) then 0 else multiset(value)[c] {
      FilterMultiplicity(value, Kept(), c);
    }
    FilterIsSubsequence(value, Kept());
  }

  /** Sanitising twice is sanitising once; text with nothing to strip is left as it is. */
  lemma SanitizeInputIdempotent(value: string)
    ensures SanitizeInput(SanitizeInput(value)) == SanitizeInput(value)
    ensures (forall i :: 0 <= i < |value| ==> !IsStripped(value[i])) ==> SanitizeInput(value) == value
  {
    FilterAllSatisfy(value, Kept());
    FilterKeepsAll(SanitizeInput(value), Kept());
    if forall i :: 0 <= i < |value| ==> !IsStripped(value[i]) {
      FilterKeepsAll(value, Kept());
    }
  }

  // ---------------------------------------------------------------- `Number(value)`

  /** The value of a string of decimal digits. */
  function DigitsValue(s: string): nat
    requires forall i :: 0 <= i < |s| ==> IsDigit(s[i])
  {
    if s == [] then 0
    else
      assert IsDigit(s[|s| - 1]);
      DigitsValue(s[..|s| - 1]) * 10 + DigitValue(s[|s| - 1]) as nat
  }

  function Pow10(n: nat): (r: nat)
    ensures r >= 1
  {
    if n == 0 then 1 else 10 * Pow10(n - 1)
  }

  /** The number of leading decimal digits. */
  function LeadingDigits(s: string): (n: nat)
    ensures n <= |s|
    ensures forall i :: 0 <= i < n ==> IsDigit(s[i])
    ensures n < |s| ==> !IsDigit(s[n])
  {
    if s != [] && IsDigit(s[0]) then 1 + LeadingDigits(s[1..]) else 0
  }

  /** An unsigned decimal: digits, optionally a dot and more digits, at least one digit. */
  function UnsignedValue(s: string): Option<real> {
    var n := LeadingDigits(s);
    var whole := DigitsValue(s[..n]) as real;
    if n == |s| then (if n > 0 then Some(whole) else None)
    else if s[n] != '.' then None
    else
      var frac := s[n + 1..];
      if LeadingDigits(frac) == |frac| && (n > 0 || |frac| > 0)
      then Some(whole + DigitsValue(frac) as real / Pow10(|frac|) as real)
      else None
  }

  /** `Number(value)` on decimal text: surrounding white space is ignored, blank text is 0, an
      optional sign may lead; `None` stands for `NaN`. */
  function NumberValue(value: string): Option<real> {
    var t := Trim(value);
    if t == "" then Some(0.0)
    else if t[0] == '-' then
      match UnsignedValue(t[1..])
      case Some(v) => Some(-v)
      case None => None
    else if t[0] == '+' then UnsignedValue(t[1..])
    else UnsignedValue(t)
  }

  // ---------------------------------------------------------------- field rules

  const MontoRequired := "El monto es requerido"
  const MontoInvalid := "Ingrese un monto válido mayor a 0"
  const FechaRequired := "La fecha es requerida"
  const FechaFormat := "Formato de fecha inválido (YYYY-MM-DD)"
  const StudentRequired := "Debe seleccionar un estudiante"

  /** The `monto` rule: required, then a number greater than 0. `None` clears the error. */
  function MontoError(value: string): Option<string> {
    if value == "" then Some(MontoRequired)
    else if NumberValue(value).None? || NumberValue(value).value <= 0.0 then Some(MontoInvalid)
    else None
  }

  /** The `fecha` rule: required, then the `DDDD-DD-DD` shape; month and day are not checked. */
  function FechaError(value: string): Option<string> {
    if value == "" then Some(FechaRequired)
    else if !IsDateShape(value) then Some(FechaFormat)
    else None
  }

  /** The `estudianteId` rule: an error only when the value is empty and no student is selected. */
  function EstudianteError(value: string, hasSelection: bool): Option<string> {
    if value == "" && !hasSelection then Some(StudentRequired) else None
  }

  /** Sets the entry for `name` to the message, or deletes it. */
  function ApplyRule(errors: map<string, string>, name: string, e: Option<string>): map<string, string> {
    match e
    case Some(message) => errors[name := message]
    case None => errors - {name}
  }

  /** The `errors` map after `validateField(name, value)`. */
  function ValidatedErrors(errors: map<string, string>, name: string, value: string, hasSelection: bool): map<string, string> {
    if name == "monto" then ApplyRule(errors, name, MontoError(value))
    else if name == "fecha" then ApplyRule(errors, name, FechaError(value))
    else if name == "estudianteId" then ApplyRule(errors, name, EstudianteError(value, hasSelection))
    else errors
  }

  /** The rule that `validateField` applies to `name`; `None` for names it ignores. */
  function RuleFor(name: string, value: string, hasSelection: bool): Option<string> {
    if name == "monto" then MontoError(value)
    else if name == "fecha" then FechaError(value)
    else if name == "estudianteId" then EstudianteError(value, hasSelection)
    else None
  }

  const RuledFields: set<string> := {"monto", "fecha", "estudianteId"}

  /** `validateField` changes only the entry of its own field: it holds the rule's message when
      the rule fails and is absent when it passes; every other entry, and the whole map for any
      other field name, is left as it was. */
  lemma ValidatedErrorsFrame(errors: map<string, string>, name: string, value: string, hasSelection: bool)
    ensures var r := ValidatedErrors(errors, name, value, hasSelection);
      (forall k :: k != name ==> (k in r <==> k in errors) && (k in errors ==> r[k] == errors[k])) &&
      (name !in RuledFields ==> r == errors) &&
      (name in RuledFields ==> (name in r <==> RuleFor(name, value, hasSelection).Some?)) &&
      (name in r && name in RuledFields ==> r[name] == RuleFor(name, value, hasSelection).value)
  {
  }

  /** Every prefix of an all-digit string is all digits, so `LeadingDigits` reads it whole. */
  lemma {:induction false} LeadingDigitsOfDigits(s: string)
    requires forall i :: 0 <= i < |s| ==> IsDigit(s[i])
    ensures LeadingDigits(s) == |s|
  {
    if s != [] {
      LeadingDigitsOfDigits(s[1..]);
    }
  }

  /** Reading back the numeral of `n` gives `n`. */
  lemma {:induction false} DigitsValueOfNumeral(n: nat)
    ensures DigitsValue(DecimalString(n)) == n
  {
    var s := DecimalString(n);
    if n >= 10 {
      assert s[..|s| - 1] == DecimalString(n / 10);
      DigitsValueOfNumeral(n / 10);
    } else {
      assert s[..0] == [];
    }
  }

  /** The unsigned reading of a numeral is its value. */
  lemma UnsignedValueOfNumeral(n: nat)
    ensures UnsignedValue(DecimalString(n)) == Some(n as real)
  {
    var s := DecimalString(n);
    LeadingDigitsOfDigits(s);
    DigitsValueOfNumeral(n);
    assert s[..|s|] == s;
  }

  /** `Number(String(n))` is `n` for every natural number: a numeral has no white space to
      strip and no sign. */
  lemma NumberValueOfNumeral(n: nat)
    ensures NumberValue(DecimalString(n)) == Some(n as real)
  {
    var s := DecimalString(n);
    UnsignedValueOfNumeral(n);
    TrimNoOp(s);
  }

  /** A minus sign before digits negates their unsigned reading. */
  lemma NumberValueOfNegatedDigits(s: string, v: real)
    requires s != [] && IsDigit(s[|s| - 1]) && UnsignedValue(s) == Some(v)
    ensures NumberValue("-" + s) == Some(-v)
  {
    var t := "-" + s;
    assert t[|t| - 1] == s[|s| - 1];
    TrimNoOp(t);
    assert t[1..] == s;
  }

  /** `Number("-" + String(n))` is `-n`. */
  lemma NumberValueOfNegatedNumeral(n: nat)
    ensures NumberValue("-" + DecimalString(n)) == Some(-(n as real))
  {
    UnsignedValueOfNumeral(n);
    NumberValueOfNegatedDigits(DecimalString(n), n as real);
  }

  /** A whole-number amount passes the `monto` rule exactly when it is greater than 0; a
      negated one never passes. */
  lemma MontoAcceptsPositiveNumerals(n: nat)
    ensures MontoError(DecimalString(n)).None? <==> n > 0
    ensures MontoError(DecimalString(n)) == Some(MontoInvalid) <==> n == 0
    ensures MontoError("-" + DecimalString(n)) == Some(MontoInvalid)
  {
    NumberValueOfNumeral(n);
    NumberValueOfNegatedNumeral(n);
  }

  /** "150.50" is a valid amount. */
  lemma MontoAcceptsDecimal()
    ensures MontoError("150.50").None?
  {
    assert UnsignedValue("150.50") == Some(150.5) by {
      assert LeadingDigits("150.50") == 3;
      assert "150.50"[..3] == "150" && "150.50"[4..] == "50";
      assert DigitsValue("150") == 150 by {
        assert "150"[..2] == "15" && "15"[..1] == "1" && "1"[..0] == "";
      }
      assert DigitsValue("50") == 50 by {
        assert "50"[..1] == "5" && "5"[..0] == "";
      }
    }
    TrimNoOp("150.50");
  }

  /** "abc" is not a number. */
  lemma MontoRejectsText()
    ensures MontoError("abc") == Some(MontoInvalid)
  {
    assert NumberValue("abc") == None by { TrimNoOp("abc"); }
  }

  /** "0" and "-5" are numbers but not greater than 0. */
  lemma MontoRejectsNonPositive()
    ensures MontoError("0") == Some(MontoInvalid)
    ensures MontoError("-5") == Some(MontoInvalid)
  {
    assert MontoError("0") == Some(MontoInvalid) by {
      assert DecimalString(0) == "0";
      MontoAcceptsPositiveNumerals(0);
    }
    assert MontoError("-5") == Some(MontoInvalid) by {
      assert DecimalString(5) == "5";
      assert "-" + DecimalString(5) == "-5";
      MontoAcceptsPositiveNumerals(5);
    }
  }

  /** Blank text is `Number(" ") == 0`, hence invalid rather than required. */
  lemma MontoRejectsBlank()
    ensures MontoError(" ") == Some(MontoInvalid)
  {
    assert NumberValue(" ") == Some(0.0) by { assert Trim(" ") == ""; }
  }

  /** Every date the payment filter can read passes the `fecha` rule, but not conversely: the
      rule checks only the shape, so "2025-13-45" passes although it names no calendar date. */
  lemma FechaAcceptsReadableDates(value: string)
    ensures DateKey(value).Some? ==> FechaError(value).None?
    ensures FechaError("2025-13-45").None? && DateKey("2025-13-45").None?
  {
  }

  /** A payment whose date passed the form but is not a calendar date is dropped by every
      payment filter that has a date bound. */
  lemma AcceptedUnreadableDateMissesRanges(ps: seq<Payment>, f: PaymentFilters, p: Payment)
    requires FechaError(p.fecha).None? && DateKey(p.fecha).None?
    requires Truthy(f.fechaInicio) || Truthy(f.fechaFin)
    ensures p !in MockPaymentApi.SelectPayments(ps, f)
  {
    MockPaymentApi.SelectPaymentsExact(ps, f, p);
  }

  /** The `errors` map after `validateForm` checked `monto`, `fecha` and `estudianteId`. */
  function FormErrors(errors: map<string, string>, data: PaymentFormData, hasSelection: bool): map<string, string> {
    var e1 := ValidatedErrors(errors, "monto", data.monto, hasSelection);
    var e2 := ValidatedErrors(e1, "fecha", data.fecha, hasSelection);
    ValidatedErrors(e2, "estudianteId", data.estudianteId, hasSelection)
  }

  /** When the errors map holds only entries of the three checked fields (as it always does),
      `validateForm` succeeds exactly when all three rules pass, whatever errors were there
      before. */
  lemma {:induction false} FormErrorsEmptyIff(errors: map<string, string>, data: PaymentFormData, hasSelection: bool)
    requires errors.Keys <= RuledFields
    ensures FormErrors(errors, data, hasSelection) == map[] <==>
              MontoError(data.monto).None? && FechaError(data.fecha).None? &&
              EstudianteError(data.estudianteId, hasSelection).None?
    ensures FormErrors(errors, data, hasSelection).Keys <= RuledFields
  {
    var r := FormErrors(errors, data, hasSelection);
    ValidatedErrorsFrame(errors, "monto", data.monto, hasSelection);
    var e1 := ValidatedErrors(errors, "monto", data.monto, hasSelection);
    ValidatedErrorsFrame(e1, "fecha", data.fecha, hasSelection);
    var e2 := ValidatedErrors(e1, "fecha", data.fecha, hasSelection);
    ValidatedErrorsFrame(e2, "estudianteId", data.estudianteId, hasSelection);
    if MontoError(data.monto).None? && FechaError(data.fecha).None? &&
       EstudianteError(data.estudianteId, hasSelection).None? {
      assert r.Keys == {};
    }
  }

  /** The form's fields, as the inputs hold them. */
  datatype PaymentFormData = PaymentFormData(
    fecha: string,
    monto: string,
    paymentType: string,
    estudianteId: string,
    status: string,
    file: string)

  /** `getInitialFormData()`: today's date (a parameter here), an empty amount, cash, no
      student, pending, no receipt. */
  function InitialFormData(today: string): PaymentFormData {
    PaymentFormData(today, "", TypeName(EFECTIVO), "", StatusName(PENDIENTE), "")
  }

  /** `formatPaymentType`: the option text of the type selector. */
  function FormatPaymentType(t: PaymentType): string {
    match t
    case EFECTIVO => "Efectivo"
    case TRANSFERENCIA => "Transferencia"
    case CHEQUE => "Cheque"
    case TARJETA => "Tarjeta"
    case OTRO => "Otro"
  }

  /** The selector's option texts are the labels the payment list shows, so each names its
      type unambiguously. */
  lemma FormatPaymentTypeMatchesList(t: PaymentType)
    ensures FormatPaymentType(t) == PaymentsPageView.TypeLabel(t)
    ensures PaymentsPageView.TypeFromLabel(FormatPaymentType(t)) == Some(t)
  {
    PaymentsPageView.TypeLabelRoundTrip(t);
  }

  /** The inputs wired to `handleInputChange`. */
  const InputFields: set<string> := {"fecha", "monto", "type", "status", "file"}

  /** `{ ...formData, [name]: value }` for one of the form's inputs. */
  function SetInput(data: PaymentFormData, name: string, value: string): PaymentFormData
    requires name in InputFields
  {
    if name == "fecha" then data.(fecha := value)
    else if name == "monto" then data.(monto := value)
    else if name == "type" then data.(paymentType := value)
    else if name == "status" then data.(status := value)
    else data.(file := value)
  }

  /** The search loader: a blank term answers `[]` without a query; otherwise it asks for the
      students matching `{ search: term }`. */
  function SearchQuery(term: string): Option<StudentFilters> {
    if Trim(term) == "" then None else Some(NoStudentFilters.(search := Some(term)))
  }

  /** The repository ignores `search`, so a non-blank term lists every student. */
  lemma SearchListsEveryStudent(ss: seq<Student>, term: string)
    requires SearchQuery(term).Some?
    ensures SelectStudents(ss, SearchQuery(term).value) == ss
  {
    SearchOnlySelectsAll(ss, SearchQuery(term).value);
  }

  class PaymentForm {
    var formData: PaymentFormData
    var errors: map<string, string>
    var searchTerm: string
    var selectedStudent: Option<Student>

    /** Only the three checked fields ever get an error entry. */
    ghost predicate Valid()
      reads this
    {
      errors.Keys <= RuledFields
    }

    constructor (today: string)
      ensures Valid()
      ensures formData == InitialFormData(today) && errors == map[]
      ensures searchTerm == "" && selectedStudent == None
    {
      formData := InitialFormData(today);
      errors := map[];
      searchTerm := "";
      selectedStudent := None;
    }

    /** `validateField(name, value)`: rewrites the entry of `name` only. */
    method ValidateField(name: string, value: string)
      requires Valid()
      modifies this`errors
      ensures Valid()
      ensures errors == ValidatedErrors(old(errors), name, value, selectedStudent.Some?)
    {
      var e := errors;
      if name == "monto" {
        if value == "" {
          e := e[name := MontoRequired];
        } else if NumberValue(value).None? || NumberValue(value).value <= 0.0 {
          e := e[name := MontoInvalid];
        } else {
          e := e - {name};
        }
      } else if name == "fecha" {
        if value == "" {
          e := e[name := FechaRequired];
        } else if !IsDateShape(value) {
          e := e[name := FechaFormat];
        } else {
          e := e - {name};
        }
      } else if name == "estudianteId" {
        if value == "" && selectedStudent.None? {
          e := e[name := StudentRequired];
        } else {
          e := e - {name};
        }
      }
      errors := e;
    }

    /** `validateForm()`: validates `monto`, `fecha` and `estudianteId` and reports whether no
        error is left. */
    method ValidateForm() returns (ok: bool)
      requires Valid()
      modifies this`errors
      ensures Valid()
      ensures errors == FormErrors(old(errors), formData, selectedStudent.Some?)
      ensures ok <==> MontoError(formData.monto).None? && FechaError(formData.fecha).None? &&
                      EstudianteError(formData.estudianteId, selectedStudent.Some?).None?
    {
      ValidateField("monto", formData.monto);
      ValidateField("fecha", formData.fecha);
      ValidateField("estudianteId", formData.estudianteId);
      ok := |errors| == 0;
      FormErrorsEmptyIff(old(errors), formData, selectedStudent.Some?);
      assert ok <==> errors == map[] by {
        if |errors| == 0 { assert errors.Keys == {}; }
      }
    }

    /** `handleInputChange`: stores the sanitised value in its field and validates it. */
    method HandleInputChange(name: string, value: string)
      requires Valid() && name in InputFields
      modifies this`formData, this`errors
      ensures Valid()
      ensures formData == SetInput(old(formData), name, SanitizeInput(value))
      ensures errors == ValidatedErrors(old(errors), name, SanitizeInput(value), selectedStudent.Some?)
    {
      var sanitized := SanitizeInput(value);
      formData := SetInput(formData, name, sanitized);
      ValidateField(name, sanitized);
    }

    /** `handleSearchChange`: stores the sanitised term; the search runs only from three
        characters on. */
    method HandleSearchChange(value: string) returns (runsSearch: bool)
      modifies this`searchTerm
      ensures searchTerm == SanitizeInput(value)
      ensures runsSearch <==> |searchTerm| >= 3
    {
      searchTerm := SanitizeInput(value);
      runsSearch := |searchTerm| >= 3;
    }

    /** The search task: `[]` for a blank term, otherwise the use case's answer to
        `{ search: term }`, which is every student since `search` is ignored. */
    method LoadStudents(uc: StudentUseCases.StudentUseCase) returns (r: seq<Student>)
      ensures Trim(searchTerm) == "" ==> r == []
      ensures Trim(searchTerm) != "" ==> r == uc.repository.students
    {
      var query := SearchQuery(searchTerm);
      if query.None? {
        return [];
      }
      r := uc.GetStudentsByFilters(query.value);
      SearchListsEveryStudent(uc.repository.students, searchTerm);
    }

    /** `selectStudent(student)`: selects it, takes its code as `estudianteId`, clears that error
        and empties the search term. */
    method SelectStudent(student: Student)
      requires Valid()
      modifies this`selectedStudent, this`formData, this`errors, this`searchTerm
      ensures Valid()
      ensures selectedStudent == Some(student)
      ensures formData == old(formData).(estudianteId := student.codigo)
      ensures errors == old(errors) - {"estudianteId"}
      ensures searchTerm == ""
    {
      selectedStudent := Some(student);
      formData := formData.(estudianteId := student.codigo);
      ValidateField("estudianteId", student.codigo);
      searchTerm := "";
    }

    /** `clearSelectedStudent()`: drops the selection and empties `estudianteId`. */
    method ClearSelectedStudent()
      modifies this`selectedStudent, this`formData
      ensures selectedStudent == None
      ensures formData == old(formData).(estudianteId := "")
    {
      selectedStudent := None;
      formData := formData.(estudianteId := "");
    }

    /** `cancel()`: back to the initial form, no selection and no errors. */
    method Cancel(today: string)
      modifies this`formData, this`selectedStudent, this`errors
      ensures Valid()
      ensures formData == InitialFormData(today) && selectedStudent == None && errors == map[]
    {
      formData := InitialFormData(today);
      selectedStudent := None;
      errors := map[];
    }
  }
}
