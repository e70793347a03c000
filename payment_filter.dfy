/**
 * The payment filter bar: five inputs, and the filter object it emits when applied or
 * cleared. Only inputs with a value become properties; the student code is trimmed.
 */
module PaymentFilterComponent {
  import opened Wrappers
  import opened Domain
  import opened Text
  import opened Seqs
  import opened MockPaymentApi

  /** An input's value as an optional property: present only when non-empty. */
  function Present(value: string): Option<string> {
    if value == "" then None else Some(value)
  }

  /** The object `applyFilters` emits for the given input values. */
  function Emitted(codigo: string, fechaInicio: string, fechaFin: string,
                   status: Option<PaymentStatus>, paymentType: Option<PaymentType>): PaymentFilters
  {
    PaymentFilters(Present(Trim(codigo)), Present(fechaInicio), Present(fechaFin), status, paymentType)
  }

  /** Every text property the bar emits is non-empty, so each one is an active condition in
      the repository; the code carries no surrounding white space. */
  lemma EmittedPropertiesAreActive(codigo: string, fechaInicio: string, fechaFin: string,
                                   status: Option<PaymentStatus>, paymentType: Option<PaymentType>)
    ensures var f := Emitted(codigo, fechaInicio, fechaFin, status, paymentType);
      (f.estudiante_codigo.Some? ==>
         (Truthy(f.estudiante_codigo) && !IsSpace(f.estudiante_codigo.value[0]) &&
          !IsSpace(f.estudiante_codigo.value[|f.estudiante_codigo.value| - 1]))) &&
      (f.fechaInicio.Some? ==> Truthy(f.fechaInicio)) &&
      (f.fechaFin.Some? ==> Truthy(f.fechaFin))
  {
    TrimFacts(codigo);
  }

  /** The emitted object has a property exactly for each input that holds something (a code
      that is not blank). */
  lemma EmittedKeys(codigo: string, fechaInicio: string, fechaFin: string,
                    status: Option<PaymentStatus>, paymentType: Option<PaymentType>)
    ensures var keys := PaymentFilterKeys(Emitted(codigo, fechaInicio, fechaFin, status, paymentType));
      (CodigoKey in keys <==> Trim(codigo) != "") &&
      (FechaInicioKey in keys <==> fechaInicio != "") &&
      (FechaFinKey in keys <==> fechaFin != "") &&
      (StatusKey in keys <==> status.Some?) &&
      (TypeKey in keys <==> paymentType.Some?)
  {
    var f := Emitted(codigo, fechaInicio, fechaFin, status, paymentType);
    PaymentFilterKeysExact(f);
    assert f.estudiante_codigo.Some? <==> Trim(codigo) != "";
  }

  /** Inputs that hold nothing (a blank code counts as nothing) select every payment. */
  lemma BlankInputsSelectAll(ps: seq<Payment>, codigo: string)
    requires Trim(codigo) == ""
    ensures SelectPayments(ps, Emitted(codigo, "", "", None, None)) == ps
  {
    NoFiltersSelectAll(ps, Emitted(codigo, "", "", None, None));
  }

  /** The bar does not check that the start date comes before the end date: an inverted range
      is emitted as typed and then selects no payment at all. */
  lemma InvertedRangeSelectsNothing(ps: seq<Payment>, codigo: string, fechaInicio: string, fechaFin: string,
                                    status: Option<PaymentStatus>, paymentType: Option<PaymentType>)
    requires DateKey(fechaInicio).Some? && DateKey(fechaFin).Some?
    requires DateKey(fechaInicio).value > DateKey(fechaFin).value
    ensures var f := Emitted(codigo, fechaInicio, fechaFin, status, paymentType);
      f.fechaInicio == Some(fechaInicio) && f.fechaFin == Some(fechaFin) && SelectPayments(ps, f) == []
  {
    var f := Emitted(codigo, fechaInicio, fechaFin, status, paymentType);
    assert |fechaInicio| == 10 && |fechaFin| == 10;
    forall i | 0 <= i < |ps|
      ensures !Matching(f)(ps[i])
    {
      assert !(StartOk(f, ps[i]) && EndOk(f, ps[i]));
    }
    FilterKeepsNone(ps, Matching(f));
  }

  class PaymentFilter {
    var estudianteCodigo: string
    var fechaInicio: string
    var fechaFin: string
    var status: Option<PaymentStatus>
    var paymentType: Option<PaymentType>

    constructor ()
      ensures estudianteCodigo == "" && fechaInicio == "" && fechaFin == ""
      ensures status == None && paymentType == None
    {
      estudianteCodigo := "";
      fechaInicio := "";
      fechaFin := "";
      status := None;
      paymentType := None;
    }

    method HandleEstudianteCodigoChange(value: string)
      modifies this`estudianteCodigo
      ensures estudianteCodigo == value
    {
      estudianteCodigo := value;
    }

    method HandleFechaInicioChange(value: string)
      modifies this`fechaInicio
      ensures fechaInicio == value
    {
      fechaInicio := value;
    }

    method HandleFechaFinChange(value: string)
      modifies this`fechaFin
      ensures fechaFin == value
    {
      fechaFin := value;
    }

    /** The status selector; its empty option is `None`. */
    method HandleStatusChange(value: Option<PaymentStatus>)
      modifies this`status
      ensures status == value
    {
      status := value;
    }

    /** The type selector; its empty option is `None`. */
    method HandleTypeChange(value: Option<PaymentType>)
      modifies this`paymentType
      ensures paymentType == value
    {
      paymentType := value;
    }

    /** `applyFilters()`: the emitted object. Each property is present exactly when its input
        holds something; the code is sent trimmed, the others as they are. */
    method ApplyFilters() returns (f: PaymentFilters)
      ensures f == Emitted(estudianteCodigo, fechaInicio, fechaFin, status, paymentType)
      ensures f.estudiante_codigo.Some? <==> Trim(estudianteCodigo) != ""
      ensures f.estudiante_codigo.Some? ==> f.estudiante_codigo.value == Trim(estudianteCodigo)
      ensures f.fechaInicio.Some? <==> fechaInicio != ""
      ensures f.fechaInicio.Some? ==> f.fechaInicio.value == fechaInicio
      ensures f.fechaFin.Some? <==> fechaFin != ""
      ensures f.fechaFin.Some? ==> f.fechaFin.value == fechaFin
      ensures f.status == status && f.paymentType == paymentType
    {
      var codigo := Trim(estudianteCodigo);
      f := NoPaymentFilters;
      if codigo != "" {
        f := f.(estudiante_codigo := Some(codigo));
      }
      if fechaInicio != "" {
        f := f.(fechaInicio := Some(fechaInicio));
      }
      if fechaFin != "" {
        f := f.(fechaFin := Some(fechaFin));
      }
      if status.Some? {
        f := f.(status := status);
      }
      if paymentType.Some? {
        f := f.(paymentType := paymentType);
      }
    }

    /** `clearFilters()`: empties every input and emits the empty object, the same object that
        applying the emptied inputs would emit. */
    method ClearFilters() returns (f: PaymentFilters)
      modifies this
      ensures estudianteCodigo == "" && fechaInicio == "" && fechaFin == ""
      ensures status == None && paymentType == None
      ensures f == NoPaymentFilters && PaymentFilterKeys(f) == {}
      ensures f == Emitted(estudianteCodigo, fechaInicio, fechaFin, status, paymentType)
    {
      estudianteCodigo := "";
      fechaInicio := "";
      fechaFin := "";
      status := None;
      paymentType := None;
      f := NoPaymentFilters;
      assert Trim("") == "";
    }
  }
}
