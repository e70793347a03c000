/**
 * The student filter bar: a code input and a programme selector, and the filter object it
 * emits. The general `search` property is never emitted.
 */
module StudentFilterComponent {
  import opened Wrappers
  import opened Domain
  import opened Text
  import opened MockStudentApi

  function Present(value: string): Option<string> {
    if value == "" then None else Some(value)
  }

  /** The object `applyFilters` emits for the given input values. */
  function Emitted(codigo: string, programaId: string): StudentFilters {
    StudentFilters(Present(Trim(codigo)), Present(programaId), None)
  }

  /** Inputs that hold nothing (a blank code counts as nothing) select every student. */
  lemma BlankInputsSelectAll(ss: seq<Student>, codigo: string)
    requires Trim(codigo) == ""
    ensures SelectStudents(ss, Emitted(codigo, "")) == ss
  {
    SearchOnlySelectsAll(ss, Emitted(codigo, ""));
  }

  /** With a code in the bar, a listed student's code contains the trimmed input, ignoring
      case; with a programme chosen, every listed student belongs to it. */
  lemma EmittedSelection(ss: seq<Student>, codigo: string, programaId: string)
    ensures forall s :: s in SelectStudents(ss, Emitted(codigo, programaId)) <==>
      s in ss &&
      (Trim(codigo) != "" ==> Includes(Lower(s.codigo), Lower(Trim(codigo)))) &&
      (programaId != "" ==> s.programaId == programaId)
  {
    var f := Emitted(codigo, programaId);
    forall s
      ensures s in SelectStudents(ss, f) <==>
        s in ss &&
        (Trim(codigo) != "" ==> Includes(Lower(s.codigo), Lower(Trim(codigo)))) &&
        (programaId != "" ==> s.programaId == programaId)
    {
      SelectStudentsExact(ss, f, s);
      if Trim(codigo) != "" {
        IncludesAt(Lower(s.codigo), Lower(Trim(codigo)));
      }
    }
  }

  class StudentFilter {
    var codigo: string
    var programaId: string

    constructor ()
      ensures codigo == "" && programaId == ""
    {
      codigo := "";
      programaId := "";
    }

    method HandleCodigoChange(value: string)
      modifies this`codigo
      ensures codigo == value
    {
      codigo := value;
    }

    method HandleProgramaChange(value: string)
      modifies this`programaId
      ensures programaId == value
    {
      programaId := value;
    }

    /** `applyFilters()`: the code trimmed and the programme, each only when it holds
        something; never a `search` property. */
    method ApplyFilters() returns (f: StudentFilters)
      ensures f == Emitted(codigo, programaId)
      ensures f.codigo.Some? <==> Trim(codigo) != ""
      ensures f.codigo.Some? ==> f.codigo.value == Trim(codigo)
      ensures f.programaId.Some? <==> programaId != ""
      ensures f.programaId.Some? ==> f.programaId.value == programaId
      ensures f.search == None
    {
      f := NoStudentFilters;
      var trimmed := Trim(codigo);
      if trimmed != "" {
        f := f.(codigo := Some(trimmed));
      }
      if programaId != "" {
        f := f.(programaId := Some(programaId));
      }
    }

    /** `clearFilters()`: empties both inputs and emits the empty object. */
    method ClearFilters() returns (f: StudentFilters)
      modifies this
      ensures codigo == "" && programaId == ""
      ensures f == NoStudentFilters
      ensures f == Emitted(codigo, programaId)
    {
      codigo := "";
      programaId := "";
      f := NoStudentFilters;
      assert Trim("") == "";
    }
  }
}
