/**
 * The student form: the four required-field checks, the input handler that clears a shown
 * error, the submit step that creates or updates through the student use case, and the
 * one-time prefill of the edit form with the loaded student.
 */
module StudentFormComponent {
  import opened Wrappers
  import opened Domain
  import opened MockStudentApi
  import MockData
  import StudentUseCases

  const CodigoRequired := "El código es obligatorio"
  const NombreRequired := "El nombre es obligatorio"
  const ApellidoRequired := "El apellido es obligatorio"
  const ProgramaRequired := "El programa es obligatorio"

  const CreatedMessage := "Estudiante creado correctamente"
  const UpdatedMessage := "Estudiante actualizado correctamente"
  const SaveFailedMessage := "Error al guardar el estudiante"

  /** The fields that can be reported as missing; they are also the form's inputs. */
  const RequiredFields: set<string> := {"codigo", "nombre", "apellido", "programaId"}

  /** The empty form. */
  const EmptyForm := CreateStudentDto("", "", "", "", None)

  /** The errors `validateForm` builds from scratch: one entry per empty required field. */
  function RequiredErrors(d: CreateStudentDto): map<string, string> {
    var e1: map<string, string> := if d.codigo == "" then map["codigo" := CodigoRequired] else map[];
    var e2 := if d.nombre == "" then e1["nombre" := NombreRequired] else e1;
    var e3 := if d.apellido == "" then e2["apellido" := ApellidoRequired] else e2;
    if d.programaId == "" then e3["programaId" := ProgramaRequired] else e3
  }

  /** Each required field has an entry exactly when it is empty, with its own message; nothing
      else has one; the form is valid exactly when all four are filled. */
  lemma RequiredErrorsExact(d: CreateStudentDto)
    ensures var r := RequiredErrors(d);
      r.Keys <= RequiredFields &&
      ("codigo" in r <==> d.codigo == "") && ("codigo" in r ==> r["codigo"] == CodigoRequired) &&
      ("nombre" in r <==> d.nombre == "") && ("nombre" in r ==> r["nombre"] == NombreRequired) &&
      ("apellido" in r <==> d.apellido == "") && ("apellido" in r ==> r["apellido"] == ApellidoRequired) &&
      ("programaId" in r <==> d.programaId == "") && ("programaId" in r ==> r["programaId"] == ProgramaRequired)
    ensures RequiredErrors(d) == map[] <==> d.codigo != "" && d.nombre != "" && d.apellido != "" && d.programaId != ""
  {
    var r := RequiredErrors(d);
    if r == map[] {
      assert "codigo" !in r && "nombre" !in r && "apellido" !in r && "programaId" !in r;
    }
  }

  /** The empty form reports all four fields. */
  lemma EmptyFormReportsAll()
    ensures RequiredErrors(EmptyForm).Keys == RequiredFields
  {
    RequiredErrorsExact(EmptyForm);
  }

  /** `{ ...formData, [field]: value }` for one of the inputs. */
  function SetField(d: CreateStudentDto, field: string, value: string): CreateStudentDto
    requires field in RequiredFields
  {
    if field == "codigo" then d.(codigo := value)
    else if field == "nombre" then d.(nombre := value)
    else if field == "apellido" then d.(apellido := value)
    else d.(programaId := value)
  }

  /** The form data as the update payload: every property is present. */
  function AsUpdate(d: CreateStudentDto): UpdateStudentDto {
    UpdateStudentDto(Some(d.codigo), Some(d.nombre), Some(d.apellido), Some(d.programaId), Some(d.foto))
  }

  /** Saving the edit form replaces every field of the stored record except its id and its
      code: a code typed into the form is ignored. */
  lemma EditOverwritesAllButIdAndCode(current: Student, d: CreateStudentDto, codigo: string)
    ensures MergeUpdate(current, AsUpdate(d), codigo) ==
              Student(current.id, codigo, d.nombre, d.apellido, d.programaId, d.foto)
  {
    MergeUpdateFields(current, AsUpdate(d));
  }

  /** The form prefilled from a loaded student. */
  function FromStudent(s: Student): CreateStudentDto {
    CreateStudentDto(s.codigo, s.nombre, s.apellido, s.programaId, s.foto)
  }

  /** Every fixture student, loaded into the edit form, passes validation as it stands. */
  lemma {:induction false} FixturesPrefillValid()
    ensures forall s :: s in MockData.MOCK_STUDENTS ==> RequiredErrors(FromStudent(s)) == map[]
  {
    forall s | s in MockData.MOCK_STUDENTS
      ensures RequiredErrors(FromStudent(s)) == map[]
    {
      RequiredErrorsExact(FromStudent(s));
    }
  }

  /** What the form reports to its host after a submit. */
  datatype SubmitEvent = NoEvent | SubmitSuccess(message: string) | SubmitError(message: string)

  class StudentForm {
    /** The code of the student being edited; `None` (or empty) for a new one. */
    var studentCode: Option<string>
    var formData: CreateStudentDto
    var errors: map<string, string>

    /** Errors only ever name the four required fields. */
    ghost predicate Valid()
      reads this
    {
      errors.Keys <= RequiredFields
    }

    constructor (studentCode: Option<string>)
      ensures Valid()
      ensures this.studentCode == studentCode && formData == EmptyForm && errors == map[]
    {
      this.studentCode := studentCode;
      formData := EmptyForm;
      errors := map[];
    }

    /** `handleInputChange`: stores the value; an error shown for that field is blanked (the
        entry stays, with an empty message); every other entry is kept. */
    method HandleInputChange(field: string, value: string)
      requires Valid() && field in RequiredFields
      modifies this`formData, this`errors
      ensures Valid()
      ensures formData == SetField(old(formData), field, value)
      ensures errors.Keys == old(errors).Keys
      ensures field in errors ==> errors[field] == ""
      ensures forall k :: k in errors && k != field ==> errors[k] == old(errors)[k]
    {
      formData := SetField(formData, field, value);
      if field in errors && errors[field] != "" {
        errors := errors[field := ""];
      }
    }

    /** `validateForm()`: replaces the errors with the required-field report. */
    method ValidateForm() returns (ok: bool)
      modifies this`errors
      ensures Valid()
      ensures errors == RequiredErrors(formData)
      ensures ok <==> formData.codigo != "" && formData.nombre != "" && formData.apellido != "" &&
                      formData.programaId != ""
    {
      errors := RequiredErrors(formData);
      RequiredErrorsExact(formData);
      ok := |errors| == 0;
      assert ok <==> errors == map[] by {
        if |errors| == 0 { assert errors.Keys == {}; }
      }
    }

    /** `submitForm`: an invalid form calls nothing; with a code it updates that student
        (an unknown code reports the save error and changes nothing); without one it creates a
        student from the form. */
    method SubmitForm(uc: StudentUseCases.StudentUseCase) returns (ev: SubmitEvent)
      requires uc.Valid()
      modifies this`errors, uc.repository
      ensures Valid() && uc.Valid()
      ensures errors == RequiredErrors(formData)
      ensures errors != map[] ==>
                ev == NoEvent && uc.repository.students == old(uc.repository.students) &&
                uc.repository.nextId == old(uc.repository.nextId)
      ensures errors == map[] && Truthy(studentCode) ==>
                var k := IndexOfCode(old(uc.repository.students), studentCode.value);
                uc.repository.nextId == old(uc.repository.nextId) &&
                (k == -1 ==> ev == SubmitError(SaveFailedMessage) &&
                             uc.repository.students == old(uc.repository.students)) &&
                (k != -1 ==> ev == SubmitSuccess(UpdatedMessage) &&
                             uc.repository.students == old(uc.repository.students)[k :=
                               MergeUpdate(old(uc.repository.students)[k], AsUpdate(formData), studentCode.value)])
      ensures errors == map[] && !Truthy(studentCode) ==>
                ev == SubmitSuccess(CreatedMessage) &&
                uc.repository.students == old(uc.repository.students) + [NewStudent(old(uc.repository.nextId), formData)] &&
                uc.repository.nextId == old(uc.repository.nextId) + 1
    {
      var ok := ValidateForm();
      if !ok {
        assert errors != map[] by {
          RequiredErrorsExact(formData);
        }
        return NoEvent;
      }
      if Truthy(studentCode) {
        var r := uc.UpdateStudent(studentCode.value, AsUpdate(formData));
        if r.Success? {
          ev := SubmitSuccess(UpdatedMessage);
        } else {
          ev := SubmitError(SaveFailedMessage);
        }
      } else {
        var created := uc.CreateStudent(formData);
        ev := SubmitSuccess(CreatedMessage);
      }
    }

    /** The edit task's load: nothing without a code, otherwise the student with that code. */
    method LoadStudent(uc: StudentUseCases.StudentUseCase) returns (r: Option<Student>)
      ensures !Truthy(studentCode) ==> r == None
      ensures Truthy(studentCode) ==>
                (r.Some? <==> IndexOfCode(uc.repository.students, studentCode.value) != -1) &&
                (r.Some? ==> r.value == uc.repository.students[IndexOfCode(uc.repository.students, studentCode.value)])
    {
      if !Truthy(studentCode) {
        return None;
      }
      r := uc.GetStudentByCode(studentCode.value);
    }

    /** The edit task's completion: the loaded student fills the form once, only while in
        edit mode and while the code field is still empty, so later typing is never
        overwritten. */
    method Prefill(loaded: Option<Student>)
      modifies this`formData
      ensures loaded.Some? && Truthy(studentCode) && old(formData).codigo == "" ==>
                formData == FromStudent(loaded.value)
      ensures !(loaded.Some? && Truthy(studentCode) && old(formData).codigo == "") ==>
                formData == old(formData)
    {
      if loaded.Some? && Truthy(studentCode) && formData.codigo == "" {
        formData := FromStudent(loaded.value);
      }
    }
  }
}
