/**
 * `StudentUseCase`: the student operations of the application layer. Reads and creation pass
 * straight to the repository; the payments lookup, update and delete first check that the
 * code exists and throw not-found otherwise.
 */
module StudentUseCases {
  import opened Wrappers
  import opened Domain
  import opened MockStudentApi
  import MockData
  import Seqs

  class StudentUseCase {
    const repository: MockStudentRepository

    ghost predicate Valid()
      reads this, repository
    {
      repository.Valid()
    }

    constructor (repository: MockStudentRepository)
      ensures this.repository == repository
    {
      this.repository := repository;
    }

    /** `getAllStudents()`: the repository's answer, unchanged. */
    method GetAllStudents() returns (r: seq<Student>)
      ensures r == repository.students
    {
      r := repository.GetAll();
    }

    /** `getStudentByCode(codigo)`: the repository's answer, unchanged. */
    method GetStudentByCode(codigo: string) returns (r: Option<Student>)
      ensures r.Some? <==> IndexOfCode(repository.students, codigo) != -1
      ensures r.Some? ==> r.value == repository.students[IndexOfCode(repository.students, codigo)]
    {
      r := repository.GetByCode(codigo);
    }

    /** `getStudentsByFilters(f)`: the repository's answer, unchanged. */
    method GetStudentsByFilters(f: StudentFilters) returns (r: seq<Student>)
      ensures r == SelectStudents(repository.students, f)
    {
      r := repository.GetByFilters(f);
    }

    /** `getStudentsByProgram(programaId)`: the repository's answer, unchanged. */
    method GetStudentsByProgram(programaId: string) returns (r: seq<Student>)
      ensures r == Seqs.Filter(repository.students, ByProgram(programaId))
      ensures forall s :: s in r <==> s in repository.students && s.programaId == programaId
    {
      r := repository.GetByProgram(programaId);
    }

    /** `getStudentPayments(codigo)`: throws not-found for an unknown code without asking for
        payments; otherwise the repository's list, which may be empty. */
    method GetStudentPayments(codigo: string) returns (r: Result<seq<Payment>, Error>)
      ensures IndexOfCode(repository.students, codigo) == -1 <==> r == Failure(StudentNotFound(codigo))
      ensures r.Success? ==> r.value == MockData.GetStudentPayments(codigo)
      ensures r.Failure? ==> r.error == StudentNotFound(codigo)
    {
      var student := repository.GetByCode(codigo);
      if student.None? {
        return Failure(StudentNotFound(codigo));
      }
      var payments := repository.GetPayments(codigo);
      r := Success(payments);
    }

    /** `createStudent(dto)`: no existence or duplicate check; the repository's record is
        returned. A code already stored shadows the new record in later lookups. */
    method CreateStudent(dto: CreateStudentDto) returns (r: Student)
      requires Valid()
      modifies repository
      ensures Valid()
      ensures r == NewStudent(old(repository.nextId), dto)
      ensures repository.students == old(repository.students) + [r]
      ensures repository.nextId == old(repository.nextId) + 1
      ensures IndexOfCode(old(repository.students), dto.codigo) == -1 ==>
                IndexOfCode(repository.students, dto.codigo) == |old(repository.students)|
      ensures IndexOfCode(old(repository.students), dto.codigo) != -1 ==>
                IndexOfCode(repository.students, dto.codigo) == IndexOfCode(old(repository.students), dto.codigo)
    {
      r := repository.Create(dto);
      assert forall i :: 0 <= i < |old(repository.students)| ==> repository.students[i] == old(repository.students)[i];
      if IndexOfCode(old(repository.students), dto.codigo) == -1 {
        CreateThenLookupFinds(old(repository.students), r);
      }
    }

    /** `updateStudent(codigo, dto)`: an unknown code throws and nothing is updated; otherwise
        the merged record, whose code is `codigo` whatever the payload says. */
    method UpdateStudent(codigo: string, dto: UpdateStudentDto) returns (r: Result<Student, Error>)
      requires Valid()
      modifies repository
      ensures Valid() && repository.nextId == old(repository.nextId)
      ensures IndexOfCode(old(repository.students), codigo) == -1 ==>
                r == Failure(StudentNotFound(codigo)) && repository.students == old(repository.students)
      ensures IndexOfCode(old(repository.students), codigo) != -1 ==>
                var k := IndexOfCode(old(repository.students), codigo);
                r == Success(MergeUpdate(old(repository.students)[k], dto, codigo)) &&
                repository.students == old(repository.students)[k := r.value]
      ensures r.Success? ==> r.value.codigo == codigo
    {
      var existing := repository.GetByCode(codigo);
      if existing.None? {
        return Failure(StudentNotFound(codigo));
      }
      r := repository.Update(codigo, dto);
    }

    /** `deleteStudent(codigo)`: an unknown code throws and nothing is deleted; otherwise the
        first record with that code is removed, and with unique codes it is no longer found. */
    method DeleteStudent(codigo: string) returns (r: Result<(), Error>)
      requires Valid()
      modifies repository
      ensures Valid() && repository.nextId == old(repository.nextId)
      ensures IndexOfCode(old(repository.students), codigo) == -1 ==>
                r == Failure(StudentNotFound(codigo)) && repository.students == old(repository.students)
      ensures IndexOfCode(old(repository.students), codigo) != -1 ==>
                r == Success(()) && repository.students == DeleteFirst(old(repository.students), codigo)
      ensures r.Success? && UniqueCodes(old(repository.students)) ==>
                IndexOfCode(repository.students, codigo) == -1
    {
      var existing := repository.GetByCode(codigo);
      if existing.None? {
        return Failure(StudentNotFound(codigo));
      }
      repository.Delete(codigo);
      r := Success(());
      if UniqueCodes(old(repository.students)) {
        DeleteThenLookupMisses(old(repository.students), codigo);
      }
    }
  }
}
