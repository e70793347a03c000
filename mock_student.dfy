/**
 * `MockStudentRepository`: the in-memory student store. It starts from a copy of the student
 * fixture, names new students with the decimal string of an auto-increment counter, matches
 * filters in store order, merges updates into one record in place and removes the first
 * record with a code.
 */
module MockStudentApi {
  import opened Wrappers
  import opened Domain
  import opened Seqs
  import opened Text
  import MockData

  function ByCode(codigo: string): Student -> bool {
    (s: Student) => s.codigo == codigo
  }

  /** `students.findIndex(s => s.codigo === codigo)`. */
  function IndexOfCode(ss: seq<Student>, codigo: string): int {
    FirstIndex(ss, ByCode(codigo))
  }

  function ByProgram(programaId: string): Student -> bool {
    (s: Student) => s.programaId == programaId
  }

  // The two conditions of getByFilters; `search` is not looked at.
  predicate CodigoOk(f: StudentFilters, s: Student) {
    Truthy(f.codigo) ==> Includes(Lower(s.codigo), Lower(f.codigo.value))
  }
  predicate ProgramOk(f: StudentFilters, s: Student) {
    Truthy(f.programaId) ==> s.programaId == f.programaId.value
  }

  predicate MatchesStudentFilters(f: StudentFilters, s: Student) {
    CodigoOk(f, s) && ProgramOk(f, s)
  }

  function MatchingStudents(f: StudentFilters): Student -> bool {
    (s: Student) => MatchesStudentFilters(f, s)
  }

  /** What `getByFilters(f)` answers on a store `ss`. */
  function SelectStudents(ss: seq<Student>, f: StudentFilters): seq<Student> {
    Filter(ss, MatchingStudents(f))
  }

  /** `getByFilters` answers, in store order, exactly the students whose code contains the
      filter code ignoring (ASCII) case and whose program equals the filter program, each
      rule applying only when its field is present and non-empty. */
  lemma SelectStudentsExact(ss: seq<Student>, f: StudentFilters, s: Student)
    ensures s in SelectStudents(ss, f) <==>
      s in ss &&
      (Truthy(f.codigo) ==> exists k :: OccursAt(Lower(s.codigo), Lower(f.codigo.value), k)) &&
      (Truthy(f.programaId) ==> s.programaId == f.programaId.value)
    ensures IsSubsequence(SelectStudents(ss, f), ss)
  {
    FilterMembership(ss, MatchingStudents(f), s);
    FilterIsSubsequence(ss, MatchingStudents(f));
    if Truthy(f.codigo) {
      IncludesAt(Lower(s.codigo), Lower(f.codigo.value));
    }
  }

  /** A filter carrying only `search`, or nothing, returns every student unchanged. */
  lemma SearchOnlySelectsAll(ss: seq<Student>, f: StudentFilters)
    requires !Truthy(f.codigo) && !Truthy(f.programaId)
    ensures SelectStudents(ss, f) == ss
  {
    FilterKeepsAll(ss, MatchingStudents(f));
  }

  /** The code rule ignores case: a filter code in any mix of cases selects the same students. */
  lemma CodigoFilterIgnoresCase(ss: seq<Student>, f: StudentFilters, g: StudentFilters)
    requires f.programaId == g.programaId && Truthy(f.codigo) && Truthy(g.codigo)
    requires Lower(f.codigo.value) == Lower(g.codigo.value)
    ensures SelectStudents(ss, f) == SelectStudents(ss, g)
  {
    FilterCongruent(ss, MatchingStudents(f), MatchingStudents(g));
  }

  /** A student's own code always matches the code rule: the match is by substring. */
  lemma OwnCodeMatches(s: Student, f: StudentFilters)
    requires f.codigo == Some(s.codigo)
    ensures CodigoOk(f, s)
  {
    IncludesSelf(Lower(s.codigo));
  }

  /** A numeral handed out before `n` (ids are `String(k)` for some 1 <= k < n). */
  ghost predicate IssuedBefore(id: string, n: int) {
    exists k: nat :: 1 <= k < n && id == DecimalString(k)
  }

  /** The store invariant: ids are pairwise distinct numerals below the counter. */
  ghost predicate StudentIdInvariant(ss: seq<Student>, nextId: int) {
    (forall i, j :: 0 <= i < j < |ss| ==> ss[i].id != ss[j].id) &&
    (forall i :: 0 <= i < |ss| ==> IssuedBefore(ss[i].id, nextId))
  }

  /** Codes are pairwise distinct (nothing in the repository enforces it). */
  ghost predicate UniqueCodes(ss: seq<Student>) {
    forall i, j :: 0 <= i < j < |ss| ==> ss[i].codigo != ss[j].codigo
  }

  /** The record `create(dto)` stores: id `String(n)` followed by the payload fields. */
  function NewStudent(n: nat, dto: CreateStudentDto): Student {
    Student(DecimalString(n), dto.codigo, dto.nombre, dto.apellido, dto.programaId, dto.foto)
  }

  /** `{ ...old, ...dto, codigo }`: every field present in the payload replaces the stored one,
      then the code is set back to `codigo`. */
  function MergeUpdate(current: Student, dto: UpdateStudentDto, codigo: string): Student {
    Student(
      current.id,
      codigo,
      dto.nombre.GetOr(current.nombre),
      dto.apellido.GetOr(current.apellido),
      dto.programaId.GetOr(current.programaId),
      dto.foto.GetOr(current.foto))
  }

  /** The merge keeps `id` and the lookup code, whatever code the payload carries, takes each
      present payload field and keeps each absent one. */
  lemma MergeUpdateFields(current: Student, dto: UpdateStudentDto)
    ensures var m := MergeUpdate(current, dto, current.codigo);
      m.id == current.id && m.codigo == current.codigo &&
      (dto.nombre.Some? ==> m.nombre == dto.nombre.value) && (dto.nombre.None? ==> m.nombre == current.nombre) &&
      (dto.apellido.Some? ==> m.apellido == dto.apellido.value) && (dto.apellido.None? ==> m.apellido == current.apellido) &&
      (dto.programaId.Some? ==> m.programaId == dto.programaId.value) &&
      (dto.programaId.None? ==> m.programaId == current.programaId) &&
      (dto.foto.Some? ==> m.foto == dto.foto.value) && (dto.foto.None? ==> m.foto == current.foto)
  {
  }

  /** An empty payload changes nothing. */
  lemma MergeEmptyIsIdentity(current: Student)
    ensures MergeUpdate(current, UpdateStudentDto(None, None, None, None, None), current.codigo) == current
  {
  }

  /** What `delete(codigo)` leaves: the store without its first record with that code. */
  function DeleteFirst(ss: seq<Student>, codigo: string): seq<Student> {
    var k := IndexOfCode(ss, codigo);
    if k == -1 then ss else RemoveAt(ss, k)
  }

  /** Delete removes exactly one record, the first with that code, and keeps the others in
      order; an unknown code leaves the store as it was. */
  lemma DeleteFirstFacts(ss: seq<Student>, codigo: string)
    ensures IndexOfCode(ss, codigo) == -1 ==> DeleteFirst(ss, codigo) == ss
    ensures IndexOfCode(ss, codigo) != -1 ==>
              var k := IndexOfCode(ss, codigo);
              DeleteFirst(ss, codigo) == ss[..k] + ss[k + 1..] &&
              ss[k].codigo == codigo &&
              multiset(DeleteFirst(ss, codigo)) + multiset{ss[k]} == multiset(ss)
  {
    var k := IndexOfCode(ss, codigo);
    if k != -1 {
      assert ss == ss[..k] + [ss[k]] + ss[k + 1..];
    }
  }

  /** With unique codes, a deleted code is no longer found. */
  lemma DeleteThenLookupMisses(ss: seq<Student>, codigo: string)
    requires UniqueCodes(ss)
    ensures IndexOfCode(DeleteFirst(ss, codigo), codigo) == -1
  {
    var k := IndexOfCode(ss, codigo);
    var r := DeleteFirst(ss, codigo);
    if k != -1 {
      forall j | 0 <= j < |r| ensures r[j].codigo != codigo {
        if j < k {
          assert r[j] == ss[j];
        } else {
          assert r[j] == ss[j + 1];
        }
      }
    }
  }

  /** With unique codes, a created student is found under its code right after `create`. */
  lemma CreateThenLookupFinds(ss: seq<Student>, s: Student)
    requires forall i :: 0 <= i < |ss| ==> ss[i].codigo != s.codigo
    ensures IndexOfCode(ss + [s], s.codigo) == |ss|
  {
    var r := ss + [s];
    assert forall j :: 0 <= j < |ss| ==> r[j] == ss[j];
    assert ByCode(s.codigo)(r[|ss|]);
  }

  /** The fixture satisfies the id invariant with the counter at length + 1. */
  lemma FixtureStudentIdInvariant()
    ensures StudentIdInvariant(MockData.MOCK_STUDENTS, |MockData.MOCK_STUDENTS| + 1)
  {
    var ss := MockData.MOCK_STUDENTS;
    assert ss[0].id == DecimalString(1);
    assert ss[1].id == DecimalString(2);
    assert ss[2].id == DecimalString(3);
  }

  /** Appending a record named after the counter, and counting on, keeps the id invariant. */
  lemma AppendKeepsStudentIdInvariant(ss: seq<Student>, nextId: nat, s: Student)
    requires StudentIdInvariant(ss, nextId) && nextId >= 1 && s.id == DecimalString(nextId)
    ensures StudentIdInvariant(ss + [s], nextId + 1)
  {
    var r := ss + [s];
    forall i | 0 <= i < |ss| ensures ss[i].id != s.id && IssuedBefore(ss[i].id, nextId + 1) {
      assert IssuedBefore(ss[i].id, nextId);
      var k: nat :| 1 <= k < nextId && ss[i].id == DecimalString(k);
      if ss[i].id == s.id {
        DecimalStringInjective(k, nextId);
      }
      assert 1 <= k < nextId + 1;
    }
    assert IssuedBefore(s.id, nextId + 1) by {
      assert 1 <= nextId < nextId + 1 && s.id == DecimalString(nextId);
    }
    forall i | 0 <= i < |r| ensures IssuedBefore(r[i].id, nextId + 1) {
      if i < |ss| { assert r[i] == ss[i]; }
    }
  }

  /** Removing one record keeps the id invariant. */
  lemma RemoveKeepsStudentIdInvariant(ss: seq<Student>, nextId: int, k: nat)
    requires StudentIdInvariant(ss, nextId) && k < |ss|
    ensures StudentIdInvariant(RemoveAt(ss, k), nextId)
  {
    var r := RemoveAt(ss, k);
    forall i | 0 <= i < |r| ensures IssuedBefore(r[i].id, nextId) {
      if i < k { assert r[i] == ss[i]; } else { assert r[i] == ss[i + 1]; }
    }
    forall i, j | 0 <= i < j < |r| ensures r[i].id != r[j].id {
      var i' := if i < k then i else i + 1;
      var j' := if j < k then j else j + 1;
      assert r[i] == ss[i'] && r[j] == ss[j'];
    }
  }

  class MockStudentRepository {
    var students: seq<Student>
    var nextId: int

    ghost predicate Valid()
      reads this
    {
      nextId >= 1 && StudentIdInvariant(students, nextId)
    }

    /** The store starts as a copy of the fixture and counts on from its length + 1. */
    constructor ()
      ensures Valid()
      ensures students == MockData.MOCK_STUDENTS && nextId == 4
    {
      students := MockData.MOCK_STUDENTS;
      nextId := |MockData.MOCK_STUDENTS| + 1;
      FixtureStudentIdInvariant();
    }

    /** `getAll()`: a copy of the whole store. */
    method GetAll() returns (r: seq<Student>)
      ensures r == students
    {
      r := students;
    }

    /** `getByCode(codigo)`: the first student whose code is exactly `codigo`, or null. */
    method GetByCode(codigo: string) returns (r: Option<Student>)
      ensures r.Some? <==> exists i :: 0 <= i < |students| && students[i].codigo == codigo
      ensures r.Some? ==> r.value == students[IndexOfCode(students, codigo)] && r.value.codigo == codigo
    {
      var k := IndexOfCode(students, codigo);
      r := if k == -1 then None else Some(students[k]);
    }

    /** `getByFilters(f)`: narrows a copy of the store by the code rule, then the program rule. */
    method GetByFilters(f: StudentFilters) returns (r: seq<Student>)
      ensures r == SelectStudents(students, f)
      ensures forall s :: s in r <==> s in students && MatchesStudentFilters(f, s)
    {
      var s1 := (s: Student) => CodigoOk(f, s);
      r := students;
      if Truthy(f.codigo) {
        var needle := Lower(f.codigo.value);
        r := Filter(r, (s: Student) => Includes(Lower(s.codigo), needle));
        FilterCongruent(students, (s: Student) => Includes(Lower(s.codigo), needle), s1);
      } else {
        FilterKeepsAll(students, s1);
      }
      assert r == Filter(students, s1);

      if Truthy(f.programaId) {
        var programaId := f.programaId.value;
        var q := (s: Student) => s.programaId == programaId;
        r := Filter(r, q);
        FilterCompose(students, s1, q, MatchingStudents(f));
      } else {
        FilterCongruent(students, s1, MatchingStudents(f));
      }
      forall s ensures s in r <==> s in students && MatchesStudentFilters(f, s) {
        FilterMembership(students, MatchingStudents(f), s);
      }
    }

    /** `getByProgram(programaId)`: the students with exactly that program, in store order. */
    method GetByProgram(programaId: string) returns (r: seq<Student>)
      ensures r == Filter(students, ByProgram(programaId))
      ensures forall s :: s in r <==> s in students && s.programaId == programaId
      ensures IsSubsequence(r, students)
    {
      r := Filter(students, ByProgram(programaId));
      forall s ensures s in r <==> s in students && s.programaId == programaId {
        FilterMembership(students, ByProgram(programaId), s);
      }
      FilterIsSubsequence(students, ByProgram(programaId));
    }

    /** `getPayments(codigo)`: the fixture lookup, not any live payment store. */
    method GetPayments(codigo: string) returns (r: seq<Payment>)
      ensures r == MockData.GetStudentPayments(codigo)
      ensures forall p :: p in r <==> p in MockData.MOCK_PAYMENTS && p.estudiante.codigo == codigo
    {
      r := MockData.GetStudentPayments(codigo);
      MockData.StudentPaymentsExact(codigo);
    }

    /** `create(dto)`: appends one record named `String(nextId)` and counts on. No check is made
        for a code already in the store. */
    method Create(dto: CreateStudentDto) returns (r: Student)
      requires Valid()
      modifies this
      ensures Valid()
      ensures r == NewStudent(old(nextId), dto)
      ensures students == old(students) + [r] && nextId == old(nextId) + 1
    {
      r := NewStudent(nextId, dto);
      AppendKeepsStudentIdInvariant(students, nextId, r);
      nextId := nextId + 1;
      students := students + [r];
    }

    /** `update(codigo, dto)`: throws on an unknown code and leaves the store as it was;
        otherwise replaces the first record with that code by the merge, code kept. */
    method Update(codigo: string, dto: UpdateStudentDto) returns (r: Result<Student, Error>)
      requires Valid()
      modifies this
      ensures Valid() && nextId == old(nextId)
      ensures IndexOfCode(old(students), codigo) == -1 ==>
                r == Failure(StudentNotFound(codigo)) && students == old(students)
      ensures IndexOfCode(old(students), codigo) != -1 ==>
                var k := IndexOfCode(old(students), codigo);
                r == Success(MergeUpdate(old(students)[k], dto, codigo)) &&
                students == old(students)[k := r.value]
      ensures r.Success? ==> r.value.codigo == codigo
    {
      var index := IndexOfCode(students, codigo);
      if index == -1 {
        return Failure(StudentNotFound(codigo));
      }
      var updated := MergeUpdate(students[index], dto, codigo);
      students := students[index := updated];
      r := Success(updated);
      assert forall i :: 0 <= i < |students| && i != index ==> students[i] == old(students)[i];
    }

    /** `delete(codigo)`: removes the first record with that code; an unknown code is a no-op. */
    method Delete(codigo: string)
      requires Valid()
      modifies this
      ensures Valid() && nextId == old(nextId)
      ensures students == DeleteFirst(old(students), codigo)
    {
      var index := IndexOfCode(students, codigo);
      if index != -1 {
        RemoveKeepsStudentIdInvariant(students, nextId, index);
        students := RemoveAt(students, index);
      }
    }
  }
}
