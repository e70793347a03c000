# ges-payment-salle in Dafny

A model of the core of *ges-payment-salle*. This web application records students and the
payments they make, such as tuition transfers, cash or cheques. The model covers:

- **The in-memory repositories** that back the application in mock mode:
  - `MockStudentApi.MockStudentRepository` and `MockPaymentApi.MockPaymentRepository`, classes
    whose `students`/`payments` sequences and `nextId` counters are updated in place;
  - the fixtures they start from (`MockData`).
- **The two use cases**, `StudentUseCases.StudentUseCase` and `PaymentUseCases.PaymentUseCase`.
  They validate, then delegate, and turn "not found" into an error (`Result`).
- **The logic inside the UI components:**
  - the payment form: sanitiser, per-field and whole-form validation, the student search guard,
    selection and reset;
  - the student form: required fields, edit/create submission, prefill on edit;
  - the two filter bars: which properties an applied filter carries, and clearing;
  - the payments page: the status-to-actions rule, the detail-modal invariant, the choice between
    "all" and "filtered" loading, and the label maps;
  - the student payments page: the same action rule, the modal keyed by payment id, the loaders
    that short-circuit on an empty code, and the `updated` hook;
  - the header's active-link test.

Shared pieces:

- `Domain` holds the entities (`Student`, `Payment`, the status and type enumerations, DTOs and
  filter records).
- `Seqs` holds `Array.prototype.filter`/`find`/`findIndex`/`splice` on sequences.
- `Text` holds `trim`, `toLowerCase` (ASCII), `startsWith`, `includes` and `String(n)`.

The mutable components are classes with `modifies` clauses. Each method's `ensures` ties the new
state to a specification function: `SelectPayments`, `SelectStudents`, `ValidatedErrors`,
`RequiredErrors` or `Emitted`. The lemmas then prove what those functions mean.

A component event (`filter`, `submit-success`, `submit-error`) is modelled as the method's return
value. A call into a use case is modelled as a call on the use-case object that
is passed in.

Three behaviours of the code are kept as written:

- **Duplicate student codes.** A created student whose code already exists is stored, but every
  lookup by code returns the *older* record (`StudentUseCase.CreateStudent` states both halves).
- **The student filter's code match.** It is a case-insensitive substring match
  (`CodigoFilterIgnoresCase`), even though the comment on `StudentFilters.codigo` in
  `src/domain/models/filters.model.ts` calls it exact. The payment filter's code match is exact and
  case-sensitive (`FixtureCodeFilterIsCaseSensitive`).
- **The student payments page reloads from the fixtures.** It reads the payments of a student
  from the fixture list `MOCK_PAYMENTS`, not from the payment repository. A status change made
  from that page is therefore not visible on it after the reload (`ReloadShowsFixtureStatus`).

## Model

| member | source | states |
|---|---|---|
| MockData.StudentPaymentsExact | src/infrastructure/adapters/api/mock-data.ts:101-103 | a payment is listed for a code iff it is a fixture payment whose student snapshot has that code, in fixture order |
| MockData.UnknownCodeHasNoPayments | src/infrastructure/adapters/api/mock-data.ts:101-103 | a code no fixture student has yields no payments |
| MockData.StudentPaymentsAreFixtures | src/infrastructure/adapters/api/mock-data.ts:101-103 | every listed payment is a fixture payment with id 1..4 |
| MockData.Est001Payments | src/infrastructure/adapters/api/mock-data.ts:33-103 | EST-001 has exactly the payments with ids 1 and 4, in that order |
| MockData.FixturePaymentFacts | src/infrastructure/adapters/api/mock-data.ts:33-98 | four fixture payments with ids 1..4 (pairwise distinct) and positive amounts |
| MockData.FixtureSnapshotsMatchStudents | src/infrastructure/adapters/api/mock-data.ts:5-98 | every payment's student snapshot is the fixture student with that code; fixture student codes are distinct |
| MockStudentApi.SelectStudentsExact | src/infrastructure/adapters/api/mock-student.api.ts:32-46 | a student is selected iff it passes the case-insensitive code-substring test (when a code is given) and the program test (when one is given); order is kept |
| MockStudentApi.SearchOnlySelectsAll | src/infrastructure/adapters/api/mock-student.api.ts:32-46 | with no code and no program (only `search`), every student is returned |
| MockStudentApi.CodigoFilterIgnoresCase | src/infrastructure/adapters/api/mock-student.api.ts:35-39 | two code filters that agree after lower-casing select the same students |
| MockStudentApi.OwnCodeMatches | src/infrastructure/adapters/api/mock-student.api.ts:35-39 | a student always passes the code filter on its own code |
| MockStudentApi.MergeUpdateFields | src/infrastructure/adapters/api/mock-student.api.ts:86-90 | an update overwrites exactly the fields the DTO carries; id and code are preserved |
| MockStudentApi.MergeEmptyIsIdentity | src/infrastructure/adapters/api/mock-student.api.ts:86-90 | an empty update leaves the record unchanged |
| MockStudentApi.DeleteFirstFacts | src/infrastructure/adapters/api/mock-student.api.ts:99-107 | deleting an absent code changes nothing; otherwise exactly the first record with that code is removed and the rest keep their order |
| MockStudentApi.DeleteThenLookupMisses | src/infrastructure/adapters/api/mock-student.api.ts:99-107 | with distinct codes, a deleted code is no longer found |
| MockStudentApi.CreateThenLookupFinds | src/infrastructure/adapters/api/mock-student.api.ts:66-74 | a created student with a fresh code is found by its code at the new last position |
| MockStudentApi.FixtureStudentIdInvariant | src/infrastructure/adapters/api/mock-student.api.ts:11-12 | the fixture students' ids are decimal numerals of numbers below the initial counter 4, pairwise distinct |
| MockStudentApi.AppendKeepsStudentIdInvariant | src/infrastructure/adapters/api/mock-student.api.ts:66-74 | appending a student whose id is `String(nextId)` and incrementing the counter keeps ids issued and distinct |
| MockStudentApi.RemoveKeepsStudentIdInvariant | src/infrastructure/adapters/api/mock-student.api.ts:99-107 | removing a record keeps the id invariant (the counter never goes back) |
| MockStudentApi.MockStudentRepository.constructor | src/infrastructure/adapters/api/mock-student.api.ts:11-12 | starts from the fixture students with counter 4 |
| MockStudentApi.MockStudentRepository.GetAll | src/infrastructure/adapters/api/mock-student.api.ts:17-19 | returns the stored students |
| MockStudentApi.MockStudentRepository.GetByCode | src/infrastructure/adapters/api/mock-student.api.ts:24-27 | found iff some student has the code; the result is the first such |
| MockStudentApi.MockStudentRepository.GetByFilters | src/infrastructure/adapters/api/mock-student.api.ts:32-46 | the result is `SelectStudents` of the store: members are exactly the stored students matching the filters |
| MockStudentApi.MockStudentRepository.GetByProgram | src/infrastructure/adapters/api/mock-student.api.ts:51-54 | exactly the stored students of that program, in order |
| MockStudentApi.MockStudentRepository.GetPayments | src/infrastructure/adapters/api/mock-student.api.ts:59-61 | the fixture payments whose snapshot has that code |
| MockStudentApi.MockStudentRepository.Create | src/infrastructure/adapters/api/mock-student.api.ts:66-74 | appends a student with id `String(nextId)` and the DTO's fields, increments the counter, keeps the id invariant |
| MockStudentApi.MockStudentRepository.Update | src/infrastructure/adapters/api/mock-student.api.ts:79-94 | missing code: error and no change; otherwise the first match is replaced by the merge that keeps its id and code, nothing else changes |
| MockStudentApi.MockStudentRepository.Delete | src/infrastructure/adapters/api/mock-student.api.ts:99-107 | removes the first record with the code, if any |
| MockPaymentApi.SelectPaymentsExact | src/infrastructure/adapters/api/mock-payment.api.ts:31-67 | a payment is selected iff it passes every filter present: exact code, inclusive date bounds, status and type; order is kept |
| MockPaymentApi.NoFiltersSelectAll | src/infrastructure/adapters/api/mock-payment.api.ts:31-67 | with no filter present every payment is returned |
| MockPaymentApi.UnreadableDateBoundSelectsNothing | src/infrastructure/adapters/api/mock-payment.api.ts:40-52 | a present date bound that is not a readable date (an Invalid Date) rejects every payment |
| MockPaymentApi.FixtureCodeFilterIsCaseSensitive | src/infrastructure/adapters/api/mock-payment.api.ts:34-38 | on the fixtures "EST-001" selects payments 1 and 4 and "est-001" selects none |
| MockPaymentApi.FixturePendingPayments | src/infrastructure/adapters/api/mock-payment.api.ts:54-58 | on the fixtures the PENDIENTE filter selects only payment 2 |
| MockPaymentApi.DateBoundsInclusive | src/infrastructure/adapters/api/mock-payment.api.ts:40-52 | a payment dated exactly on both bounds passes both |
| MockPaymentApi.NewPaymentFromPayload | src/infrastructure/adapters/api/mock-payment.api.ts:96-119 | a new payment takes the fresh id, a placeholder student whose code is `estudianteId`, and every other field from the payload |
| MockPaymentApi.FixtureIdInvariant | src/infrastructure/adapters/api/mock-payment.api.ts:10-11 | fixture ids are distinct and below the initial counter 5 |
| MockPaymentApi.AppendKeepsIdInvariant | src/infrastructure/adapters/api/mock-payment.api.ts:108-116 | appending a payment with id `nextId` and incrementing keeps ids distinct and below the counter |
| MockPaymentApi.StatusChangeKeepsIdInvariant | src/infrastructure/adapters/api/mock-payment.api.ts:124-138 | a status change keeps the id invariant |
| MockPaymentApi.LookupOfStoredId | src/infrastructure/adapters/api/mock-payment.api.ts:23-26 | under the id invariant, looking up a stored payment's id finds that payment's own position |
| MockPaymentApi.NextIdIsFresh | src/infrastructure/adapters/api/mock-payment.api.ts:108 | the next id is not in use |
| MockPaymentApi.StatusUpdateFrame | src/infrastructure/adapters/api/mock-payment.api.ts:124-138 | a status update changes only that payment's status; length and all other payments are unchanged |
| MockPaymentApi.MockPaymentRepository.constructor | src/infrastructure/adapters/api/mock-payment.api.ts:10-11 | starts from the fixture payments with counter 5 |
| MockPaymentApi.MockPaymentRepository.GetAll | src/infrastructure/adapters/api/mock-payment.api.ts:16-18 | returns the stored payments |
| MockPaymentApi.MockPaymentRepository.GetById | src/infrastructure/adapters/api/mock-payment.api.ts:23-26 | found iff some payment has the id; the result is the first such |
| MockPaymentApi.MockPaymentRepository.GetByFilters | src/infrastructure/adapters/api/mock-payment.api.ts:31-67 | the result is `SelectPayments` of the store: members are exactly the stored payments matching the filters |
| MockPaymentApi.MockPaymentRepository.GetByStatus | src/infrastructure/adapters/api/mock-payment.api.ts:72-75 | exactly the stored payments with that status |
| MockPaymentApi.MockPaymentRepository.GetByType | src/infrastructure/adapters/api/mock-payment.api.ts:80-83 | exactly the stored payments of that type |
| MockPaymentApi.MockPaymentRepository.GetPaymentFile | src/infrastructure/adapters/api/mock-payment.api.ts:88-91 | some file iff the payment exists and has a non-empty file, which is returned |
| MockPaymentApi.MockPaymentRepository.Create | src/infrastructure/adapters/api/mock-payment.api.ts:96-119 | appends `NewPayment(nextId, dto)`, increments the counter, keeps the id invariant |
| MockPaymentApi.MockPaymentRepository.UpdateStatus | src/infrastructure/adapters/api/mock-payment.api.ts:124-138 | missing id: error and no change; otherwise that payment's status becomes the new one and it is returned |
| PaymentUseCases.PaymentUseCase.constructor | src/application/use-cases/payment.use-case.ts:15 | holds the given repository |
| PaymentUseCases.PaymentUseCase.GetAllPayments | src/application/use-cases/payment.use-case.ts:21-23 | all stored payments |
| PaymentUseCases.PaymentUseCase.GetPaymentById | src/application/use-cases/payment.use-case.ts:30-32 | found iff the id is stored |
| PaymentUseCases.PaymentUseCase.GetPaymentsByFilters | src/application/use-cases/payment.use-case.ts:39-49 | the repository's filtered selection |
| PaymentUseCases.PaymentUseCase.GetPaymentsByStatus | src/application/use-cases/payment.use-case.ts:56-58 | exactly the stored payments with that status |
| PaymentUseCases.PaymentUseCase.GetPaymentsByType | src/application/use-cases/payment.use-case.ts:65-67 | exactly the stored payments of that type |
| PaymentUseCases.PaymentUseCase.GetPaymentFile | src/application/use-cases/payment.use-case.ts:74-81 | PaymentNotFound iff the id is not stored; otherwise the repository's file answer |
| PaymentUseCases.PaymentUseCase.CreatePayment | src/application/use-cases/payment.use-case.ts:88-110 | an empty student id fails with StudentIdRequired and stores nothing; otherwise the repository appends the new payment |
| PaymentUseCases.PaymentUseCase.UpdatePaymentStatus | src/application/use-cases/payment.use-case.ts:118-125 | PaymentNotFound and no change for a missing id; otherwise only that payment's status changes |
| StudentUseCases.StudentUseCase.constructor | src/application/use-cases/student.use-case.ts:10 | holds the given repository |
| StudentUseCases.StudentUseCase.GetAllStudents | src/application/use-cases/student.use-case.ts:16-18 | all stored students |
| StudentUseCases.StudentUseCase.GetStudentByCode | src/application/use-cases/student.use-case.ts:25-27 | found iff the code is stored; the first match |
| StudentUseCases.StudentUseCase.GetStudentsByFilters | src/application/use-cases/student.use-case.ts:34-36 | the repository's filtered selection |
| StudentUseCases.StudentUseCase.GetStudentsByProgram | src/application/use-cases/student.use-case.ts:43-45 | the repository result unchanged: exactly the stored students of that program, in order and with multiplicity |
| StudentUseCases.StudentUseCase.GetStudentPayments | src/application/use-cases/student.use-case.ts:52-59 | StudentNotFound iff the code is not stored; otherwise the student's fixture payments |
| StudentUseCases.StudentUseCase.CreateStudent | src/application/use-cases/student.use-case.ts:66-68 | appends the new student; a duplicate code is stored but lookups keep returning the older record |
| StudentUseCases.StudentUseCase.UpdateStudent | src/application/use-cases/student.use-case.ts:76-83 | StudentNotFound and no change for a missing code; otherwise the merged record, with the same code |
| StudentUseCases.StudentUseCase.DeleteStudent | src/application/use-cases/student.use-case.ts:90-97 | StudentNotFound and no change for a missing code; otherwise the first match is removed and, with distinct codes, the code is gone |
| PaymentFormComponent.SanitizeInputExact | src/infrastructure/adapters/ui/components/payment-form.ts:84-87 | the result contains none of `; ' " \ < >`, keeps every other character with its multiplicity, and is a subsequence of the input |
| PaymentFormComponent.SanitizeInputIdempotent | src/infrastructure/adapters/ui/components/payment-form.ts:84-87 | sanitising twice is sanitising once; clean input is unchanged |
| PaymentFormComponent.NumberValueOfNumeral | src/infrastructure/adapters/ui/components/payment-form.ts:96-104 | `Number(String(n))` is `n` for every natural number: the model of `Number()` reads every decimal numeral back to its value |
| PaymentFormComponent.NumberValueOfNegatedNumeral | src/infrastructure/adapters/ui/components/payment-form.ts:96-104 | `Number("-" + String(n))` is `-n` for every natural number |
| PaymentFormComponent.MontoAcceptsPositiveNumerals | src/infrastructure/adapters/ui/components/payment-form.ts:96-104 | a whole-number amount passes the amount rule iff it is greater than 0, "0" gets the invalid-amount message, and a negated numeral never passes |
| PaymentFormComponent.MontoAcceptsDecimal | src/infrastructure/adapters/ui/components/payment-form.ts:96-104 | "150.50" is accepted |
| PaymentFormComponent.MontoRejectsText | src/infrastructure/adapters/ui/components/payment-form.ts:96-104 | "abc" (NaN) is rejected as invalid |
| PaymentFormComponent.MontoRejectsNonPositive | src/infrastructure/adapters/ui/components/payment-form.ts:96-104 | "0" and "-5" are rejected as invalid |
| PaymentFormComponent.MontoRejectsBlank | src/infrastructure/adapters/ui/components/payment-form.ts:96-104 | a blank " " is not "required" but invalid, since it converts to 0 |
| PaymentFormComponent.FechaAcceptsReadableDates | src/infrastructure/adapters/ui/components/payment-form.ts:106-117 | every date that `new Date` can read passes the date rule; the converse fails, since "2025-13-45" passes although it names no calendar date |
| PaymentFormComponent.AcceptedUnreadableDateMissesRanges | src/infrastructure/adapters/ui/components/payment-form.ts:106-117 | a payment whose date passed the form but is not a calendar date is dropped by every payment filter with a date bound |
| PaymentFormComponent.ValidatedErrorsFrame | src/infrastructure/adapters/ui/components/payment-form.ts:92-132 | validating a field sets or clears only that field's entry; other fields are untouched and unruled fields are never added |
| PaymentFormComponent.FormErrorsEmptyIff | src/infrastructure/adapters/ui/components/payment-form.ts:137-147 | after whole-form validation there is no error iff all three rules pass, and only ruled fields carry errors |
| PaymentFormComponent.FormatPaymentTypeMatchesList | src/infrastructure/adapters/ui/components/payment-form.ts:479-488 | the form's type label is the list page's label and reads back to the same type |
| PaymentFormComponent.SearchListsEveryStudent | src/infrastructure/adapters/ui/components/payment-form.ts:36-45 | the student search sends only `search`, which the repository ignores, so every student is listed |
| PaymentFormComponent.PaymentForm.constructor | src/infrastructure/adapters/ui/components/payment-form.ts:50-60 | initial form: today's date, empty amount, EFECTIVO, PENDIENTE, no student, no errors |
| PaymentFormComponent.PaymentForm.ValidateField | src/infrastructure/adapters/ui/components/payment-form.ts:92-132 | errors become `ValidatedErrors` of the old errors |
| PaymentFormComponent.PaymentForm.ValidateForm | src/infrastructure/adapters/ui/components/payment-form.ts:137-147 | returns true iff amount, date and student rules all pass; errors become `FormErrors` |
| PaymentFormComponent.PaymentForm.HandleInputChange | src/infrastructure/adapters/ui/components/payment-form.ts:65-79 | stores the sanitised value in the named field and re-validates that field |
| PaymentFormComponent.PaymentForm.HandleSearchChange | src/infrastructure/adapters/ui/components/payment-form.ts:152-162 | stores the sanitised term; a search runs iff it has at least 3 characters |
| PaymentFormComponent.PaymentForm.LoadStudents | src/infrastructure/adapters/ui/components/payment-form.ts:36-45 | a blank term lists nothing; otherwise every stored student |
| PaymentFormComponent.PaymentForm.SelectStudent | src/infrastructure/adapters/ui/components/payment-form.ts:167-175 | selects the student, copies its code into the form, clears the student error and the search term |
| PaymentFormComponent.PaymentForm.ClearSelectedStudent | src/infrastructure/adapters/ui/components/payment-form.ts:259-265 | deselects and empties the form's student id |
| PaymentFormComponent.PaymentForm.Cancel | src/infrastructure/adapters/ui/components/payment-form.ts:270-275 | resets to the initial form with no selection and no errors |
| StudentFormComponent.RequiredErrorsExact | src/infrastructure/adapters/ui/components/student-form.ts:93-114 | each of code, name, surname, program has an error iff it is empty, with its own message; no errors iff all four are filled |
| StudentFormComponent.EmptyFormReportsAll | src/infrastructure/adapters/ui/components/student-form.ts:20-26 | the empty form reports all four fields |
| StudentFormComponent.EditOverwritesAllButIdAndCode | src/infrastructure/adapters/ui/components/student-form.ts:131-139 | an edit sends every form field; the stored record takes them all except its id and code |
| StudentFormComponent.FixturesPrefillValid | src/infrastructure/adapters/ui/components/student-form.ts:174-186 | every fixture student prefills a form that passes validation |
| StudentFormComponent.StudentForm.constructor | src/infrastructure/adapters/ui/components/student-form.ts:14-36 | empty form, no errors, the given student code |
| StudentFormComponent.StudentForm.HandleInputChange | src/infrastructure/adapters/ui/components/student-form.ts:71-88 | sets the field; an existing error for it is blanked, other errors unchanged, keys unchanged |
| StudentFormComponent.StudentForm.ValidateForm | src/infrastructure/adapters/ui/components/student-form.ts:93-114 | errors become `RequiredErrors`; true iff all four fields are filled |
| StudentFormComponent.StudentForm.SubmitForm | src/infrastructure/adapters/ui/components/student-form.ts:119-161 | invalid: no event and no store change; with a code: update, success or error event; without: create and success event |
| StudentFormComponent.StudentForm.LoadStudent | src/infrastructure/adapters/ui/components/student-form.ts:41-48 | no code: nothing; otherwise the lookup result |
| StudentFormComponent.StudentForm.Prefill | src/infrastructure/adapters/ui/components/student-form.ts:174-186 | copies the loaded student into the form only when editing, loaded, and the code field is still empty |
| PaymentFilterComponent.EmittedPropertiesAreActive | src/infrastructure/adapters/ui/components/payment-filter.ts:65-91 | each emitted property is non-empty; the code is trimmed |
| PaymentFilterComponent.EmittedKeys | src/infrastructure/adapters/ui/components/payment-filter.ts:65-91 | a key is emitted iff its input is set (the code after trimming); no key iff every input is blank |
| PaymentFilterComponent.BlankInputsSelectAll | src/infrastructure/adapters/ui/components/payment-filter.ts:65-91 | blank inputs select every payment |
| PaymentFilterComponent.InvertedRangeSelectsNothing | src/infrastructure/adapters/ui/components/payment-filter.ts:65-91 | a start date after the end date selects nothing |
| PaymentFilterComponent.PaymentFilter.constructor | src/infrastructure/adapters/ui/components/payment-filter.ts:11-15 | all inputs blank |
| PaymentFilterComponent.PaymentFilter.HandleEstudianteCodigoChange | src/infrastructure/adapters/ui/components/payment-filter.ts:21-24 | stores the code input |
| PaymentFilterComponent.PaymentFilter.HandleFechaInicioChange | src/infrastructure/adapters/ui/components/payment-filter.ts:30-33 | stores the start date input |
| PaymentFilterComponent.PaymentFilter.HandleFechaFinChange | src/infrastructure/adapters/ui/components/payment-filter.ts:39-42 | stores the end date input |
| PaymentFilterComponent.PaymentFilter.HandleStatusChange | src/infrastructure/adapters/ui/components/payment-filter.ts:48-51 | stores the status choice |
| PaymentFilterComponent.PaymentFilter.HandleTypeChange | src/infrastructure/adapters/ui/components/payment-filter.ts:57-60 | stores the type choice |
| PaymentFilterComponent.PaymentFilter.ApplyFilters | src/infrastructure/adapters/ui/components/payment-filter.ts:65-91 | each property is present iff its input is set, with the trimmed code and the other inputs as given |
| PaymentFilterComponent.PaymentFilter.ClearFilters | src/infrastructure/adapters/ui/components/payment-filter.ts:96-106 | blanks every input and emits the empty filter, which is what applying blank inputs emits |
| StudentFilterComponent.BlankInputsSelectAll | src/infrastructure/adapters/ui/components/student-filter.ts:34-49 | blank inputs select every student |
| StudentFilterComponent.EmittedSelection | src/infrastructure/adapters/ui/components/student-filter.ts:34-49 | the emitted filter selects exactly the students whose code contains the trimmed input (ignoring case) and whose program is the chosen one |
| StudentFilterComponent.StudentFilter.constructor | src/infrastructure/adapters/ui/components/student-filter.ts:10-11 | both inputs blank |
| StudentFilterComponent.StudentFilter.HandleCodigoChange | src/infrastructure/adapters/ui/components/student-filter.ts:17-20 | stores the code input |
| StudentFilterComponent.StudentFilter.HandleProgramaChange | src/infrastructure/adapters/ui/components/student-filter.ts:26-29 | stores the program input |
| StudentFilterComponent.StudentFilter.ApplyFilters | src/infrastructure/adapters/ui/components/student-filter.ts:34-49 | code present iff non-blank after trimming, program iff non-empty; never a search term |
| StudentFilterComponent.StudentFilter.ClearFilters | src/infrastructure/adapters/ui/components/student-filter.ts:54-62 | blanks both inputs and emits the empty filter |
| PaymentsPageView.DetailActionsExact | src/infrastructure/adapters/ui/pages/payments-page.ts:301-318 | an action to a status is offered iff the transition is PENDIENTE to PAGADO or RECHAZADO, or PAGADO or RECHAZADO back to PENDIENTE; no action keeps the status; none for CREADO or CANCELADO |
| PaymentsPageView.RowActionIsFirstDetailAction | src/infrastructure/adapters/ui/pages/payments-page.ts:221-225 | the table row offers an action only for PENDIENTE, and it is the detail view's first (approve) |
| PaymentsPageView.OfferedTransitionsReversible | src/infrastructure/adapters/ui/pages/payments-page.ts:301-318 | every offered transition can be undone by another offered one; CREADO and CANCELADO are neither sources nor targets |
| PaymentsPageView.TypeLabelRoundTrip | src/infrastructure/adapters/ui/pages/payments-page.ts:344-354 | every type has a non-empty label that reads back to it (labels are distinct) |
| PaymentsPageView.StatusLabelRoundTrip | src/infrastructure/adapters/ui/pages/payments-page.ts:359-377 | every status's label and CSS class read back to it |
| PaymentsPageView.PaymentsPage.constructor | src/infrastructure/adapters/ui/pages/payments-page.ts:12-15 | no filters, no selection, modal closed |
| PaymentsPageView.PaymentsPage.HandleFilter | src/infrastructure/adapters/ui/pages/payments-page.ts:69-71 | stores the filters and triggers a reload |
| PaymentsPageView.PaymentsPage.ShowPaymentDetail | src/infrastructure/adapters/ui/pages/payments-page.ts:76-79 | selects the payment and opens the modal |
| PaymentsPageView.PaymentsPage.CloseDetailModal | src/infrastructure/adapters/ui/pages/payments-page.ts:84-87 | closes the modal and clears the selection |
| PaymentsPageView.PaymentsPage.LoadPayments | src/infrastructure/adapters/ui/pages/payments-page.ts:20-40 | the result is the filtered selection; with no filter key it is every stored payment |
| PaymentsPageView.PaymentsPage.UpdatePaymentStatus | src/infrastructure/adapters/ui/pages/payments-page.ts:107-135 | unknown id: error notification, store and modal untouched; otherwise only that payment's status changes, the list reloads, the modal closes and a success notification shows; filters and the id counter are kept |
| PaymentsPageView.PaymentsPage.ClickDetailAction | src/infrastructure/adapters/ui/pages/payments-page.ts:301-318 | the i-th detail button sets the selected payment's status to that button's target, which the rule offers and which differs from the shown status; every other payment is unchanged, the modal closes, the list reloads and the success notification shows; an unstored payment leaves the store, selection and reload count unchanged and shows the error notification; filters are kept |
| StudentPaymentsPageView.SameActionsAsPaymentsPage | src/infrastructure/adapters/ui/pages/student-payments-page.ts:293-310 | this page offers the same row and detail actions as the payments page |
| StudentPaymentsPageView.DetailActionsExact | src/infrastructure/adapters/ui/pages/student-payments-page.ts:293-310 | an action to a status is offered iff the transition is one the payments page offers; no action keeps the status |
| StudentPaymentsPageView.StudentPaymentsPage.constructor | src/infrastructure/adapters/ui/pages/student-payments-page.ts:14-20 | empty codes, no student, no selection, modal closed |
| StudentPaymentsPageView.StudentPaymentsPage.Updated | src/infrastructure/adapters/ui/pages/student-payments-page.ts:613-619 | a changed, non-empty `studentCode` becomes `codigo`; otherwise `codigo` is kept |
| StudentPaymentsPageView.StudentPaymentsPage.LoadStudent | src/infrastructure/adapters/ui/pages/student-payments-page.ts:25-32 | an empty code loads nothing; otherwise the lookup result |
| StudentPaymentsPageView.StudentPaymentsPage.CompleteStudentLoad | src/infrastructure/adapters/ui/pages/student-payments-page.ts:106-120 | a found student is stored; not found leaves the state as it was |
| StudentPaymentsPageView.StudentPaymentsPage.LoadPayments | src/infrastructure/adapters/ui/pages/student-payments-page.ts:37-44 | an empty code gives no payments; otherwise the use case's answer, an error for an unknown student |
| StudentPaymentsPageView.StudentPaymentsPage.ShowPaymentDetail | src/infrastructure/adapters/ui/pages/student-payments-page.ts:56-59 | selects the id and opens the modal |
| StudentPaymentsPageView.StudentPaymentsPage.CloseDetailModal | src/infrastructure/adapters/ui/pages/student-payments-page.ts:64-67 | closes the modal and clears the id |
| StudentPaymentsPageView.StudentPaymentsPage.RenderDetail | src/infrastructure/adapters/ui/pages/student-payments-page.ts:244-249 | shows a payment iff one in the list has the selected id (the first such); otherwise closes the modal |
| StudentPaymentsPageView.StudentPaymentsPage.UpdatePaymentStatus | src/infrastructure/adapters/ui/pages/student-payments-page.ts:84-102 | unknown id: error notification, store untouched; otherwise only that payment's status changes, payments reload, the modal closes if open, success notification; the codes, the loaded student and the id counter are kept |
| StudentPaymentsPageView.ReloadShowsFixtureStatus | src/infrastructure/adapters/ui/pages/student-payments-page.ts:37-44 | the reload lists EST-001's first payment (id 1) as PAGADO from the fixtures, whatever the store holds |
| AppHeaderView.IsActiveExact | src/infrastructure/adapters/ui/components/app-header.ts:21-24 | a link is active iff the path is its URL or its URL followed by "/" and more |
| AppHeaderView.StudentLinkExamples | src/infrastructure/adapters/ui/components/app-header.ts:37-53 | "/estudiantes" and its sub-paths activate the students link; "/estudiantesX" and "/" do not |
| AppHeaderView.NeverBothActive | src/infrastructure/adapters/ui/components/app-header.ts:37-53 | no path activates both header links |
| Domain.PaymentFilterKeysExact | src/infrastructure/adapters/ui/pages/payments-page.ts:27-31 | a filter key is present iff its property is set; no key iff the filter is empty |

## Left out

- The REST adapters (`payment.api.ts`, `student.api.ts`), `api.config.ts`, the health check, and the polling for services (`waitForServices`). These are network and timing code. The model uses the mock repositories only.
- Wiring and the other screens: `main.ts`, `config.ts`, the router, `app-root`, `students-page`, `student-list`, `api-status`, `not-found-page`, `base-component`, and the Storybook stories. They hold no logic beyond navigation and layout.
- Rendering, asynchrony and timers:
  - templates, CSS and Lit's reactive re-rendering are left out;
  - the `setTimeout` that hides notifications is left out; a notification stays set;
  - `Promise` ordering is not modelled; each awaited call is a method call.
- Events:
  - a `CustomEvent` is a return value; `cancel` events carry nothing and are left out;
  - payment-form `handleSubmit` (building the DTO, sending it, dispatching `notification`) is not modelled, apart from the `validateForm` it calls first;
  - the `isSubmitting` flags of both forms are not modelled.
- Lit `Task` runs:
  - A task also re-runs by itself when its arguments change. Only the explicit guards are modelled: the `>= 3` search guard, the empty-code guards and the filter choice.
  - `PaymentsPage.reloads` and `StudentPaymentsPage.paymentReloads` count task runs. They stand for the new object identity that triggers a run.
- `PaymentsPage.LoadPayments`: the source also checks that `filters` has some key. In the model the filter record has a fixed shape, so "no key" is `PaymentFilterKeys(filters) == {}`. Keys holding explicit `undefined` are not modelled.
- Dates:
  - `new Date(...)` is modelled only for the `YYYY-MM-DD` shape the inputs produce, compared as the number year·10000 + month·100 + day;
  - JavaScript's rollover of out-of-range days and months, and other date formats, are not modelled;
  - today's date is a parameter.
- `Number(...)` is modelled for optionally signed decimal numerals with an optional fraction, and for blank text (0). The exponent form, the `0x` (hexadecimal), `0o` (octal) and `0b` (binary) prefixes, and `Infinity` are read as not-a-number, so such inputs are reported invalid rather than accepted. Amounts are `real`; floating-point rounding is not modelled.
- `toLowerCase` is modelled for ASCII letters only. Unicode case mapping is not modelled.
- Select inputs:
  - The payment filter's status and type selects are `Option` enumerations, so values outside the enumeration cannot occur.
  - The payment form's `type` and `status` fields hold the select's string value, as in the source. Nothing checks that this text names an enumeration value.
- The student payments page's label and class maps are the payments page's maps. They are modelled once, in `PaymentsPageView`.
- Console logging and `try`/`catch` around calls that cannot throw in mock mode are not modelled. Errors that the use cases raise are `Failure` results.
- MockStudentApi.MergeUpdate: a field the update DTO leaves out and a field it sets to `undefined` are treated alike, and both keep the stored value. The object spread in the source would copy an explicit `undefined`. No caller in this model sends one, because the student form always sends all four fields.
- StudentFormComponent.StudentForm.SubmitForm: the success and error notification texts are modelled as constants; the `submit-success`/`submit-error` events are modelled as the returned `SubmitEvent`.
