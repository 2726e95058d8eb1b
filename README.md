# cutest runtime model

A Dafny model of the cutest unit-test runtime, as written in `cutest.c` and
`cutest.h` at this revision. It covers the following:

- A **test suite** is a singly linked list of test cases with `head` and
  `tail` pointers. `cu_add_test` appends to it in O(1). The model is the
  class `CuTest.Suite`. Its ghost sequence `cases` is the list, and
  `Valid()` ties `head`, `tail` and every `next` link to that sequence.
- A **test case** is `CuTest.TestCase`. It holds a name, a test function, a
  `failed` flag and a failure record (`struct fail_info`). `cu_set_failed`
  overwrites that record in place.
- The **assertion protocol** is in module `Assertions`. It covers the eight
  `CuAssertType` kinds and the `CuAssertArg` tagged union. The `Assert*`
  macros fill two arguments from their operands. The `CuAssert` macro
  returns from the test function as soon as `cu_do_assertion` reports a
  failure. A test function is modelled by its body, the sequence of
  assertion calls it reaches (`TestBody`). Running it is a loop that stops
  at the first failing assertion (`CuTest.TestCase.Run`).
- The **run loop** `cu_run_tests` walks the list once, in order, and then
  sets `completed`.
- The **report printer** `cu_print_results` is modelled in two parts:
  - `Results.Report` is a pure function from the completion flag and each
    case's name, flag and failure record to the sequence of strings the
    printer writes, one per `fprintf` call.
  - `CuTest.Suite.PrintResults` walks the list like the C loop does, and is
    proved to produce exactly that sequence.

The comparison inside `cu_do_assertion` is not defined in `cutest.c` or
`cutest.h`. It is the uninterpreted parameter `check: Check`, which is true
when an assertion holds.

At this revision the code has none of the following, and neither does the
model:

- a case count, failure count, timer, progress characters or summary line;
- string duplication;
- a suffix for every kind: `assert_type_str` has only the two entries
  "Equal" and "True";
- an initial value for `completed`.

## Model

| member | source | states |
|---|---|---|
| Assertions.Index | cutest.h:58-68 | each kind's C enumerator value is below 8 |
| Assertions.FromIndex | cutest.h:58-68 | every value 0..7 names the kind whose enumerator value it is |
| Assertions.IndexRoundTrip | cutest.h:58-68 | enumerator values are distinct, so there are exactly eight kinds in declaration order |
| Assertions.ToCInt | cutest.h:39-40 | an integer operand stored in the `int` member lands in the 32-bit range, congruent modulo 2^32 to the operand, and is unchanged when it already fits |
| Assertions.Expand | cutest.h:33-40 | CuAssert passes on the kind its macro names, and `arg1.expr` is the first operand's source text |
| Assertions.MacroArguments | cutest.h:9-40 | both arguments are stored in the union member the macro fixes (`i` for (Not)Equal/True/False, `s` for Str(Not)Equal, `p` for (Not)Null); each `expr` is the operand's text whatever its value; one-operand macros pass the literal `0` as second argument with text "0"; integer values fit in `int` |
| Assertions.RecoverExpand | cutest.h:9-40 | the macro call can be read back from its expansion, losing only integer width |
| Assertions.ExpandRecover | cutest.h:33-40 | every well-tagged argument pair with in-range integers is the expansion of exactly the call read back from it |
| Assertions.FirstFailure | cutest.h:41-42 | the reported position lies within the body |
| Assertions.FirstFailureIsFirst | cutest.h:41-42 | a failing assertion preceded only by passing ones is the first failure |
| Assertions.NoFailure | cutest.h:41-42 | no failure is found exactly when every assertion of the body passes |
| Assertions.FirstFailureSound | cutest.h:41-42 | the first failure found fails, and every assertion before it passes |
| Assertions.Executed | cutest.h:41-42 | no more assertions execute than the body has |
| Assertions.ExecutedFailFast | cutest.h:41-42 | all executed assertions but the last passed; execution stops early only after a failing one; all run when none fails |
| Assertions.FailFast | cutest.h:41-42 | no assertion after a failing one executes |
| Results.SuffixTable | cutest.c:10-12 | only kinds 0 and 1 have a suffix; Equal renders "Equal" and NotEqual renders "True" |
| Results.RecordedCallLine | cutest.c:110-116 | a failure record has no second text exactly for the one-operand kinds, and every kind with a suffix has a second text, so only the two-operand form is ever rendered; a failing AssertEqual renders as `\tAssertEqual(<first>, <second>)` and a failing AssertNotEqual as `\tAssertTrue(<first>, <second>)` with the operands' source texts |
| Results.FailuresReportAppend | cutest.c:105-118 | the report of two concatenated case lists is the concatenation of their reports |
| Results.OnlyFailedMembers | cutest.c:107 | the failed cases of a list: no more than the list, only failed cases, each from the list, and every failed case of the list |
| Results.OnlyFailedSingle | cutest.c:107 | a single case is kept exactly when it failed |
| Results.OnlyFailedAppend | cutest.c:105-107 | the failed cases of two concatenated lists are those of the first followed by those of the second, so the filter keeps list order and multiplicity |
| Results.PassingCasesAreSilent | cutest.c:105-118 | passing cases contribute nothing: the report equals that of the failed cases alone |
| Results.AllPassingIsSilent | cutest.c:105-118 | a list where no case failed renders as nothing |
| CuTest.TestCase.constructor | cutest.c:47-57 | a new case has `next` NULL, `failed` 0, and exactly the given function and name |
| CuTest.TestCase.SetFailed | cutest.c:72-85 | the record holds the given arg1, arg2, file, line and kind; `failed` is 1; `next`, `func` and `name` are untouched |
| CuTest.TestCase.DoAssertion | cutest.h:101-110 | returns 0 exactly when the assertion fails; then the case is marked failed with the assertion recorded; otherwise the case is unchanged |
| CuTest.TestCase.Run | cutest.h:33-43 | running the test function leaves the case as AfterRun says (first failure recorded, else unchanged) and executes exactly `Executed` assertions |
| CuTest.RunMarksFailure | cutest.h:33-43 | after a run a case is failed exactly when it already was or one of its assertions fails; a passing body leaves the case as it was |
| CuTest.RunPrintable | cutest.c:110 | a case whose first failing assertion is an AssertEqual or AssertNotEqual stays renderable after the run |
| CuTest.FailedRunReport | cutest.c:107-116 | a case whose test function stopped at a failing AssertEqual or AssertNotEqual reports "FAIL: <name>" and then that call with both operands' source texts |
| CuTest.Suite.constructor | cutest.c:37-45 | a new suite has `head` and `tail` NULL and represents the empty list |
| CuTest.Suite.AddTest | cutest.c:59-70 | the list invariant is kept; the cases are the old ones in order followed by the new case, which is the new tail |
| CuTest.Suite.RunTests | cutest.c:87-97 | every case's function is called once, in list order, and the assertions each call executed are exactly Executed of its body; each case ends as AfterRun of its body; the list is unchanged; `completed` is 1 |
| CuTest.Suite.PrintResults | cutest.c:99-120 | the writes are exactly `Report(completed, cases)`: nothing unless completed, else "FAIL: name" and the one- or two-operand call line for each failed case in list order; the suite is not modified, so printing twice writes the same |
| CuTest.AddTestCase | cutest.h:6-7 | a fresh case named by the function's identifier text is appended to the suite |

## Left out

- `main.c` is not part of this model. It is a demo driver, and it calls `cu_run_tests` with two arguments where the declaration takes one.
- Output goes to a `FILE *` through `fprintf`. The model returns the sequence of written strings instead of writing to a stream.
- `malloc` is modelled by allocating a fresh object. The source never checks for an allocation failure, and neither does the model.
- The comparison semantics of `cu_do_assertion` are not defined in `cutest.c` or `cutest.h`. They are the uninterpreted `check` parameter.
- What `cu_do_assertion` stores when an assertion fails is also not defined there. The model passes the operands' source texts to `cu_set_failed`, and a NULL second text for the one-operand kinds.
- CuTest.TestCase.DoAssertion: the comment at cutest.h:101-106 states only the failing direction, which is 0 returned and the case marked failed. That a passing assertion returns nonzero and leaves the case untouched is the model's assumption. CuTest.TestCase.Run, CuTest.Suite.RunTests and CuTest.RunMarksFailure rely on it.
- Assertions.ToCInt: converting an out-of-range value to `int` is implementation-defined in C. The model picks two's-complement wrap-around.
- Test functions are C function pointers to opaque user code. They are modelled as the sequence of assertion calls they reach, so other side effects of a test function are not captured.
- Reading a `CuAssertArg` through a different union member than the one written is undefined behaviour in C. The model makes the tag explicit and never reads the wrong member.
- Pointer values are abstract: NULL or an address. Text operands are Dafny strings, so a NULL `char const *` operand cannot be expressed.
- CuTest.Suite.AddTest: requires the added case to have `next` NULL and not to be in the list already. The C code has no such check. Appending a case already in the list builds a cycle or cuts the list short. Appending a new case whose `next` is not NULL splices its successors into the list and leaves `tail` short of the last case.
- CuTest.Suite.PrintResults: requires every failed case to have a kind with a suffix, kind index 0 or 1. `assert_type_str` has two entries and is indexed by the kind, so any other failed kind is an out-of-bounds read in C.
- CuTest.TestCase.constructor: does not initialise the failure record. `cu_new_test_case` leaves `fail_info` uninitialised, so nothing is claimed about it.
- CuTest.Suite.constructor: does not initialise `completed`. `cu_new_test_suite` leaves it uninitialised, so nothing is claimed about it.
- A case that is added twice, aliasing between suites, and freeing are not modelled.
