/**
 * The runtime of cutest.c: test cases, the suite's singly linked list of
 * them with head and tail pointers, failure capture, the run loop and the
 * report printer. A test function is modelled by its body, the sequence of
 * assertions it reaches; the comparison cu_do_assertion performs is the
 * uninterpreted `check` passed to the run.
 */
module CuTest {
  import opened Assertions
  import opened Results

  /** `struct cu_test_case`. */
  class TestCase {
    var next: TestCase?
    var func: TestBody
    var name: string
    var info: FailInfo
    var failed: int

    /** cu_new_test_case: `fail_info` is left uninitialised, as in the source. */
    constructor (func: TestBody, name: string)
      ensures next == null && this.func == func && this.name == name && failed == 0
    {
      next := null;
      this.func := func;
      this.name := name;
      failed := 0;
    }

    /** What the report printer reads of this case. */
    function View(): CaseView
      reads this`name, this`failed, this`info
    {
      CaseView(name, failed, info)
    }

    /** cu_set_failed: overwrite the failure record field by field and mark the case failed. */
    method SetFailed(kind: AssertType, file: string, line: int, arg1: string, arg2: Option<string>)
      modifies this`info, this`failed
      ensures info == FailInfo(arg1, arg2, file, line, kind) && failed == 1
      ensures next == old(next) && func == old(func) && name == old(name)
    {
      info := info.(arg1 := arg1);
      info := info.(arg2 := arg2);
      info := info.(file := file);
      info := info.(line := line);
      info := info.(kind := kind);
      failed := 1;
    }

    /**
     * cu_do_assertion: when the assertion fails, the case is marked failed
     * and 0 is returned; a passing assertion changes nothing.
     */
    method DoAssertion(check: Check, kind: AssertType, arg1: AssertArg, arg2: AssertArg, file: string, line: int)
      returns (r: int)
      modifies this`info, this`failed
      ensures r == 0 <==> !check(kind, arg1, arg2)
      ensures r == 0 ==> failed == 1 && info == Recorded(kind, arg1, arg2, file, line)
      ensures r != 0 ==> failed == old(failed) && info == old(info)
    {
      if check(kind, arg1, arg2) {
        r := 1;
      } else {
        SetFailed(kind, file, line, arg1.expr, if IsUnary(kind) then None else Some(arg2.expr));
        r := 0;
      }
    }

    /**
     * `tc->func(tc)`: the test function's assertions run in order, each one
     * through CuAssert, and the function returns at the first that fails.
     * Returns how many assertions ran.
     */
    method Run(check: Check) returns (executed: nat)
      modifies this`info, this`failed
      ensures View() == AfterRun(old(View()), func, check)
      ensures executed == Executed(func, check)
    {
      executed := 0;
      while executed < |func|
        invariant executed <= |func|
        invariant forall j :: 0 <= j < executed ==> Passes(func[j], check)
        invariant View() == old(View())
      {
        var a := func[executed];
        var e := Expand(a.call);
        var ok := DoAssertion(check, e.kind, e.arg1, e.arg2, a.file, a.line);
        if ok == 0 {
          FirstFailureIsFirst(func, check, executed);
          executed := executed + 1;
          return;
        }
        executed := executed + 1;
      }
      NoFailure(func, check);
    }
  }

  /** A case's state after its test function ran: the first failing assertion, if any, is recorded. */
  function AfterRun(v: CaseView, body: TestBody, check: Check): CaseView {
    match FirstFailure(body, check)
    case None => v
    case Some(k) => v.(failed := 1, info := RecordedFor(body[k]))
  }

  /**
   * After a run a case is marked failed exactly when it already was or one
   * of its assertions fails; its name is never touched, and a passing body
   * leaves the failure record as it was.
   */
  lemma RunMarksFailure(v: CaseView, body: TestBody, check: Check)
    ensures var w := AfterRun(v, body, check);
      && w.name == v.name
      && (w.failed != 0 <==> v.failed != 0 || exists j :: 0 <= j < |body| && !Passes(body[j], check))
      && ((forall j :: 0 <= j < |body| ==> Passes(body[j], check)) ==> w == v)
  {
    NoFailure(body, check);
    FirstFailureSound(body, check);
  }

  /**
   * A case whose first failing assertion is an AssertEqual or an
   * AssertNotEqual can be rendered after the run: its kind is one the
   * two-entry suffix table covers.
   */
  lemma RunPrintable(v: CaseView, body: TestBody, check: Check)
    requires Printable(v)
    requires FirstFailure(body, check).Some? ==>
      body[FirstFailure(body, check).value].call.AssertEqual? || body[FirstFailure(body, check).value].call.AssertNotEqual?
    ensures Printable(AfterRun(v, body, check))
  {
  }

  /**
   * What the report shows for a case whose test function stopped at a
   * failing AssertEqual or AssertNotEqual: the case's name, then the call
   * with the source texts of both operands.
   */
  lemma FailedRunReport(v: CaseView, body: TestBody, check: Check, k: nat)
    requires k < |body| && !Passes(body[k], check)
    requires forall j :: 0 <= j < k ==> Passes(body[j], check)
    requires body[k].call.AssertEqual? || body[k].call.AssertNotEqual?
    ensures Printable(AfterRun(v, body, check))
    ensures CaseReport(AfterRun(v, body, check)) ==
      ["FAIL: " + v.name + "\n",
       "\tAssert" + (if body[k].call.AssertEqual? then "Equal" else "True") + "(" + body[k].call.first + ", " + body[k].call.second + ")\n"]
  {
    FirstFailureIsFirst(body, check, k);
    RecordedCallLine(body[k]);
  }

  /** The views of a list of cases, in list order. */
  ghost function Views(cs: seq<TestCase>): (vs: seq<CaseView>)
    reads cs
    ensures |vs| == |cs|
    ensures forall i :: 0 <= i < |cs| ==> vs[i] == cs[i].View()
  {
    if cs == [] then [] else Views(cs[..|cs| - 1]) + [cs[|cs| - 1].View()]
  }

  /** `struct cu_test_suite`. `cases` is the list reached from `head` by `next`. */
  class Suite {
    var head: TestCase?
    var tail: TestCase?
    var completed: int
    ghost var cases: seq<TestCase>

    /**
     * The list invariant: `head` and `tail` are both NULL exactly when the
     * list is empty, otherwise the first and last case; each case's `next`
     * is its successor and the last one's is NULL; no case occurs twice, so
     * following `next` from `head` reaches NULL after |cases| steps.
     */
    ghost predicate Valid()
      reads this`head, this`tail, this`cases, cases`next
    {
      && (head == null <==> cases == [])
      && (tail == null <==> cases == [])
      && (cases != [] ==> head == cases[0] && tail == cases[|cases| - 1] && tail.next == null)
      && (forall i :: 0 <= i < |cases| - 1 ==> cases[i].next == cases[i + 1])
      && (forall i, j :: 0 <= i < j < |cases| ==> cases[i] != cases[j])
    }

    ghost function View(): seq<CaseView>
      reads this, cases
    {
      Views(cases)
    }

    /** cu_new_test_suite: an empty list; `completed` is left uninitialised, as in the source. */
    constructor ()
      ensures head == null && tail == null
      ensures Valid() && cases == []
    {
      head := null;
      tail := null;
      cases := [];
    }

    /** cu_add_test: O(1) append through `tail`. */
    method AddTest(tc: TestCase)
      requires Valid()
      requires tc.next == null && tc !in cases
      modifies this`head, this`tail, this`cases, (if tail == null then {} else {tail})`next
      ensures Valid()
      ensures cases == old(cases) + [tc]
      ensures head == old(if head == null then tc else head) && tail == tc
    {
      if tail != null {
        tail.next := tc;
      } else {
        head := tc;
      }
      tail := tc;
      cases := cases + [tc];
    }

    /**
     * cu_run_tests: every case's test function runs once, in list order,
     * and then `completed` is set. `visited` lists the cases in the order
     * their functions were called, and `ran[i]` is how many assertions the
     * one call of case i's function executed.
     */
    method RunTests(check: Check) returns (ghost visited: seq<TestCase>, ghost ran: seq<nat>)
      requires Valid()
      modifies this`completed, cases`info, cases`failed
      ensures Valid() && cases == old(cases) && completed == 1
      ensures visited == cases
      ensures |ran| == |cases| && forall i :: 0 <= i < |cases| ==> ran[i] == Executed(cases[i].func, check)
      ensures forall i :: 0 <= i < |cases| ==> cases[i].View() == AfterRun(old(cases[i].View()), cases[i].func, check)
    {
      visited, ran := [], [];
      var tc := head;
      ghost var k := 0;
      while tc != null
        invariant 0 <= k <= |cases|
        invariant tc == if k < |cases| then cases[k] else null
        invariant visited == cases[..k]
        invariant |ran| == k
        invariant forall i :: 0 <= i < k ==> ran[i] == Executed(cases[i].func, check)
        invariant forall i :: 0 <= i < k ==> cases[i].View() == AfterRun(old(cases[i].View()), cases[i].func, check)
        invariant forall i :: k <= i < |cases| ==> unchanged(cases[i])
        decreases |cases| - k
      {
        var executed := tc.Run(check);
        visited, ran := visited + [tc], ran + [executed];
        tc := tc.next;
        k := k + 1;
      }
      completed := 1;
    }

    /**
     * cu_print_results: the strings written to the stream, which are
     * exactly the report of the suite's current state (so printing twice
     * writes the same text, and nothing is written before a run).
     */
    method PrintResults() returns (out: seq<string>)
      requires Valid()
      requires completed != 0 ==> AllPrintable(View())
      ensures out == Report(completed, View())
      ensures completed == 0 ==> out == []
    {
      out := [];
      if completed != 0 {
        ghost var vs := View();
        var tc := head;
        ghost var k := 0;
        while tc != null
          invariant 0 <= k <= |cases|
          invariant tc == if k < |cases| then cases[k] else null
          invariant out == FailuresReport(vs[..k])
          decreases |cases| - k
        {
          if tc.failed != 0 {
            var info := tc.info;
            var suffix := AssertTypeStr[Index(info.kind)];
            out := out + ["FAIL: " + tc.name + "\n"];
            if info.arg2 != None {
              out := out + ["\tAssert" + suffix + "(" + info.arg1 + ", " + info.arg2.value + ")\n"];
            } else {
              out := out + ["\tAssert" + suffix + "(" + info.arg1 + ")\n"];
            }
          }
          assert vs[..k + 1][..k] == vs[..k];
          tc := tc.next;
          k := k + 1;
        }
        assert vs[..k] == vs;
      }
    }
  }

  /** cu_add_test(suite, cu_new_test_case(func, #func)); `funcName` is the stringized identifier. */
  method AddTestCase(suite: Suite, func: TestBody, funcName: string) returns (tc: TestCase)
    requires suite.Valid()
    modifies suite`head, suite`tail, suite`cases, (if suite.tail == null then {} else {suite.tail})`next
    ensures fresh(tc)
    ensures tc.func == func && tc.name == funcName && tc.failed == 0 && tc.next == null
    ensures suite.Valid() && suite.cases == old(suite.cases) + [tc]
  {
    tc := new TestCase(func, funcName);
    suite.AddTest(tc);
  }
}
