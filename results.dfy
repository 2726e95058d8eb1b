/**
 * The text cu_print_results writes, as a pure function of the suite's
 * completion flag and of each test case's name and failure record. The
 * output is the sequence of strings its fprintf calls write, one per call;
 * the stream's contents are their concatenation.
 */
module Results {
  import opened Assertions

  /** `assert_type_str`: in this revision it names only the first two kinds. */
  const AssertTypeStr: seq<string> := ["Equal", "True"]

  /** The kinds whose index falls inside `assert_type_str`. */
  predicate HasSuffix(t: AssertType) {
    Index(t) < |AssertTypeStr|
  }

  /** `assert_type_str[info->type]`. */
  function Suffix(t: AssertType): string
    requires HasSuffix(t)
  {
    AssertTypeStr[Index(t)]
  }

  /**
   * Only CU_ASSERT_EQUAL and CU_ASSERT_NOT_EQUAL can be rendered, and the
   * latter renders under the name of the table's second entry.
   */
  lemma SuffixTable(t: AssertType)
    ensures HasSuffix(t) <==> t == Equal || t == NotEqual
    ensures t == Equal ==> Suffix(t) == "Equal"
    ensures t == NotEqual ==> Suffix(t) == "True"
  {
  }

  /** The second write for a failure: the assertion call with its operand texts. */
  function CallLine(info: FailInfo): string
    requires HasSuffix(info.kind)
  {
    match info.arg2
    case Some(a2) => "\tAssert" + Suffix(info.kind) + "(" + info.arg1 + ", " + a2 + ")\n"
    case None => "\tAssert" + Suffix(info.kind) + "(" + info.arg1 + ")\n"
  }

  /** What the renderer sees of one test case. */
  datatype CaseView = CaseView(name: string, failed: int, info: FailInfo)

  predicate Printable(v: CaseView) {
    v.failed != 0 ==> HasSuffix(v.info.kind)
  }

  predicate AllPrintable(vs: seq<CaseView>) {
    forall i :: 0 <= i < |vs| ==> Printable(vs[i])
  }

  /** The writes one test case contributes: none unless it failed. */
  function CaseReport(v: CaseView): seq<string>
    requires Printable(v)
  {
    if v.failed != 0 then ["FAIL: " + v.name + "\n", CallLine(v.info)] else []
  }

  /** The writes of all test cases, in list order. */
  function FailuresReport(vs: seq<CaseView>): seq<string>
    requires AllPrintable(vs)
  {
    if vs == [] then [] else FailuresReport(vs[..|vs| - 1]) + CaseReport(vs[|vs| - 1])
  }

  /** Everything cu_print_results writes: nothing before the suite has completed a run. */
  function Report(completed: int, vs: seq<CaseView>): seq<string>
    requires completed != 0 ==> AllPrintable(vs)
  {
    if completed == 0 then [] else FailuresReport(vs)
  }

  /** Appending one case appends its writes. */
  lemma ReportSnoc(vs: seq<CaseView>, v: CaseView)
    requires AllPrintable(vs) && Printable(v)
    ensures AllPrintable(vs + [v])
    ensures FailuresReport(vs + [v]) == FailuresReport(vs) + CaseReport(v)
  {
    assert (vs + [v])[..|vs|] == vs;
  }

  /** The report of a concatenation of case lists is the concatenation of their reports. */
  lemma {:induction false} FailuresReportAppend(a: seq<CaseView>, b: seq<CaseView>)
    requires AllPrintable(a) && AllPrintable(b)
    ensures AllPrintable(a + b)
    ensures FailuresReport(a + b) == FailuresReport(a) + FailuresReport(b)
  {
    if b == [] {
      assert a + b == a;
    } else {
      var front, last := b[..|b| - 1], b[|b| - 1];
      assert b == front + [last];
      assert Printable(last);
      assert AllPrintable(front) by {
        forall i | 0 <= i < |front| ensures Printable(front[i]) { assert front[i] == b[i]; }
      }
      FailuresReportAppend(a, front);
      ReportSnoc(front, last);
      ReportSnoc(a + front, last);
      assert a + b == (a + front) + [last];
      AppendAssoc(FailuresReport(a), FailuresReport(front), CaseReport(last));
    }
  }

  lemma AppendAssoc<T>(x: seq<T>, y: seq<T>, z: seq<T>)
    ensures (x + y) + z == x + (y + z)
  {
  }

  /** The failed cases of a list, in list order. */
  function OnlyFailed(vs: seq<CaseView>): seq<CaseView> {
    if vs == [] then []
    else
      var last := vs[|vs| - 1];
      OnlyFailed(vs[..|vs| - 1]) + (if last.failed != 0 then [last] else [])
  }

  /** OnlyFailed keeps only failed cases of the list, and all of them. */
  lemma {:induction false} OnlyFailedMembers(vs: seq<CaseView>)
    ensures |OnlyFailed(vs)| <= |vs|
    ensures forall i :: 0 <= i < |OnlyFailed(vs)| ==> OnlyFailed(vs)[i].failed != 0 && OnlyFailed(vs)[i] in vs
    ensures forall v :: v in vs && v.failed != 0 ==> v in OnlyFailed(vs)
  {
    if vs != [] {
      var front, last := vs[..|vs| - 1], vs[|vs| - 1];
      OnlyFailedMembers(front);
      assert vs == front + [last];
    }
  }

  /** Appending one case to the list appends it to the failed ones exactly when it failed. */
  lemma OnlyFailedSnoc(vs: seq<CaseView>, v: CaseView)
    ensures OnlyFailed(vs + [v]) == OnlyFailed(vs) + (if v.failed != 0 then [v] else [])
  {
    assert (vs + [v])[..|vs|] == vs;
  }

  /** A single case is kept exactly when it failed. */
  lemma OnlyFailedSingle(v: CaseView)
    ensures OnlyFailed([v]) == if v.failed != 0 then [v] else []
  {
    OnlyFailedSnoc([], v);
    assert [] + [v] == [v];
  }

  /** OnlyFailed distributes over concatenation, so it keeps the failed cases in list order. */
  lemma {:induction false} OnlyFailedAppend(a: seq<CaseView>, b: seq<CaseView>)
    ensures OnlyFailed(a + b) == OnlyFailed(a) + OnlyFailed(b)
  {
    if b == [] {
      assert a + b == a;
    } else {
      var front, last := b[..|b| - 1], b[|b| - 1];
      var fa, ff, fl := OnlyFailed(a), OnlyFailed(front), if last.failed != 0 then [last] else [];
      calc {
        OnlyFailed(a + b);
        { assert a + b == (a + front) + [last]; }
        OnlyFailed((a + front) + [last]);
        { OnlyFailedSnoc(a + front, last); }
        OnlyFailed(a + front) + fl;
        { OnlyFailedAppend(a, front); }
        (fa + ff) + fl;
        { AppendAssoc(fa, ff, fl); }
        fa + (ff + fl);
        { OnlyFailedSnoc(front, last); assert b == front + [last]; }
        fa + OnlyFailed(b);
      }
    }
  }

  /**
   * How a recorded failure renders: a failing AssertEqual or AssertNotEqual
   * shows the source texts of both operands; a one-operand kind records no
   * second text, and no one-operand kind has a suffix in the table, so
   * every record that can be rendered takes the two-operand form.
   */
  lemma RecordedCallLine(a: Assertion)
    ensures var info := RecordedFor(a);
      && (info.arg2.None? <==> IsUnary(Kind(a.call)))
      && (HasSuffix(info.kind) ==> info.arg2.Some?)
      && (a.call.AssertEqual? ==>
            CallLine(info) == "\tAssert" + "Equal" + "(" + a.call.first + ", " + a.call.second + ")\n")
      && (a.call.AssertNotEqual? ==>
            CallLine(info) == "\tAssert" + "True" + "(" + a.call.first + ", " + a.call.second + ")\n")
  {
    SuffixTable(Kind(a.call));
  }

  /** Passing test cases contribute nothing to the report. */
  lemma {:induction false} PassingCasesAreSilent(vs: seq<CaseView>)
    requires AllPrintable(vs)
    ensures AllPrintable(OnlyFailed(vs))
    ensures FailuresReport(vs) == FailuresReport(OnlyFailed(vs))
  {
    if vs != [] {
      var last := vs[|vs| - 1];
      var front := vs[..|vs| - 1];
      PassingCasesAreSilent(front);
      OnlyFailedMembers(front);
      var tail := if last.failed != 0 then [last] else [];
      assert AllPrintable(tail);
      FailuresReportAppend(OnlyFailed(front), tail);
      if last.failed != 0 {
        assert tail[..0] == [];
      }
    }
  }

  /** A list of test cases none of which failed renders as nothing. */
  lemma {:induction false} AllPassingIsSilent(vs: seq<CaseView>)
    requires forall i :: 0 <= i < |vs| ==> vs[i].failed == 0
    ensures AllPrintable(vs) && FailuresReport(vs) == []
  {
    if vs != [] {
      AllPassingIsSilent(vs[..|vs| - 1]);
    }
  }
}
