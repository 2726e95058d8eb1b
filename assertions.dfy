/**
 * The assertion vocabulary of cutest.h: the eight assertion kinds, the
 * tagged argument value, the Assert* macros that fill two arguments from
 * their operands, and the fail-fast protocol of the CuAssert macro (a test
 * body stops at its first failing assertion).
 */
module Assertions {

  datatype Option<T> = None | Some(value: T)

  /** CuAssertType, in declaration order (CU_ASSERT_EQUAL is 0 ... CU_ASSERT_NOT_NULL is 7). */
  datatype AssertType = Equal | NotEqual | StrEqual | StrNotEqual | True | False | Null | NotNull

  /** Number of enumerators of CuAssertType. */
  const KindCount: nat := 8

  /** The integer value C gives each enumerator. */
  function Index(t: AssertType): (r: nat)
    ensures r < KindCount
  {
    match t
    case Equal => 0
    case NotEqual => 1
    case StrEqual => 2
    case StrNotEqual => 3
    case True => 4
    case False => 5
    case Null => 6
    case NotNull => 7
  }

  /** The enumerator with a given integer value. */
  function FromIndex(i: nat): (t: AssertType)
    requires i < KindCount
    ensures Index(t) == i
  {
    if i == 0 then Equal
    else if i == 1 then NotEqual
    else if i == 2 then StrEqual
    else if i == 3 then StrNotEqual
    else if i == 4 then True
    else if i == 5 then False
    else if i == 6 then Null
    else NotNull
  }

  /** Distinct enumerators have distinct values, so the enum has exactly KindCount kinds. */
  lemma IndexRoundTrip(t: AssertType)
    ensures FromIndex(Index(t)) == t
  {
  }

  /** The one-operand kinds: their macros pass the literal `0` as second operand. */
  predicate IsUnary(t: AssertType) {
    t == True || t == False || t == Null || t == NotNull
  }

  /** The member of `union cu_value` that a kind's macro writes. */
  datatype Member = IntMember | StrMember | PtrMember

  function MemberOf(t: AssertType): Member {
    match t
    case Equal | NotEqual | True | False => IntMember
    case StrEqual | StrNotEqual => StrMember
    case Null | NotNull => PtrMember
  }

  /** A `void const *` value: NULL or some other address. */
  datatype Pointer = NullPtr | Addr(addr: nat)

  /** `union cu_value`, with its tag made explicit. */
  datatype Value = Int(i: int) | Ptr(p: Pointer) | Str(s: string)

  predicate Stores(v: Value, m: Member) {
    match m
    case IntMember => v.Int?
    case StrMember => v.Str?
    case PtrMember => v.Ptr?
  }

  /** CuAssertArg: the operand's stringized source text and its value. */
  datatype AssertArg = AssertArg(expr: string, value: Value)

  const IntMin: int := -0x8000_0000
  const IntMax: int := 0x7FFF_FFFF
  const IntModulus: int := 0x1_0000_0000

  /** Conversion of an integer operand to the 32-bit `int` member (two's complement wrap-around). */
  function ToCInt(x: int): (r: int)
    ensures IntMin <= r <= IntMax
    ensures (x - r) % IntModulus == 0
    ensures IntMin <= x <= IntMax ==> r == x
  {
    var m := x % IntModulus;
    if m <= IntMax then m else m - IntModulus
  }

  /**
   * One use of an Assert* macro: the source text and the value of each
   * operand as written at the call site. `AssertTrue`, `AssertFalse`,
   * `AssertNull` and `AssertNotNull` take one operand.
   */
  datatype MacroCall =
    | AssertEqual(first: string, firstInt: int, second: string, secondInt: int)
    | AssertNotEqual(first: string, firstInt: int, second: string, secondInt: int)
    | AssertStrEqual(first: string, firstStr: string, second: string, secondStr: string)
    | AssertStrNotEqual(first: string, firstStr: string, second: string, secondStr: string)
    | AssertTrue(first: string, firstInt: int)
    | AssertFalse(first: string, firstInt: int)
    | AssertNull(first: string, firstPtr: Pointer)
    | AssertNotNull(first: string, firstPtr: Pointer)

  /** The assertion kind each macro passes to CuAssert. */
  function Kind(c: MacroCall): AssertType {
    match c
    case AssertEqual(_, _, _, _) => Equal
    case AssertNotEqual(_, _, _, _) => NotEqual
    case AssertStrEqual(_, _, _, _) => StrEqual
    case AssertStrNotEqual(_, _, _, _) => StrNotEqual
    case AssertTrue(_, _) => True
    case AssertFalse(_, _) => False
    case AssertNull(_, _) => Null
    case AssertNotNull(_, _) => NotNull
  }

  /** What CuAssert hands to cu_do_assertion: the kind and the two filled arguments. */
  datatype Expansion = Expansion(kind: AssertType, arg1: AssertArg, arg2: AssertArg)

  /** The CuAssert macro's filling of `arg1` and `arg2` (see MacroArguments). */
  function Expand(c: MacroCall): (e: Expansion)
    ensures e.kind == Kind(c)
    ensures e.arg1.expr == c.first
  {
    match c
    case AssertEqual(f, x, s, y) => Expansion(Equal, AssertArg(f, Int(ToCInt(x))), AssertArg(s, Int(ToCInt(y))))
    case AssertNotEqual(f, x, s, y) => Expansion(NotEqual, AssertArg(f, Int(ToCInt(x))), AssertArg(s, Int(ToCInt(y))))
    case AssertStrEqual(f, x, s, y) => Expansion(StrEqual, AssertArg(f, Str(x)), AssertArg(s, Str(y)))
    case AssertStrNotEqual(f, x, s, y) => Expansion(StrNotEqual, AssertArg(f, Str(x)), AssertArg(s, Str(y)))
    case AssertTrue(f, x) => Expansion(True, AssertArg(f, Int(ToCInt(x))), AssertArg("0", Int(0)))
    case AssertFalse(f, x) => Expansion(False, AssertArg(f, Int(ToCInt(x))), AssertArg("0", Int(0)))
    case AssertNull(f, p) => Expansion(Null, AssertArg(f, Ptr(p)), AssertArg("0", Ptr(NullPtr)))
    case AssertNotNull(f, p) => Expansion(NotNull, AssertArg(f, Ptr(p)), AssertArg("0", Ptr(NullPtr)))
  }

  /**
   * What CuAssert stores: each `expr` is the operand's source text,
   * whatever its value; both values go into the union member fixed by the
   * macro; integers fit the 32-bit `int` member; and a one-operand macro's
   * second operand is the literal `0`.
   */
  lemma MacroArguments(c: MacroCall)
    ensures var e := Expand(c);
      && Stores(e.arg1.value, MemberOf(e.kind)) && Stores(e.arg2.value, MemberOf(e.kind))
      && e.arg1.expr == c.first
      && (!IsUnary(e.kind) ==> e.arg2.expr == c.second)
      && (IsUnary(e.kind) ==> e.arg2 == AssertArg("0", if MemberOf(e.kind) == IntMember then Int(0) else Ptr(NullPtr)))
      && (e.arg1.value.Int? ==> IntMin <= e.arg1.value.i <= IntMax)
      && (e.arg2.value.Int? ==> IntMin <= e.arg2.value.i <= IntMax)
  {
  }

  /** A macro call with its integer operands already converted to `int`. */
  function Normalize(c: MacroCall): MacroCall {
    match c
    case AssertEqual(f, x, s, y) => AssertEqual(f, ToCInt(x), s, ToCInt(y))
    case AssertNotEqual(f, x, s, y) => AssertNotEqual(f, ToCInt(x), s, ToCInt(y))
    case AssertTrue(f, x) => AssertTrue(f, ToCInt(x))
    case AssertFalse(f, x) => AssertFalse(f, ToCInt(x))
    case _ => c
  }

  /** The macro call, if any, that CuAssert would expand into `e`. */
  function Recover(e: Expansion): Option<MacroCall> {
    var a1, a2 := e.arg1, e.arg2;
    match e.kind
    case Equal =>
      if a1.value.Int? && a2.value.Int? then Some(AssertEqual(a1.expr, a1.value.i, a2.expr, a2.value.i)) else None
    case NotEqual =>
      if a1.value.Int? && a2.value.Int? then Some(AssertNotEqual(a1.expr, a1.value.i, a2.expr, a2.value.i)) else None
    case StrEqual =>
      if a1.value.Str? && a2.value.Str? then Some(AssertStrEqual(a1.expr, a1.value.s, a2.expr, a2.value.s)) else None
    case StrNotEqual =>
      if a1.value.Str? && a2.value.Str? then Some(AssertStrNotEqual(a1.expr, a1.value.s, a2.expr, a2.value.s)) else None
    case True =>
      if a1.value.Int? && a2 == AssertArg("0", Int(0)) then Some(AssertTrue(a1.expr, a1.value.i)) else None
    case False =>
      if a1.value.Int? && a2 == AssertArg("0", Int(0)) then Some(AssertFalse(a1.expr, a1.value.i)) else None
    case Null =>
      if a1.value.Ptr? && a2 == AssertArg("0", Ptr(NullPtr)) then Some(AssertNull(a1.expr, a1.value.p)) else None
    case NotNull =>
      if a1.value.Ptr? && a2 == AssertArg("0", Ptr(NullPtr)) then Some(AssertNotNull(a1.expr, a1.value.p)) else None
  }

  /** The macro expansion loses nothing but the width of integer operands. */
  lemma RecoverExpand(c: MacroCall)
    ensures Recover(Expand(c)) == Some(Normalize(c))
  {
  }

  /** Every recoverable argument pair with in-range integers is the expansion of its macro call. */
  lemma ExpandRecover(e: Expansion)
    requires Recover(e).Some?
    requires e.arg1.value.Int? ==> IntMin <= e.arg1.value.i <= IntMax
    requires e.arg2.value.Int? ==> IntMin <= e.arg2.value.i <= IntMax
    ensures Expand(Recover(e).value) == e
  {
  }

  /** One CuAssert statement in a test function, with its `__FILE__` and `__LINE__`. */
  datatype Assertion = Assertion(call: MacroCall, file: string, line: int)

  /** A test function's body: the assertions it reaches, in order. */
  type TestBody = seq<Assertion>

  /**
   * The comparison inside cu_do_assertion, which this model leaves
   * uninterpreted: true when the assertion holds.
   */
  type Check = (AssertType, AssertArg, AssertArg) -> bool

  predicate Passes(a: Assertion, check: Check) {
    var e := Expand(a.call);
    check(e.kind, e.arg1, e.arg2)
  }

  /** The position of the first failing assertion of a body, if any. */
  function FirstFailure(body: TestBody, check: Check): (r: Option<nat>)
    ensures r.Some? ==> r.value < |body|
  {
    if body == [] then None
    else if !Passes(body[0], check) then Some(0)
    else
      match FirstFailure(body[1..], check)
      case None => None
      case Some(k) => Some(k + 1)
  }

  /** FirstFailure finds a failing assertion before which every assertion passes. */
  lemma {:induction false} FirstFailureIsFirst(body: TestBody, check: Check, i: nat)
    requires i < |body| && !Passes(body[i], check)
    requires forall j :: 0 <= j < i ==> Passes(body[j], check)
    ensures FirstFailure(body, check) == Some(i)
  {
    if i > 0 {
      FirstFailureIsFirst(body[1..], check, i - 1);
    }
  }

  /** FirstFailure finds nothing exactly when every assertion passes. */
  lemma {:induction false} NoFailure(body: TestBody, check: Check)
    ensures FirstFailure(body, check).None? <==> forall j :: 0 <= j < |body| ==> Passes(body[j], check)
  {
    if body != [] {
      NoFailure(body[1..], check);
      assert forall j :: 1 <= j < |body| ==> body[j] == body[1..][j - 1];
    }
  }

  /** What FirstFailure reports is a failing assertion with only passing ones before it. */
  lemma {:induction false} FirstFailureSound(body: TestBody, check: Check)
    ensures FirstFailure(body, check).Some? ==>
      var k := FirstFailure(body, check).value;
      !Passes(body[k], check) && forall j :: 0 <= j < k ==> Passes(body[j], check)
  {
    if body != [] && Passes(body[0], check) {
      FirstFailureSound(body[1..], check);
      assert forall j :: 1 <= j < |body| ==> body[j] == body[1..][j - 1];
    }
  }

  /**
   * How many assertions of a body execute under the CuAssert fail-fast
   * rule: all of them when all pass, otherwise up to and including the
   * first failing one.
   */
  function Executed(body: TestBody, check: Check): (n: nat)
    ensures n <= |body|
  {
    match FirstFailure(body, check)
    case None => |body|
    case Some(k) => k + 1
  }

  /**
   * The fail-fast rule: every assertion but the last executed one passed,
   * the last one failed when execution stopped early, and all of them run
   * when none fails.
   */
  lemma ExecutedFailFast(body: TestBody, check: Check)
    ensures var n := Executed(body, check);
      && (forall j :: 0 <= j < n - 1 ==> Passes(body[j], check))
      && (n < |body| ==> 0 < n && !Passes(body[n - 1], check))
      && ((forall j :: 0 <= j < |body| ==> Passes(body[j], check)) ==> n == |body|)
  {
    NoFailure(body, check);
    FirstFailureSound(body, check);
  }

  /** A failing assertion is the last one a test body executes; nothing after it runs. */
  lemma FailFast(body: TestBody, check: Check, i: nat)
    requires i < |body| && !Passes(body[i], check)
    ensures Executed(body, check) <= i + 1
  {
    NoFailure(body, check);
    FirstFailureSound(body, check);
  }

  /**
   * `struct fail_info`: the operand texts, the call site and the kind of a
   * failing assertion. `arg2` is None where the C pointer is NULL.
   */
  datatype FailInfo = FailInfo(arg1: string, arg2: Option<string>, file: string, line: int, kind: AssertType)

  /**
   * What cu_do_assertion records for a failing assertion: the operand
   * texts (no second text for a one-operand kind), the call site and the kind.
   */
  function Recorded(kind: AssertType, arg1: AssertArg, arg2: AssertArg, file: string, line: int): FailInfo
  {
    FailInfo(arg1.expr, if IsUnary(kind) then None else Some(arg2.expr), file, line, kind)
  }

  /** The record of a failing assertion statement. */
  function RecordedFor(a: Assertion): FailInfo {
    var e := Expand(a.call);
    Recorded(e.kind, e.arg1, e.arg2, a.file, a.line)
  }
}
