/** What `CodeGenerator.validate`, `validateTest` and `checkUnusedVariables` compute,
    as functions of the program: the error `generate` throws before emitting anything,
    and the unused-variable warnings. */
module Validation {
  import opened Wrappers
  import opened JavaString
  import opened Ast
  import opened Exceptions

  const NoTestsMessage := "Program must contain at least one test block"
  const NoRequestMessage := "Test must contain at least one HTTP request (GET/POST/PUT/DELETE)"

  function TooFewAssertionsMessage(found: int): string {
    "Test must contain at least 2 assertions (found " + IntToString(found) + ")"
  }

  /** Number of requests among the statements. */
  function RequestCount(ss: seq<Statement>): nat
    decreases |ss|
  {
    if ss == [] then 0
    else RequestCount(ss[..|ss| - 1]) + (if ss[|ss| - 1].RequestStatement? then 1 else 0)
  }

  /** Number of assertions among the statements. */
  function AssertionCount(ss: seq<Statement>): nat
    decreases |ss|
  {
    if ss == [] then 0
    else AssertionCount(ss[..|ss| - 1]) + (if ss[|ss| - 1].AssertionStatement? then 1 else 0)
  }

  /** Every statement is counted once, as a request or as an assertion. */
  lemma {:induction false} CountsPartition(ss: seq<Statement>)
    ensures RequestCount(ss) + AssertionCount(ss) == |ss|
    decreases |ss|
  {
    if ss != [] {
      CountsPartition(ss[..|ss| - 1]);
    }
  }

  /** `validateTest`: the error for a test, the missing request before the assertion count. */
  function TestError(t: TestData): (r: Option<ValidationException>)
    ensures r.Some? ==> r.value.testName == Some(t.name)
  {
    var requests := RequestCount(t.statements);
    var assertions := AssertionCount(t.statements);
    if requests == 0 then Some(NewValidationException(NoRequestMessage, Some(t.name)))
    else if assertions < 2 then Some(NewValidationException(TooFewAssertionsMessage(assertions), Some(t.name)))
    else None
  }

  /** A test passes exactly when it has a request and two assertions; otherwise the
      message names the test and the first rule it breaks, with the assertion count. */
  lemma TestErrorCases(t: TestData)
    ensures TestError(t).None? <==> RequestCount(t.statements) >= 1 && AssertionCount(t.statements) >= 2
    ensures RequestCount(t.statements) == 0 ==>
      TestError(t).value.message == "Validation error in test '" + t.name + "': " + NoRequestMessage
    ensures RequestCount(t.statements) >= 1 && AssertionCount(t.statements) < 2 ==>
      TestError(t).value.message
        == "Validation error in test '" + t.name + "': " + TooFewAssertionsMessage(AssertionCount(t.statements))
  {
    ScopedValidationMessage(NoRequestMessage, t.name);
    ScopedValidationMessage(TooFewAssertionsMessage(AssertionCount(t.statements)), t.name);
  }

  /** The error of the first failing test, in declaration order. */
  function FirstTestError(ts: seq<TestData>): Option<ValidationException>
    decreases |ts|
  {
    if ts == [] then None
    else if TestError(ts[0]).Some? then TestError(ts[0])
    else FirstTestError(ts[1..])
  }

  /** `validate`: no tests at all, or the first failing test. */
  function ValidationError(p: ProgramData): Option<ValidationException> {
    if p.tests == [] then Some(NewUnscopedValidationException(NoTestsMessage))
    else FirstTestError(p.tests)
  }

  /** A failing test that comes first among the tests after a passing one comes first
      among all of them. */
  lemma FirstFailureShifts(ts: seq<TestData>, i: nat)
    requires |ts| > 0 && TestError(ts[0]).None? && i < |ts| - 1
    requires forall j :: 0 <= j < i ==> TestError(ts[1..][j]).None?
    ensures ts[i + 1] == ts[1..][i]
    ensures forall j :: 0 <= j < i + 1 ==> TestError(ts[j]).None?
  {
    forall j | 0 <= j < i + 1
      ensures TestError(ts[j]).None?
    {
      if j > 0 {
        assert ts[j] == ts[1..][j - 1];
      }
    }
  }

  /** The first failure wins: there is an error exactly when some test fails, and then it
      is the error of a failing test all of whose predecessors pass. */
  lemma {:induction false} FirstErrorWins(ts: seq<TestData>)
    ensures FirstTestError(ts).None? <==> forall i :: 0 <= i < |ts| ==> TestError(ts[i]).None?
    ensures FirstTestError(ts).Some? ==>
      exists i :: 0 <= i < |ts| && TestError(ts[i]) == FirstTestError(ts)
        && forall j :: 0 <= j < i ==> TestError(ts[j]).None?
    decreases |ts|
  {
    if ts != [] && TestError(ts[0]).None? {
      var rest := ts[1..];
      FirstErrorWins(rest);
      assert forall i :: 0 < i < |ts| ==> ts[i] == rest[i - 1];
      if FirstTestError(ts).Some? {
        var i :| 0 <= i < |rest| && TestError(rest[i]) == FirstTestError(rest)
          && forall j :: 0 <= j < i ==> TestError(rest[j]).None?;
        FirstFailureShifts(ts, i);
      }
    }
  }

  /** A program is accepted exactly when it has a test and every test has a request and
      at least two assertions; an empty program is rejected without naming a test. */
  lemma ValidationAccepts(p: ProgramData)
    ensures ValidationError(p).None? <==>
      |p.tests| > 0 && forall i :: 0 <= i < |p.tests| ==>
        RequestCount(p.tests[i].statements) >= 1 && AssertionCount(p.tests[i].statements) >= 2
    ensures p.tests == [] ==> ValidationError(p).value.message == "Validation error: " + NoTestsMessage
    ensures p.tests == [] ==> ValidationError(p).value.testName == None
  {
    FirstErrorWins(p.tests);
    forall i | 0 <= i < |p.tests| {
      TestErrorCases(p.tests[i]);
    }
  }

  // ---------------------------------------------------------------- unused variables

  /** `checkVariableUsage`: the names among `keys` whose `$name` occurs in the text. */
  function UsedIn(text: string, keys: set<string>): set<string> {
    set k | k in keys && Contains(text, "$" + k)
  }

  /** The texts `checkUnusedVariables` inspects: a request's URL and, if present, its body. */
  predicate Mentions(s: Statement, k: string) {
    && s.RequestStatement?
    && (Contains(s.request.url, "$" + k)
        || (s.request.body.Some? && Contains(s.request.body.value, "$" + k)))
  }

  function UsedInStatement(s: Statement, keys: set<string>): set<string> {
    match s
    case AssertionStatement(_) => {}
    case RequestStatement(r) =>
      UsedIn(r.url, keys) + (if r.body.Some? then UsedIn(r.body.value, keys) else {})
  }

  function UsedInStatements(ss: seq<Statement>, keys: set<string>): set<string>
    decreases |ss|
  {
    if ss == [] then {}
    else UsedInStatements(ss[..|ss| - 1], keys) + UsedInStatement(ss[|ss| - 1], keys)
  }

  function UsedInTests(ts: seq<TestData>, keys: set<string>): set<string>
    decreases |ts|
  {
    if ts == [] then {}
    else UsedInTests(ts[..|ts| - 1], keys) + UsedInStatements(ts[|ts| - 1].statements, keys)
  }

  lemma {:induction false} UsedInStatementsMembership(ss: seq<Statement>, keys: set<string>, k: string)
    ensures k in UsedInStatements(ss, keys) <==> k in keys && exists j :: 0 <= j < |ss| && Mentions(ss[j], k)
    decreases |ss|
  {
    if ss != [] {
      var n := |ss| - 1;
      UsedInStatementsMembership(ss[..n], keys, k);
      assert forall j :: 0 <= j < n ==> ss[..n][j] == ss[j];
      if k in keys && exists j :: 0 <= j < |ss| && Mentions(ss[j], k) {
        var j :| 0 <= j < |ss| && Mentions(ss[j], k);
        if j < n {
          assert Mentions(ss[..n][j], k);
        }
      }
    }
  }

  /** A name is mentioned in some test exactly when it is mentioned in one of the tests
      before the last or in the last. */
  lemma MentionsSplit(ts: seq<TestData>, k: string)
    requires ts != []
    ensures var n := |ts| - 1;
      (exists i, j :: 0 <= i < |ts| && 0 <= j < |ts[i].statements| && Mentions(ts[i].statements[j], k))
      <==>
      (|| (exists i, j :: 0 <= i < n && 0 <= j < |ts[..n][i].statements| && Mentions(ts[..n][i].statements[j], k))
       || (exists j :: 0 <= j < |ts[n].statements| && Mentions(ts[n].statements[j], k)))
  {
    var n := |ts| - 1;
    assert forall i :: 0 <= i < n ==> ts[..n][i] == ts[i];
    if exists i, j :: 0 <= i < |ts| && 0 <= j < |ts[i].statements| && Mentions(ts[i].statements[j], k) {
      var i, j :| 0 <= i < |ts| && 0 <= j < |ts[i].statements| && Mentions(ts[i].statements[j], k);
      if i < n {
        assert Mentions(ts[..n][i].statements[j], k);
      }
    }
  }

  /** The used set: the declared-at-the-time names whose `$name` appears in the URL or
      the body of some request of some test; assertions are not looked at. */
  lemma {:induction false} UsedInTestsMembership(ts: seq<TestData>, keys: set<string>, k: string)
    ensures k in UsedInTests(ts, keys) <==>
      k in keys && exists i, j :: 0 <= i < |ts| && 0 <= j < |ts[i].statements| && Mentions(ts[i].statements[j], k)
    decreases |ts|
  {
    if ts != [] {
      var n := |ts| - 1;
      UsedInTestsMembership(ts[..n], keys, k);
      UsedInStatementsMembership(ts[n].statements, keys, k);
      MentionsSplit(ts, k);
    }
  }

  /** The warnings of `checkUnusedVariables`, as the names they report: one per
      declaration, in declaration order, whose name is not in the used set. */
  function UnusedWarnings(vars: seq<Variable>, used: set<string>): seq<string>
    decreases |vars|
  {
    if vars == [] then []
    else
      UnusedWarnings(vars[..|vars| - 1], used)
      + (if vars[|vars| - 1].name in used then [] else [vars[|vars| - 1].name])
  }

  /** A name is reported exactly when it is declared and not used. */
  lemma {:induction false} UnusedWarningsMembership(vars: seq<Variable>, used: set<string>, name: string)
    ensures name in UnusedWarnings(vars, used) <==>
      name !in used && exists i :: 0 <= i < |vars| && vars[i].name == name
    decreases |vars|
  {
    if vars != [] {
      var n := |vars| - 1;
      UnusedWarningsMembership(vars[..n], used, name);
      assert forall i :: 0 <= i < n ==> vars[..n][i] == vars[i];
      if name !in used && exists i :: 0 <= i < |vars| && vars[i].name == name {
        var i :| 0 <= i < |vars| && vars[i].name == name;
        if i < n {
          assert vars[..n][i].name == name;
        }
      }
    }
  }

  /** The declared names, in declaration order. */
  function Names(vars: seq<Variable>): (r: seq<string>)
    ensures |r| == |vars| && forall i :: 0 <= i < |vars| ==> r[i] == vars[i].name
    decreases |vars|
  {
    if vars == [] then [] else Names(vars[..|vars| - 1]) + [vars[|vars| - 1].name]
  }

  /** When the table is still empty, as it is on the first call of `generate`, nothing is
      found used and every declaration is reported, duplicates included. */
  lemma {:induction false} EmptyTableWarnsAll(ts: seq<TestData>, vars: seq<Variable>)
    ensures UsedInTests(ts, {}) == {}
    ensures UnusedWarnings(vars, UsedInTests(ts, {})) == Names(vars)
    decreases |vars|
  {
    forall k {
      UsedInTestsMembership(ts, {}, k);
    }
    if vars != [] {
      EmptyTableWarnsAll(ts, vars[..|vars| - 1]);
    }
  }
}
