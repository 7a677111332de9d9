/** `CodeGenerator`: validates a program and turns it into the source of a JUnit 5 test
    class. The generator keeps a `code` buffer and a variable table between calls, and
    the table's entries are visited in an order the map decides (`entryOrder`). */
module CodeGen {
  import opened Wrappers
  import opened JavaString
  import opened Escaping
  import opened Ast
  import opened Exceptions
  import opened Substitution
  import opened Validation
  import opened Emission

  /** The text of one more test method after those of the tests before it. */
  lemma TestsTextStep(tests: seq<TestData>, j: nat, table: map<string, string>, order: seq<string>)
    requires forall k :: k in order ==> k in table
    requires j < |tests| && forall i :: 0 <= i < |tests| ==> TestEmittable(tests[i])
    ensures TestsText(tests[..j + 1], table, order) == TestsText(tests[..j], table, order) + TestMethodText(tests[j], table, order)
  {
    assert tests[..j + 1][..j] == tests[..j];
  }

  /** The text of one more statement after those of the statements before it. */
  lemma StatementsTextStep(statements: seq<Statement>, j: nat, table: map<string, string>, order: seq<string>)
    requires forall k :: k in order ==> k in table
    requires j < |statements| && forall i :: 0 <= i < |statements| ==> StatementEmittable(statements[i])
    ensures StatementsText(statements[..j + 1], table, order)
         == StatementsText(statements[..j], table, order) + StatementText(statements[j], table, order)
  {
    assert statements[..j + 1][..j] == statements[..j];
  }

  class CodeGenerator {
    const program: Program
    var code: string
    var variables: map<string, string>
    /** The order in which the table's entries are visited: each key once. */
    var entryOrder: seq<string>

    ghost predicate Valid()
      reads this`variables, this`entryOrder
    {
      IsEntryOrder(entryOrder, variables.Keys)
    }

    constructor (program: Program)
      ensures this.program == program
      ensures code == [] && variables == map[] && entryOrder == []
      ensures Valid()
    {
      this.program := program;
      code := [];
      variables := map[];
      entryOrder := [];
    }

    /** `generate`: on a validation error nothing changes and the error is thrown; otherwise
        the warnings are those of `checkUnusedVariables` against the table as it was before
        the call, the `let` declarations are added to the table, and the whole class is
        appended to the buffer, whose entire contents are returned. */
    method Generate() returns (r: Result<string, ValidationException>, warnings: seq<string>)
      requires Valid()
      requires ValidationError(program.Data()).None? ==> ProgramEmittable(program.Data())
      modifies this
      ensures Valid()
      ensures ValidationError(program.Data()).Some? ==>
        && r == Failure(ValidationError(program.Data()).value)
        && warnings == []
        && code == old(code) && variables == old(variables) && entryOrder == old(entryOrder)
      ensures ValidationError(program.Data()).None? ==>
        && warnings == UnusedWarnings(program.Data().variables, UsedInTests(program.Data().tests, old(variables).Keys))
        && variables == BindAll(old(variables), program.Data().variables)
        && (variables.Keys == old(variables).Keys ==> entryOrder == old(entryOrder))
        && code == old(code) + GeneratedText(program.Data(), variables, entryOrder)
        && r == Success(code)
    {
      var error;
      error, warnings := Validate();
      if error.Some? {
        r := Failure(error.value);
        return;
      }
      BindVariables(program.variables);
      GeneratePreamble();
      GenerateTestMethods(program.tests);
      code := code + "}\n";
      AppendAssoc(old(code), PreambleText(program.config), TestsText(program.tests, variables, entryOrder));
      AppendAssoc(old(code), PreambleText(program.config) + TestsText(program.tests, variables, entryOrder), "}\n");
      r := Success(code);
    }

    /** The first loop of `generate`: each `let` puts its name and value into the table; a
        name new to the table takes a place in the map's order that the map decides. */
    method BindVariables(vars: seq<Variable>)
      requires Valid()
      modifies this`variables, this`entryOrder
      ensures Valid()
      ensures variables == BindAll(old(variables), vars)
      ensures variables.Keys == old(variables).Keys ==> entryOrder == old(entryOrder)
    {
      var i := 0;
      while i < |vars|
        invariant 0 <= i <= |vars|
        invariant variables == BindAll(old(variables), vars[..i])
        invariant Valid()
        invariant old(variables).Keys <= variables.Keys
        invariant variables.Keys == old(variables).Keys ==> entryOrder == old(entryOrder)
      {
        var v := vars[i];
        if v.name !in variables {
          var pos :| 0 <= pos <= |entryOrder|;
          EntryOrderInsert(entryOrder, variables.Keys, v.name, pos);
          entryOrder := entryOrder[..pos] + [v.name] + entryOrder[pos..];
        }
        variables := variables[v.name := ValueAsString(v.value)];
        assert vars[..i + 1][..i] == vars[..i];
        i := i + 1;
      }
      assert vars[..i] == vars;
    }

    /** The imports, the class header and the setup method. */
    method GeneratePreamble()
      modifies this`code
      ensures code == old(code) + PreambleText(program.Data().config)
    {
      GenerateImports();
      GenerateClassHeader();
      GenerateSetupMethod();
      var config := program.config;
      AppendAssoc(old(code), ImportsText, ClassHeaderText(BaseUrl(config)));
      AppendAssoc(old(code), ImportsText + ClassHeaderText(BaseUrl(config)), SetupText(config));
    }

    /** The second loop of `generate`: one test method per test, in declaration order. */
    method GenerateTestMethods(tests: seq<TestData>)
      requires Valid() && forall i :: 0 <= i < |tests| ==> TestEmittable(tests[i])
      modifies this`code
      ensures code == old(code) + TestsText(tests, variables, entryOrder)
    {
      var j := 0;
      while j < |tests|
        invariant 0 <= j <= |tests|
        invariant code == old(code) + TestsText(tests[..j], variables, entryOrder)
      {
        TestsTextStep(tests, j, variables, entryOrder);
        AppendAssoc(old(code), TestsText(tests[..j], variables, entryOrder), TestMethodText(tests[j], variables, entryOrder));
        GenerateTestMethod(tests[j]);
        j := j + 1;
      }
      assert tests[..j] == tests;
    }

    /** `validate`: the program's validation error; only a valid program reaches the
        unused-variable check. */
    method Validate() returns (error: Option<ValidationException>, warnings: seq<string>)
      requires Valid()
      ensures error == ValidationError(program.Data())
      ensures error.Some? ==> warnings == []
      ensures error.None? ==>
        warnings == UnusedWarnings(program.Data().variables, UsedInTests(program.Data().tests, variables.Keys))
    {
      var tests := program.tests;
      warnings := [];
      if tests == [] {
        error := Some(NewUnscopedValidationException(NoTestsMessage));
        return;
      }
      var i := 0;
      while i < |tests|
        invariant 0 <= i <= |tests|
        invariant FirstTestError(tests) == FirstTestError(tests[i..])
      {
        error := ValidateTest(tests[i]);
        assert tests[i..][0] == tests[i] && tests[i..][1..] == tests[i + 1..];
        if error.Some? {
          return;
        }
        i := i + 1;
      }
      error := None;
      warnings := CheckUnusedVariables();
    }

    /** `validateTest`: counts the requests and assertions of one test. */
    method ValidateTest(test: TestData) returns (error: Option<ValidationException>)
      ensures error == TestError(test)
    {
      var statements := test.statements;
      var requestCount, assertionCount := 0, 0;
      var i := 0;
      while i < |statements|
        invariant 0 <= i <= |statements|
        invariant requestCount == RequestCount(statements[..i])
        invariant assertionCount == AssertionCount(statements[..i])
      {
        if statements[i].RequestStatement? {
          requestCount := requestCount + 1;
        } else if statements[i].AssertionStatement? {
          assertionCount := assertionCount + 1;
        }
        assert statements[..i + 1][..i] == statements[..i];
        i := i + 1;
      }
      assert statements[..i] == statements;
      if requestCount == 0 {
        error := Some(NewValidationException(NoRequestMessage, Some(test.name)));
      } else if assertionCount < 2 {
        error := Some(NewValidationException(TooFewAssertionsMessage(assertionCount), Some(test.name)));
      } else {
        error := None;
      }
    }

    /** `checkUnusedVariables`: the declared names not mentioned, as `$name`, in any
        request URL or body; the names looked for are the keys of the table as it is. */
    method CheckUnusedVariables() returns (warnings: seq<string>)
      requires Valid()
      ensures warnings == UnusedWarnings(program.Data().variables, UsedInTests(program.Data().tests, variables.Keys))
    {
      var tests := program.tests;
      var usedVars: set<string> := {};
      var i := 0;
      while i < |tests|
        invariant 0 <= i <= |tests|
        invariant usedVars == UsedInTests(tests[..i], variables.Keys)
      {
        var statements := tests[i].statements;
        var j := 0;
        while j < |statements|
          invariant 0 <= j <= |statements|
          invariant usedVars == UsedInTests(tests[..i], variables.Keys) + UsedInStatements(statements[..j], variables.Keys)
        {
          if statements[j].RequestStatement? {
            var req := statements[j].request;
            usedVars := CheckVariableUsage(req.url, usedVars);
            if req.body.Some? {
              usedVars := CheckVariableUsage(req.body.value, usedVars);
            }
          }
          assert statements[..j + 1][..j] == statements[..j];
          j := j + 1;
        }
        assert statements[..j] == statements;
        assert tests[..i + 1][..i] == tests[..i];
        i := i + 1;
      }
      assert tests[..i] == tests;

      var vars := program.variables;
      warnings := [];
      var k := 0;
      while k < |vars|
        invariant 0 <= k <= |vars|
        invariant warnings == UnusedWarnings(vars[..k], usedVars)
      {
        if vars[k].name !in usedVars {
          warnings := warnings + [vars[k].name];
        }
        assert vars[..k + 1][..k] == vars[..k];
        k := k + 1;
      }
      assert vars[..k] == vars;
    }

    /** `checkVariableUsage`: adds the keys whose `$name` occurs in the text. */
    method CheckVariableUsage(text: string, usedVars: set<string>) returns (used: set<string>)
      requires Valid()
      ensures used == usedVars + UsedIn(text, variables.Keys)
    {
      used := usedVars;
      var i := 0;
      while i < |entryOrder|
        invariant 0 <= i <= |entryOrder|
        invariant used == usedVars + (set k | k in entryOrder[..i] && Contains(text, "$" + k))
      {
        var name := entryOrder[i];
        if Contains(text, "$" + name) {
          used := used + {name};
        }
        assert entryOrder[..i + 1] == entryOrder[..i] + [name];
        i := i + 1;
      }
      assert entryOrder[..i] == entryOrder;
    }

    method GenerateImports()
      modifies this`code
      ensures code == old(code) + ImportsText
    {
      code := code + ImportsText;
    }

    /** `generateClassHeader`: the base URL is the config's when it sets one. */
    method GenerateClassHeader()
      modifies this`code
      ensures code == old(code) + ClassHeaderText(BaseUrl(program.Data().config))
    {
      var baseUrl := DefaultBaseUrl;
      if program.config.Some? && program.config.value.baseUrl.Some? {
        baseUrl := program.config.value.baseUrl.value;
      }
      code := code + ClassHeaderText(baseUrl);
    }

    /** `generateSetupMethod` */
    method GenerateSetupMethod()
      modifies this`code
      ensures code == old(code) + SetupText(program.Data().config)
    {
      code := code + SetupOpenText;
      var headers := [];
      if program.config.Some? {
        headers := program.config.value.headers;
      }
      AppendDefaultHeaders(headers);
      code := code + BlockCloseText;
      AppendAssoc(old(code), SetupOpenText, DefaultHeaderLines(headers));
      AppendAssoc(old(code), SetupOpenText + DefaultHeaderLines(headers), BlockCloseText);
    }

    /** The loop of `generateSetupMethod`: one `DEFAULT_HEADERS.put` line per config
        header, in order, duplicates included. */
    method AppendDefaultHeaders(headers: seq<Header>)
      modifies this`code
      ensures code == old(code) + DefaultHeaderLines(headers)
    {
      var i := 0;
      while i < |headers|
        invariant 0 <= i <= |headers|
        invariant code == old(code) + DefaultHeaderLines(headers[..i])
      {
        assert headers[..i + 1][..i] == headers[..i];
        AppendAssoc(old(code), DefaultHeaderLines(headers[..i]), DefaultHeaderLine(headers[i]));
        code := code + DefaultHeaderLine(headers[i]);
        i := i + 1;
      }
      assert headers[..i] == headers;
    }

    /** `generateTestMethod` */
    method GenerateTestMethod(test: TestData)
      requires Valid() && TestEmittable(test)
      modifies this`code
      ensures code == old(code) + TestMethodText(test, variables, entryOrder)
    {
      code := code + TestOpenText(test.name);
      AppendStatements(test.statements);
      code := code + BlockCloseText;
      AppendAssoc(old(code), TestOpenText(test.name), StatementsText(test.statements, variables, entryOrder));
      AppendAssoc(old(code), TestOpenText(test.name) + StatementsText(test.statements, variables, entryOrder), BlockCloseText);
    }

    /** The loop of `generateTestMethod`: the statements in order, each a request or an
        assertion. */
    method AppendStatements(statements: seq<Statement>)
      requires Valid() && forall i :: 0 <= i < |statements| ==> StatementEmittable(statements[i])
      modifies this`code
      ensures code == old(code) + StatementsText(statements, variables, entryOrder)
    {
      ghost var done := [];
      var i := 0;
      while i < |statements|
        invariant 0 <= i <= |statements|
        invariant done == StatementsText(statements[..i], variables, entryOrder)
        invariant code == old(code) + done
      {
        StatementsTextStep(statements, i, variables, entryOrder);
        GenerateStatement(statements[i]);
        AppendAssoc(old(code), done, StatementText(statements[i], variables, entryOrder));
        done := done + StatementText(statements[i], variables, entryOrder);
        i := i + 1;
      }
      assert statements[..i] == statements;
    }

    /** The body of the loop of `generateTestMethod`: a request or an assertion. */
    method GenerateStatement(statement: Statement)
      requires Valid() && StatementEmittable(statement)
      modifies this`code
      ensures code == old(code) + StatementText(statement, variables, entryOrder)
    {
      match statement {
        case RequestStatement(request) => GenerateRequest(request);
        case AssertionStatement(assertion) => GenerateAssertion(assertion);
      }
    }

    /** `generateRequest`: the URL and the body are substituted, the headers are not. */
    method GenerateRequest(request: RequestData)
      requires Valid()
      modifies this`code
      ensures code == old(code) + RequestText(request, variables, entryOrder)
    {
      var url := SubstituteVariables(request.url);
      var open := RequestOpenText(url);
      var body := None;
      if request.body.Some? {
        var text := SubstituteVariables(request.body.value);
        body := Some(text);
      }
      var call := MethodCall(request.httpMethod, body);
      code := code + open + call;
      var headerLines := AppendRequestHeaders(request.headers);
      code := code + DefaultHeadersLoopText + SendText;
      AppendAssoc(old(code) + open + call, headerLines, DefaultHeadersLoopText);
      AppendAssoc(old(code) + open, call, headerLines);
      AppendAssoc(old(code), open, call);
      AppendAssoc(old(code), open + call, headerLines);
      AppendAssoc(old(code), open + call + headerLines, DefaultHeadersLoopText);
      AppendAssoc(old(code), open + call + headerLines + DefaultHeadersLoopText, SendText);
    }

    /** The `switch` of `generateRequest` on the method name. */
    static method MethodCall(httpMethod: string, body: Option<string>) returns (call: string)
      ensures call == MethodCallText(httpMethod, body)
    {
      call := "";
      if httpMethod == "GET" {
        call := GetCallText;
      } else if httpMethod == "DELETE" {
        call := DeleteCallText;
      } else if httpMethod == "POST" {
        call := if body.Some? then PostBodyPrefix + EscapeJava(body.value) + BodySuffix else PostNoBodyText;
      } else if httpMethod == "PUT" {
        call := if body.Some? then PutBodyPrefix + EscapeJava(body.value) + BodySuffix else PutNoBodyText;
      }
    }

    /** The loop of `generateRequest`: one `b.header` line per request header, in order. */
    method AppendRequestHeaders(headers: seq<Header>) returns (lines: string)
      modifies this`code
      ensures lines == RequestHeaderLines(headers)
      ensures code == old(code) + lines
    {
      var i := 0;
      while i < |headers|
        invariant 0 <= i <= |headers|
        invariant code == old(code) + RequestHeaderLines(headers[..i])
      {
        assert headers[..i + 1][..i] == headers[..i];
        AppendAssoc(old(code), RequestHeaderLines(headers[..i]), RequestHeaderLine(headers[i]));
        code := code + RequestHeaderLine(headers[i]);
        i := i + 1;
      }
      assert headers[..i] == headers;
      lines := RequestHeaderLines(headers);
    }

    /** `generateAssertion`: key and value, when present, are substituted first. */
    method GenerateAssertion(assertion: AssertionData)
      requires Valid() && AssertionEmittable(assertion)
      modifies this`code
      ensures code == old(code) + AssertionText(assertion, variables, entryOrder)
    {
      var key := None;
      if assertion.key.Some? {
        var k := SubstituteVariables(assertion.key.value);
        key := Some(k);
      }
      var value := None;
      if assertion.value.Some? {
        var v := SubstituteVariables(assertion.value.value);
        value := Some(v);
      }
      code := code + AssertionLine(assertion.kind, assertion.statusCode, key, value);
    }

    /** `substituteVariables`: each entry's `$name` replaced by its value, one entry after
        the other in the map's order. */
    method SubstituteVariables(text: string) returns (result: string)
      requires Valid()
      ensures result == Substitute(text, variables, entryOrder)
    {
      result := text;
      var i := 0;
      while i < |entryOrder|
        invariant 0 <= i <= |entryOrder|
        invariant Substitute(result, variables, entryOrder[i..]) == Substitute(text, variables, entryOrder)
      {
        var name := entryOrder[i];
        assert entryOrder[i..][1..] == entryOrder[i + 1..];
        result := ReplaceAll(result, "$" + name, variables[name]);
        i := i + 1;
      }
    }
  }

  /** The buffer persists: a second `generate` on the same generator appends the class
      again, so its result is the first result twice. The first call reports every
      declared variable as unused, since the table is still empty when it is checked. */
  method GenerateTwice(program: Program) returns (first: Result<string, ValidationException>, firstWarnings: seq<string>,
                                                  second: Result<string, ValidationException>)
    requires ValidationError(program.Data()).None? && ProgramEmittable(program.Data())
    ensures first.Success? && second.Success?
    ensures second.value == first.value + first.value
    ensures firstWarnings == Names(program.Data().variables)
  {
    ghost var p := program.Data();
    var generator := new CodeGenerator(program);
    ghost var empty: map<string, string> := map[];
    assert generator.variables.Keys == {} by { assert generator.variables == empty; }
    first, firstWarnings := generator.Generate();
    assert firstWarnings == UnusedWarnings(p.variables, UsedInTests(p.tests, {}));
    EmptyTableWarnsAll(p.tests, p.variables);
    ghost var table, order := generator.variables, generator.entryOrder;
    ghost var text := GeneratedText(p, table, order);
    assert program.Data() == p;
    assert generator.code == text by { assert [] + text == text; }
    var secondWarnings;
    second, secondWarnings := generator.Generate();
    BindAllTwice(empty, p.variables);
    assert generator.variables == table && generator.entryOrder == order;
  }
}
