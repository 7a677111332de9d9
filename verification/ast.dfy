/** The AST of a test file (package com.testlang.ast). The parser builds each node by
    constructing it and then calling its `add*`/`set*` methods, so the nodes are classes
    whose methods change one field each. `Data()` gives the value a node holds; a parent
    node stores the values of its children, and the code generator reads values only. */
module Ast {
  import opened Wrappers
  import opened JavaString

  /** `Header`: a key/value pair; duplicates are allowed and kept. */
  datatype Header = Header(key: string, value: string)

  /** The value of a `let`: a String or an Integer, as the parser supplies it. */
  datatype Value = Text(text: string) | Integer(number: int)

  /** `Variable`: both fields are set by the constructor and there are no setters, so a
      variable is a value; `getName` and `getValue` are the fields. */
  datatype Variable = Variable(name: string, value: Value)

  /** `Variable.getValueAsString`: `value.toString()`, the string itself or the decimal
      form of the integer. */
  function ValueAsString(value: Value): (r: string)
    ensures value.Text? ==> r == value.text
    ensures value.Integer? ==> ParseInt(r) == Some(value.number)
  {
    match value
    case Text(s) => s
    case Integer(n) => IntToStringRoundTrip(n); IntToString(n)
  }

  /** `Assertion.Type` */
  datatype AssertionType = StatusEquals | HeaderEquals | HeaderContains | BodyContains

  datatype AssertionData = AssertionData(kind: AssertionType, key: Option<string>, value: Option<string>, statusCode: Option<int>)

  datatype RequestData = RequestData(httpMethod: string, url: string, headers: seq<Header>, body: Option<string>)

  /** `Statement`: a request or an assertion. */
  datatype Statement = RequestStatement(request: RequestData) | AssertionStatement(assertion: AssertionData)

  datatype TestData = TestData(name: string, statements: seq<Statement>)

  datatype ConfigData = ConfigData(baseUrl: Option<string>, headers: seq<Header>)

  datatype ProgramData = ProgramData(config: Option<ConfigData>, variables: seq<Variable>, tests: seq<TestData>)

  /** `Assertion`: the type is fixed at construction; key, value and status code are set
      afterwards and start out null. */
  class Assertion {
    const kind: AssertionType
    var key: Option<string>
    var value: Option<string>
    var statusCode: Option<int>

    function Data(): AssertionData
      reads this
    {
      AssertionData(kind, key, value, statusCode)
    }

    constructor (kind: AssertionType)
      ensures Data() == AssertionData(kind, None, None, None)
    {
      this.kind := kind;
      key, value, statusCode := None, None, None;
    }

    method SetKey(key: Option<string>)
      modifies this`key
      ensures Data() == old(Data()).(key := key)
    {
      this.key := key;
    }

    method SetValue(value: Option<string>)
      modifies this`value
      ensures Data() == old(Data()).(value := value)
    {
      this.value := value;
    }

    method SetStatusCode(statusCode: Option<int>)
      modifies this`statusCode
      ensures Data() == old(Data()).(statusCode := statusCode)
    {
      this.statusCode := statusCode;
    }
  }

  /** `Request`: method and URL are fixed at construction; headers are appended and the
      body is set afterwards. */
  class Request {
    const httpMethod: string
    const url: string
    var headers: seq<Header>
    var body: Option<string>

    function Data(): RequestData
      reads this
    {
      RequestData(httpMethod, url, headers, body)
    }

    constructor (httpMethod: string, url: string)
      ensures Data() == RequestData(httpMethod, url, [], None)
    {
      this.httpMethod, this.url := httpMethod, url;
      headers, body := [], None;
    }

    method AddHeader(header: Header)
      modifies this`headers
      ensures |headers| == |old(headers)| + 1 && headers[..|old(headers)|] == old(headers)
      ensures Data() == old(Data()).(headers := old(headers) + [header])
    {
      headers := headers + [header];
    }

    method SetBody(body: Option<string>)
      modifies this`body
      ensures Data() == old(Data()).(body := body)
    {
      this.body := body;
    }
  }

  /** `Config`: the base URL is set and headers are appended, duplicates included. */
  class Config {
    var baseUrl: Option<string>
    var headers: seq<Header>

    function Data(): ConfigData
      reads this
    {
      ConfigData(baseUrl, headers)
    }

    constructor ()
      ensures Data() == ConfigData(None, [])
    {
      baseUrl, headers := None, [];
    }

    method SetBaseUrl(baseUrl: Option<string>)
      modifies this`baseUrl
      ensures Data() == old(Data()).(baseUrl := baseUrl)
    {
      this.baseUrl := baseUrl;
    }

    method AddHeader(header: Header)
      modifies this`headers
      ensures |headers| == |old(headers)| + 1 && headers[..|old(headers)|] == old(headers)
      ensures Data() == old(Data()).(headers := old(headers) + [header])
    {
      headers := headers + [header];
    }
  }

  /** `Test`: the name is fixed at construction; statements are appended in order. */
  class Test {
    const name: string
    var statements: seq<Statement>

    function Data(): TestData
      reads this
    {
      TestData(name, statements)
    }

    constructor (name: string)
      ensures Data() == TestData(name, [])
    {
      this.name := name;
      statements := [];
    }

    method AddStatement(statement: Statement)
      modifies this`statements
      ensures |statements| == |old(statements)| + 1 && statements[..|old(statements)|] == old(statements)
      ensures Data() == old(Data()).(statements := old(statements) + [statement])
    {
      statements := statements + [statement];
    }
  }

  /** `Program`: the root; the config is set, variables and tests are appended. */
  class Program {
    var config: Option<ConfigData>
    var variables: seq<Variable>
    var tests: seq<TestData>

    function Data(): ProgramData
      reads this
    {
      ProgramData(config, variables, tests)
    }

    constructor ()
      ensures Data() == ProgramData(None, [], [])
    {
      config, variables, tests := None, [], [];
    }

    /** `setConfig`, where a null argument clears the config. */
    method SetConfig(config: Config?)
      modifies this`config
      ensures Data() == old(Data()).(config := if config == null then None else Some(config.Data()))
    {
      this.config := if config == null then None else Some(config.Data());
    }

    method AddVariable(variable: Variable)
      modifies this`variables
      ensures Data() == old(Data()).(variables := old(variables) + [variable])
    {
      variables := variables + [variable];
    }

    method AddTest(test: Test)
      modifies this`tests
      ensures Data() == old(Data()).(tests := old(tests) + [test.Data()])
    {
      tests := tests + [test.Data()];
    }
  }

  /** What the parser does for a config block with the same header key twice: both
      headers are kept, in declaration order. */
  method ConfigKeepsDuplicateHeaders() returns (config: Config)
    ensures fresh(config)
    ensures config.Data() == ConfigData(None, [Header("H", "a"), Header("H", "b")])
  {
    config := new Config();
    config.AddHeader(Header("H", "a"));
    config.AddHeader(Header("H", "b"));
  }
}
