/** The text the `generate*` methods of `CodeGenerator` append to the `code` buffer, as
    functions of the program, the variable table and the order in which the table's
    entries are visited. */
module Emission {
  import opened Wrappers
  import opened JavaString
  import opened Escaping
  import opened Ast
  import opened Substitution

  // The fixed text is written as concatenations of short pieces, split where a Java
  // token ends; each piece is a part of one `append` argument of the source.

  /** `generateImports` */
  const ImportsText :=
    "import org.junit." + "jupiter.api.*;\n"
    + "import static " + "org.junit.jupiter." + "api.Assertions.*;\n"
    + "import java.net." + "http.*;\n"
    + "import java.net.*;\n"
    + "import java.time." + "Duration;\n"
    + "import java.nio." + "charset." + "StandardCharsets;\n"
    + "import java.util.*;\n\n"

  const DefaultBaseUrl := "http://localhost:8080"

  /** The base URL: the config's, or the default when there is no config or it sets none. */
  function BaseUrl(config: Option<ConfigData>): string {
    if config.Some? && config.value.baseUrl.Some? then config.value.baseUrl.value else DefaultBaseUrl
  }

  const ClassFieldsText :=
    "    static Map<" + "String,String> " + "DEFAULT_HEADERS = " + "new HashMap<>();\n"
    + "    static " + "HttpClient client;\n\n"

  /** `generateClassHeader`: the base URL goes into the literal as it is, unescaped. */
  function ClassHeaderText(baseUrl: string): string {
    "public class " + "GeneratedTests {\n\n" + "    static String " + "BASE = \"" + baseUrl + "\";\n"
    + ClassFieldsText
  }

  /** The annotation of the setup method. */
  const BeforeAllText := "    @BeforeAll\n"

  /** The rest of the setup method's first lines: its signature and the client it builds. */
  const SetupSignatureText :=
    "    static void " + "setup() {\n"
    + "        client = " + "HttpClient." + "newBuilder()" + ".connectTimeout(" + "Duration.ofSeconds(5))" + ".build();\n"

  const SetupOpenText := BeforeAllText + SetupSignatureText

  const DefaultHeaderPrefix := "        DEFAULT_" + "HEADERS.put(\""

  /** One config header: key and value escaped, not substituted. */
  function DefaultHeaderLine(h: Header): string {
    DefaultHeaderPrefix + EscapeJava(h.key) + "\"" + ",\"" + EscapeJava(h.value) + "\"" + ");\n"
  }

  function DefaultHeaderLines(hs: seq<Header>): string
    decreases |hs|
  {
    if hs == [] then [] else DefaultHeaderLines(hs[..|hs| - 1]) + DefaultHeaderLine(hs[|hs| - 1])
  }

  /** The headers `generateSetupMethod` walks: the config's, or none without a config. */
  function ConfigHeaders(config: Option<ConfigData>): seq<Header> {
    if config.Some? then config.value.headers else []
  }

  /** `generateSetupMethod` */
  function SetupText(config: Option<ConfigData>): string {
    SetupOpenText + DefaultHeaderLines(ConfigHeaders(config)) + "    }\n\n"
  }

  /** The URL argument of `URI.create`: a path is appended to BASE, anything else is used
      alone; the URL is not escaped. */
  function FullUrlText(url: string): string {
    if "/" <= url then "BASE + \"" + url + "\"" else "\"" + url + "\""
  }

  /** The first two lines of a request, for the URL after substitution. */
  function RequestOpenText(url: string): string {
    "        HttpRequest." + "Builder b = " + "HttpRequest." + "newBuilder(" + "URI.create("
    + FullUrlText(url) + "))\n"
    + "            .timeout(" + "Duration." + "ofSeconds(10))\n"
  }

  const GetCallText := "            .GET();\n"
  const DeleteCallText := "            .DELETE();\n"
  const PostNoBodyText := "            .POST(" + "HttpRequest." + "BodyPublishers." + "noBody());\n"
  const PutNoBodyText := "            .PUT(" + "HttpRequest." + "BodyPublishers." + "noBody());\n"
  const PostBodyPrefix := "            .POST(" + "HttpRequest." + "BodyPublishers." + "ofString(\""
  const PutBodyPrefix := "            .PUT(" + "HttpRequest." + "BodyPublishers." + "ofString(\""
  const BodySuffix := "\"" + "));\n"

  /** The method call of a request, for the body after substitution; an unknown method
      gives no call at all. */
  function MethodCallText(httpMethod: string, body: Option<string>): string {
    if httpMethod == "GET" then GetCallText
    else if httpMethod == "DELETE" then DeleteCallText
    else if httpMethod == "POST" then
      if body.Some? then PostBodyPrefix + EscapeJava(body.value) + BodySuffix else PostNoBodyText
    else if httpMethod == "PUT" then
      if body.Some? then PutBodyPrefix + EscapeJava(body.value) + BodySuffix else PutNoBodyText
    else ""
  }

  const RequestHeaderPrefix := "        b.header(\""

  /** One request header: key and value escaped, not substituted. */
  function RequestHeaderLine(h: Header): string {
    RequestHeaderPrefix + EscapeJava(h.key) + "\"" + ", \"" + EscapeJava(h.value) + "\"" + ");\n"
  }

  function RequestHeaderLines(hs: seq<Header>): string
    decreases |hs|
  {
    if hs == [] then [] else RequestHeaderLines(hs[..|hs| - 1]) + RequestHeaderLine(hs[|hs| - 1])
  }

  const DefaultHeadersLoopText :=
    "        for (var e: " + "DEFAULT_HEADERS." + "entrySet()) " + "b.header(" + "e.getKey(), " + "e.getValue());\n"

  const SendText :=
    "        HttpResponse" + "<String> resp = " + "client.send(" + "b.build(), " + "HttpResponse." + "BodyHandlers." + "ofString(" + "StandardCharsets." + "UTF_8));\n\n"

  /** An optional text after substitution. */
  function SubstituteOption(text: Option<string>, table: map<string, string>, order: seq<string>): Option<string>
    requires forall k :: k in order ==> k in table
  {
    if text.Some? then Some(Substitute(text.value, table, order)) else None
  }

  /** `generateRequest`: the URL and the body are substituted, the headers are not. */
  function RequestText(r: RequestData, table: map<string, string>, order: seq<string>): string
    requires forall k :: k in order ==> k in table
  {
    RequestOpenText(Substitute(r.url, table, order))
    + MethodCallText(r.httpMethod, SubstituteOption(r.body, table, order))
    + RequestHeaderLines(r.headers)
    + DefaultHeadersLoopText
    + SendText
  }

  /** A status code is appended as an `Integer`, so an absent one prints as `null`. */
  function StatusCodeText(code: Option<int>): string {
    if code.Some? then IntToString(code.value) else "null"
  }

  /** The assertions `generateAssertion` can emit without dereferencing a null key or
      value: a header assertion needs both, a body assertion its value. */
  predicate AssertionEmittable(a: AssertionData) {
    match a.kind
    case StatusEquals => true
    case HeaderEquals => a.key.Some? && a.value.Some?
    case HeaderContains => a.key.Some? && a.value.Some?
    case BodyContains => a.value.Some?
  }

  /** The text before the first literal of each kind of assertion line, and between its
      two literals. */
  const HeaderEqualsPrefix := "        assertEquals(\""
  const HeaderEqualsMiddle := ", resp." + "headers()." + "firstValue(\""
  const HeaderContainsPrefix := "        assertTrue(" + "resp.headers()." + "firstValue(\""
  const HeaderContainsMiddle := ").orElse(\"\")" + ".contains(\""
  const BodyContainsPrefix := "        assertTrue(" + "resp.body()." + "contains(\""

  /** The line of one assertion, for its key and value after substitution. */
  function AssertionLine(kind: AssertionType, statusCode: Option<int>, key: Option<string>, value: Option<string>): string
    requires kind.HeaderEquals? || kind.HeaderContains? ==> key.Some? && value.Some?
    requires kind.BodyContains? ==> value.Some?
  {
    match kind
    case StatusEquals =>
      "        assertEquals(" + StatusCodeText(statusCode) + ", resp." + "statusCode());\n"
    case HeaderEquals =>
      HeaderEqualsPrefix + EscapeJava(value.value) + "\"" + HeaderEqualsMiddle
      + EscapeJava(key.value) + "\"" + ").orElse(\"\"));\n"
    case HeaderContains =>
      HeaderContainsPrefix + EscapeJava(key.value) + "\"" + HeaderContainsMiddle
      + EscapeJava(value.value) + "\"" + "));\n"
    case BodyContains =>
      BodyContainsPrefix + EscapeJava(value.value) + "\"" + "));\n"
  }

  /** `generateAssertion`: key and value are substituted, then escaped. */
  function AssertionText(a: AssertionData, table: map<string, string>, order: seq<string>): string
    requires forall k :: k in order ==> k in table
    requires AssertionEmittable(a)
  {
    AssertionLine(a.kind, a.statusCode, SubstituteOption(a.key, table, order), SubstituteOption(a.value, table, order))
  }

  predicate StatementEmittable(s: Statement) {
    s.AssertionStatement? ==> AssertionEmittable(s.assertion)
  }

  function StatementText(s: Statement, table: map<string, string>, order: seq<string>): string
    requires forall k :: k in order ==> k in table
    requires StatementEmittable(s)
  {
    match s
    case RequestStatement(r) => RequestText(r, table, order)
    case AssertionStatement(a) => AssertionText(a, table, order)
  }

  predicate TestEmittable(t: TestData) {
    forall i :: 0 <= i < |t.statements| ==> StatementEmittable(t.statements[i])
  }

  function StatementsText(ss: seq<Statement>, table: map<string, string>, order: seq<string>): string
    requires forall k :: k in order ==> k in table
    requires forall i :: 0 <= i < |ss| ==> StatementEmittable(ss[i])
    decreases |ss|
  {
    if ss == [] then []
    else StatementsText(ss[..|ss| - 1], table, order) + StatementText(ss[|ss| - 1], table, order)
  }

  /** The annotation of a test method. */
  const TestAnnotationText := "    @Test\n"

  /** The first two lines of a test method; the name goes in unescaped. */
  function TestOpenText(name: string): string {
    TestAnnotationText + "    void test_" + name + "() throws " + "Exception {\n"
  }

  const BlockCloseText := "    }\n\n"

  /** `generateTestMethod` */
  function TestMethodText(t: TestData, table: map<string, string>, order: seq<string>): string
    requires forall k :: k in order ==> k in table
    requires TestEmittable(t)
  {
    TestOpenText(t.name) + StatementsText(t.statements, table, order) + BlockCloseText
  }

  predicate ProgramEmittable(p: ProgramData) {
    forall i :: 0 <= i < |p.tests| ==> TestEmittable(p.tests[i])
  }

  function TestsText(ts: seq<TestData>, table: map<string, string>, order: seq<string>): string
    requires forall k :: k in order ==> k in table
    requires forall i :: 0 <= i < |ts| ==> TestEmittable(ts[i])
    decreases |ts|
  {
    if ts == [] then []
    else TestsText(ts[..|ts| - 1], table, order) + TestMethodText(ts[|ts| - 1], table, order)
  }

  /** Everything before the test methods. */
  function PreambleText(config: Option<ConfigData>): string {
    ImportsText + ClassHeaderText(BaseUrl(config)) + SetupText(config)
  }

  /** The whole class `generate` appends for a valid program. */
  function GeneratedText(p: ProgramData, table: map<string, string>, order: seq<string>): string
    requires forall k :: k in order ==> k in table
    requires ProgramEmittable(p)
  {
    PreambleText(p.config) + TestsText(p.tests, table, order) + "}\n"
  }
}
