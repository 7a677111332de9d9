/** Properties of the text `generate` appends: how many test methods it holds, how many
    lines the header loops write, and which values the emitted Java string literals
    stand for. */
module OutputProperties {
  import opened Wrappers
  import opened JavaString
  import opened Escaping
  import opened Ast
  import opened Substitution
  import opened Emission

  // ------------------------------------------------------------ one @Test per test

  /** Number of `@` characters: the class's only annotations are `@BeforeAll` and `@Test`. */
  function AtCount(s: string): nat
    decreases |s|
  {
    if s == [] then 0 else AtCount(s[..|s| - 1]) + (if s[|s| - 1] == '@' then 1 else 0)
  }

  lemma {:induction false} AtCountConcat(a: string, b: string)
    ensures AtCount(a + b) == AtCount(a) + AtCount(b)
    decreases |b|
  {
    if b == [] {
      assert a + b == a;
    } else {
      assert (a + b)[..|a + b| - 1] == a + b[..|b| - 1];
      AtCountConcat(a, b[..|b| - 1]);
    }
  }

  lemma {:induction false} AtCountFree(s: string)
    requires '@' !in s
    ensures AtCount(s) == 0
    decreases |s|
  {
    if s != [] {
      AtCountFree(s[..|s| - 1]);
    }
  }

  lemma AtCountThree(a: string, b: string, c: string)
    ensures AtCount(a + b + c) == AtCount(a) + AtCount(b) + AtCount(c)
  {
    AtCountConcat(a, b);
    AtCountConcat(a + b, c);
  }

  /** A piece of fixed text without `@`, checked character by character. */
  lemma NoAt(s: string)
    requires forall i :: 0 <= i < |s| ==> s[i] != '@'
    ensures '@' !in s
  {
  }

  /** A text with a single `@`, at index `k`. */
  lemma SingleAt(s: string, k: nat)
    requires k < |s| && s[k] == '@'
    requires forall i :: 0 <= i < |s| && i != k ==> s[i] != '@'
    ensures AtCount(s) == 1
  {
    assert s == s[..k] + [s[k]] + s[k + 1..];
    NoAt(s[..k]);
    NoAt(s[k + 1..]);
    AtCountFree(s[..k]);
    AtCountFree(s[k + 1..]);
    AtCountConcat(s[..k], [s[k]]);
    AtCountConcat(s[..k] + [s[k]], s[k + 1..]);
    assert AtCount([s[k]]) == 1 by {
      assert [s[k]][..0] == [];
    }
  }

  /** The texts a program supplies that end up in the class, none holding an `@`. */
  predicate HeadersWithoutAt(hs: seq<Header>) {
    forall i :: 0 <= i < |hs| ==> '@' !in hs[i].key && '@' !in hs[i].value
  }

  predicate OptionWithoutAt(o: Option<string>) {
    o.Some? ==> '@' !in o.value
  }

  predicate StatementWithoutAt(s: Statement) {
    match s
    case RequestStatement(r) => '@' !in r.url && OptionWithoutAt(r.body) && HeadersWithoutAt(r.headers)
    case AssertionStatement(a) => OptionWithoutAt(a.key) && OptionWithoutAt(a.value)
  }

  predicate TestWithoutAt(t: TestData) {
    '@' !in t.name && forall i :: 0 <= i < |t.statements| ==> StatementWithoutAt(t.statements[i])
  }

  predicate ProgramWithoutAt(p: ProgramData) {
    && (p.config.Some? ==> OptionWithoutAt(p.config.value.baseUrl) && HeadersWithoutAt(p.config.value.headers))
    && forall i :: 0 <= i < |p.tests| ==> TestWithoutAt(p.tests[i])
  }

  predicate TableWithoutAt(table: map<string, string>) {
    forall k :: k in table ==> '@' !in table[k]
  }

  /** Each annotation line holds one `@`. */
  lemma AnnotationLines()
    ensures AtCount(TestAnnotationText) == 1
    ensures AtCount(BeforeAllText) == 1
  {
    SingleAt(TestAnnotationText, 4);
    SingleAt(BeforeAllText, 4);
  }

  lemma ImportsWithoutAt()
    ensures '@' !in ImportsText
  {
    NoAt("import org.junit.");
    NoAt("jupiter.api.*;\n");
    NoAt("import static ");
    NoAt("org.junit.jupiter.");
    NoAt("api.Assertions.*;\n");
    NoAt("import java.net.");
    NoAt("http.*;\n");
    NoAt("import java.net.*;\n");
    NoAt("import java.time.");
    NoAt("Duration;\n");
    NoAt("import java.nio.");
    NoAt("charset.");
    NoAt("StandardCharsets;\n");
    NoAt("import java.util.*;\n\n");
  }

  lemma ClassFieldsWithoutAt()
    ensures '@' !in ClassFieldsText
  {
    NoAt("    static Map<");
    NoAt("String,String> ");
    NoAt("DEFAULT_HEADERS = ");
    NoAt("new HashMap<>();\n");
    NoAt("    static ");
    NoAt("HttpClient client;\n\n");
  }

  lemma ClassHeaderWithoutAt(baseUrl: string)
    requires '@' !in baseUrl
    ensures '@' !in ClassHeaderText(baseUrl)
  {
    NoAt("public class ");
    NoAt("GeneratedTests {\n\n");
    NoAt("    static String ");
    NoAt("BASE = \"");
    ClassFieldsWithoutAt();
  }

  /** The setup method's first lines hold one `@`, its `@BeforeAll`. */
  lemma SetupOpenCount()
    ensures AtCount(SetupOpenText) == 1
  {
    NoAt("    static void ");
    NoAt("setup() {\n");
    NoAt("        client = ");
    NoAt("HttpClient.");
    NoAt("newBuilder()");
    NoAt(".connectTimeout(");
    NoAt("Duration.ofSeconds(5))");
    NoAt(".build();\n");
    AnnotationLines();
    AtCountFree(SetupSignatureText);
    AtCountConcat(BeforeAllText, SetupSignatureText);
  }

  lemma EscapedWithoutAt(s: string)
    requires '@' !in s
    ensures '@' !in EscapeJava(s)
  {
    EscapeKeepsOut(s, '@');
  }

  lemma SubstitutedWithoutAt(text: string, table: map<string, string>, order: seq<string>)
    requires forall k :: k in order ==> k in table
    requires '@' !in text && TableWithoutAt(table)
    ensures '@' !in Substitute(text, table, order)
  {
    SubstituteKeepsOut(text, table, order, '@');
  }

  lemma DefaultHeaderLineWithoutAt(h: Header)
    requires '@' !in h.key && '@' !in h.value
    ensures '@' !in DefaultHeaderLine(h)
  {
    NoAt("        DEFAULT_");
    NoAt("HEADERS.put(\"");
    EscapedWithoutAt(h.key);
    EscapedWithoutAt(h.value);
  }

  lemma {:induction false} DefaultHeaderLinesWithoutAt(hs: seq<Header>)
    requires HeadersWithoutAt(hs)
    ensures '@' !in DefaultHeaderLines(hs)
    decreases |hs|
  {
    if hs != [] {
      var n := |hs| - 1;
      DefaultHeaderLinesWithoutAt(hs[..n]);
      DefaultHeaderLineWithoutAt(hs[n]);
    }
  }

  lemma RequestHeaderLineWithoutAt(h: Header)
    requires '@' !in h.key && '@' !in h.value
    ensures '@' !in RequestHeaderLine(h)
  {
    NoAt("        b.header(\"");
    EscapedWithoutAt(h.key);
    EscapedWithoutAt(h.value);
  }

  lemma {:induction false} RequestHeaderLinesWithoutAt(hs: seq<Header>)
    requires HeadersWithoutAt(hs)
    ensures '@' !in RequestHeaderLines(hs)
    decreases |hs|
  {
    if hs != [] {
      var n := |hs| - 1;
      RequestHeaderLinesWithoutAt(hs[..n]);
      RequestHeaderLineWithoutAt(hs[n]);
    }
  }

  lemma RequestOpenWithoutAt(url: string)
    requires '@' !in url
    ensures '@' !in RequestOpenText(url)
  {
    NoAt("        HttpRequest.");
    NoAt("Builder b = ");
    NoAt("HttpRequest.");
    NoAt("newBuilder(");
    NoAt("URI.create(");
    NoAt("BASE + \"");
    NoAt("            .timeout(");
    NoAt("Duration.");
    NoAt("ofSeconds(10))\n");
  }

  lemma MethodCallPiecesWithoutAt()
    ensures '@' !in GetCallText && '@' !in DeleteCallText
    ensures '@' !in PostNoBodyText && '@' !in PutNoBodyText
    ensures '@' !in PostBodyPrefix && '@' !in PutBodyPrefix
  {
    NoAt(GetCallText);
    NoAt(DeleteCallText);
    NoAt("            .POST(");
    NoAt("            .PUT(");
    NoAt("HttpRequest.");
    NoAt("BodyPublishers.");
    NoAt("noBody());\n");
    NoAt("ofString(\"");
  }

  lemma MethodCallWithoutAt(httpMethod: string, body: Option<string>)
    requires OptionWithoutAt(body)
    ensures '@' !in MethodCallText(httpMethod, body)
  {
    MethodCallPiecesWithoutAt();
    if body.Some? {
      EscapedWithoutAt(body.value);
    }
  }

  lemma RequestTailWithoutAt()
    ensures '@' !in DefaultHeadersLoopText && '@' !in SendText
  {
    NoAt("        for (var e: ");
    NoAt("DEFAULT_HEADERS.");
    NoAt("entrySet()) ");
    NoAt("b.header(");
    NoAt("e.getKey(), ");
    NoAt("e.getValue());\n");
    NoAt("        HttpResponse");
    NoAt("<String> resp = ");
    NoAt("client.send(");
    NoAt("b.build(), ");
    NoAt("HttpResponse.");
    NoAt("BodyHandlers.");
    NoAt("ofString(");
    NoAt("StandardCharsets.");
    NoAt("UTF_8));\n\n");
  }

  lemma RequestWithoutAt(r: RequestData, table: map<string, string>, order: seq<string>)
    requires forall k :: k in order ==> k in table
    requires StatementWithoutAt(RequestStatement(r)) && TableWithoutAt(table)
    ensures '@' !in RequestText(r, table, order)
  {
    SubstitutedWithoutAt(r.url, table, order);
    RequestOpenWithoutAt(Substitute(r.url, table, order));
    if r.body.Some? {
      SubstitutedWithoutAt(r.body.value, table, order);
    }
    MethodCallWithoutAt(r.httpMethod, SubstituteOption(r.body, table, order));
    RequestHeaderLinesWithoutAt(r.headers);
    RequestTailWithoutAt();
  }

  lemma AssertionPiecesWithoutAt()
    ensures '@' !in HeaderEqualsPrefix && '@' !in HeaderEqualsMiddle
    ensures '@' !in HeaderContainsPrefix && '@' !in HeaderContainsMiddle
    ensures '@' !in BodyContainsPrefix
  {
    NoAt(HeaderEqualsPrefix);
    NoAt(", resp.");
    NoAt("headers().");
    NoAt("firstValue(\"");
    NoAt("        assertTrue(");
    NoAt("resp.headers().");
    NoAt(").orElse(\"\")");
    NoAt(".contains(\"");
    NoAt("resp.body().");
    NoAt("contains(\"");
  }

  lemma AssertionLineWithoutAt(kind: AssertionType, statusCode: Option<int>, key: Option<string>, value: Option<string>)
    requires kind.HeaderEquals? || kind.HeaderContains? ==> key.Some? && value.Some?
    requires kind.BodyContains? ==> value.Some?
    requires OptionWithoutAt(key) && OptionWithoutAt(value)
    ensures '@' !in AssertionLine(kind, statusCode, key, value)
  {
    AssertionPiecesWithoutAt();
    if key.Some? {
      EscapedWithoutAt(key.value);
    }
    if value.Some? {
      EscapedWithoutAt(value.value);
    }
    if kind.StatusEquals? {
      NoAt("        assertEquals(");
      NoAt("statusCode());\n");
      if statusCode.Some? {
        IntToStringChars(statusCode.value, '@');
      }
    }
  }

  lemma AssertionWithoutAt(a: AssertionData, table: map<string, string>, order: seq<string>)
    requires forall k :: k in order ==> k in table
    requires AssertionEmittable(a) && StatementWithoutAt(AssertionStatement(a)) && TableWithoutAt(table)
    ensures '@' !in AssertionText(a, table, order)
  {
    if a.key.Some? {
      SubstitutedWithoutAt(a.key.value, table, order);
    }
    if a.value.Some? {
      SubstitutedWithoutAt(a.value.value, table, order);
    }
    AssertionLineWithoutAt(a.kind, a.statusCode, SubstituteOption(a.key, table, order), SubstituteOption(a.value, table, order));
  }

  lemma {:induction false} StatementsWithoutAt(ss: seq<Statement>, table: map<string, string>, order: seq<string>)
    requires forall k :: k in order ==> k in table
    requires forall i :: 0 <= i < |ss| ==> StatementEmittable(ss[i]) && StatementWithoutAt(ss[i])
    requires TableWithoutAt(table)
    ensures '@' !in StatementsText(ss, table, order)
    decreases |ss|
  {
    if ss != [] {
      var n := |ss| - 1;
      StatementsWithoutAt(ss[..n], table, order);
      match ss[n] {
        case RequestStatement(r) => RequestWithoutAt(r, table, order);
        case AssertionStatement(a) => AssertionWithoutAt(a, table, order);
      }
    }
  }

  /** The first two lines of a test method hold one `@`, its `@Test`. */
  lemma TestOpenAnnotation(name: string)
    requires '@' !in name
    ensures AtCount(TestOpenText(name)) == 1
    ensures TestAnnotationText <= TestOpenText(name)
  {
    AnnotationLines();
    NoAt("    void test_");
    NoAt("() throws ");
    NoAt("Exception {\n");
    AtCountFree("    void test_");
    AtCountFree(name);
    AtCountFree("() throws ");
    AtCountFree("Exception {\n");
    AtCountConcat(TestAnnotationText, "    void test_");
    AtCountConcat(TestAnnotationText + "    void test_", name);
    AtCountConcat(TestAnnotationText + "    void test_" + name, "() throws ");
    AtCountConcat(TestAnnotationText + "    void test_" + name + "() throws ", "Exception {\n");
  }

  /** A test method opens with its `@Test` line and holds no other `@`. */
  lemma TestMethodAnnotation(t: TestData, table: map<string, string>, order: seq<string>)
    requires forall k :: k in order ==> k in table
    requires TestEmittable(t) && TestWithoutAt(t) && TableWithoutAt(table)
    ensures AtCount(TestMethodText(t, table, order)) == 1
    ensures TestAnnotationText <= TestMethodText(t, table, order)
  {
    TestOpenAnnotation(t.name);
    StatementsWithoutAt(t.statements, table, order);
    AtCountFree(StatementsText(t.statements, table, order));
    AtCountFree(BlockCloseText);
    AtCountThree(TestOpenText(t.name), StatementsText(t.statements, table, order), BlockCloseText);
  }

  lemma {:induction false} TestsAnnotations(ts: seq<TestData>, table: map<string, string>, order: seq<string>)
    requires forall k :: k in order ==> k in table
    requires forall i :: 0 <= i < |ts| ==> TestEmittable(ts[i]) && TestWithoutAt(ts[i])
    requires TableWithoutAt(table)
    ensures AtCount(TestsText(ts, table, order)) == |ts|
    decreases |ts|
  {
    if ts != [] {
      var n := |ts| - 1;
      TestsAnnotations(ts[..n], table, order);
      TestMethodAnnotation(ts[n], table, order);
      AtCountConcat(TestsText(ts[..n], table, order), TestMethodText(ts[n], table, order));
    }
  }

  /** The setup method holds one `@`, its `@BeforeAll`. */
  lemma SetupAnnotation(config: Option<ConfigData>)
    requires config.Some? ==> HeadersWithoutAt(config.value.headers)
    ensures AtCount(SetupText(config)) == 1
  {
    SetupOpenCount();
    DefaultHeaderLinesWithoutAt(ConfigHeaders(config));
    AtCountFree(DefaultHeaderLines(ConfigHeaders(config)));
    AtCountFree("    }\n\n");
    AtCountThree(SetupOpenText, DefaultHeaderLines(ConfigHeaders(config)), "    }\n\n");
  }

  /** Everything before the test methods holds one `@`, the setup's `@BeforeAll`. */
  lemma PreambleAnnotation(config: Option<ConfigData>)
    requires config.Some? ==> OptionWithoutAt(config.value.baseUrl) && HeadersWithoutAt(config.value.headers)
    ensures AtCount(PreambleText(config)) == 1
  {
    ImportsWithoutAt();
    ClassHeaderWithoutAt(BaseUrl(config));
    AtCountFree(ImportsText);
    AtCountFree(ClassHeaderText(BaseUrl(config)));
    SetupAnnotation(config);
    AtCountThree(ImportsText, ClassHeaderText(BaseUrl(config)), SetupText(config));
  }

  /** The generated class has the setup's `@BeforeAll` and one `@Test` per test, each
      opening its test method, and no other `@`, when no text the program supplies (and
      no variable value) brings in an `@` of its own. */
  lemma GeneratedAnnotations(p: ProgramData, table: map<string, string>, order: seq<string>)
    requires forall k :: k in order ==> k in table
    requires ProgramEmittable(p) && ProgramWithoutAt(p) && TableWithoutAt(table)
    ensures AtCount(GeneratedText(p, table, order)) == |p.tests| + 1
    ensures AtCount(TestsText(p.tests, table, order)) == |p.tests|
    ensures forall i :: 0 <= i < |p.tests| ==> TestAnnotationText <= TestMethodText(p.tests[i], table, order)
  {
    PreambleAnnotation(p.config);
    TestsAnnotations(p.tests, table, order);
    AtCountFree("}\n");
    AtCountThree(PreambleText(p.config), TestsText(p.tests, table, order), "}\n");
    forall i | 0 <= i < |p.tests| {
      TestMethodAnnotation(p.tests[i], table, order);
    }
  }

  // ------------------------------------------------------------ one line per header

  /** A text without line breaks, closed by `");\n"`, is exactly one line. */
  lemma ClosedLine(x: string)
    requires '\n' !in x
    ensures var line := x + ");\n"; line[|line| - 1] == '\n' && '\n' !in line[..|line| - 1]
  {
    var line := x + ");\n";
    assert line[..|line| - 1] == x + ");";
  }

  /** A header becomes exactly one line of `setup`. */
  lemma DefaultHeaderLineIsOneLine(h: Header)
    ensures var line := DefaultHeaderLine(h); line != [] && line[|line| - 1] == '\n' && '\n' !in line[..|line| - 1]
  {
    EscapedHasNoLineBreaks(h.key);
    EscapedHasNoLineBreaks(h.value);
    ClosedLine(DefaultHeaderPrefix + EscapeJava(h.key) + "\"" + ",\"" + EscapeJava(h.value) + "\"");
  }

  /** A request header becomes exactly one line of the test method. */
  lemma RequestHeaderLineIsOneLine(h: Header)
    ensures var line := RequestHeaderLine(h); line != [] && line[|line| - 1] == '\n' && '\n' !in line[..|line| - 1]
  {
    EscapedHasNoLineBreaks(h.key);
    EscapedHasNoLineBreaks(h.value);
    ClosedLine(RequestHeaderPrefix + EscapeJava(h.key) + "\"" + ", \"" + EscapeJava(h.value) + "\"");
  }

  /** A text without line breaks, closed by `");\n"`, counts as one line. */
  lemma ClosedLineCount(x: string)
    requires '\n' !in x
    ensures Occurrences(x + ");\n", "\n") == 1
  {
    assert NoPartialMatchAtEnd(x, "\n");
    OccurrencesConcat(x, ");\n", "\n");
    OccurrencesAbsent(x, "\n");
  }

  lemma DefaultHeaderLineCount(h: Header)
    ensures Occurrences(DefaultHeaderLine(h), "\n") == 1
  {
    EscapedHasNoLineBreaks(h.key);
    EscapedHasNoLineBreaks(h.value);
    ClosedLineCount(DefaultHeaderPrefix + EscapeJava(h.key) + "\"" + ",\"" + EscapeJava(h.value) + "\"");
  }

  /** `setup` writes one line per config header, duplicates included. */
  lemma {:induction false} DefaultHeaderLinesCount(hs: seq<Header>)
    ensures Occurrences(DefaultHeaderLines(hs), "\n") == |hs|
    decreases |hs|
  {
    if hs != [] {
      var n := |hs| - 1;
      DefaultHeaderLinesCount(hs[..n]);
      DefaultHeaderLineCount(hs[n]);
      OccurrencesConcat(DefaultHeaderLines(hs[..n]), DefaultHeaderLine(hs[n]), "\n");
    }
  }

  lemma RequestHeaderLineCount(h: Header)
    ensures Occurrences(RequestHeaderLine(h), "\n") == 1
  {
    EscapedHasNoLineBreaks(h.key);
    EscapedHasNoLineBreaks(h.value);
    ClosedLineCount(RequestHeaderPrefix + EscapeJava(h.key) + "\"" + ", \"" + EscapeJava(h.value) + "\"");
  }

  /** A request writes one `b.header` line per request header. */
  lemma {:induction false} RequestHeaderLinesCount(hs: seq<Header>)
    ensures Occurrences(RequestHeaderLines(hs), "\n") == |hs|
    decreases |hs|
  {
    if hs != [] {
      var n := |hs| - 1;
      RequestHeaderLinesCount(hs[..n]);
      RequestHeaderLineCount(hs[n]);
      OccurrencesConcat(RequestHeaderLines(hs[..n]), RequestHeaderLine(hs[n]), "\n");
    }
  }

  // ------------------------------------------------------------ what the literals mean

  /** An escaped text placed after an opening quote reads back as itself. */
  lemma ReadsBackAfter(prefix: string, x: string, rest: string)
    ensures ReadLiteral((prefix + EscapeJava(x) + "\"" + rest)[|prefix|..]) == Some((x, rest))
  {
    assert (prefix + EscapeJava(x) + "\"" + rest)[|prefix|..] == EscapeJava(x) + "\"" + rest;
    LiteralRoundTrip(x, rest);
  }

  /** A line with two literals, `prefix "x" middle "y" suffix`: the first literal reads
      back as `x`, and what follows it, past `middle`, reads back as `y`. */
  lemma TwoLiteralsReadBack(prefix: string, x: string, middle: string, y: string, suffix: string)
    ensures var line := prefix + EscapeJava(x) + "\"" + middle + EscapeJava(y) + "\"" + suffix;
      var after := middle + EscapeJava(y) + "\"" + suffix;
      && ReadLiteral(line[|prefix|..]) == Some((x, after))
      && ReadLiteral(after[|middle|..]) == Some((y, suffix))
  {
    var head := prefix + EscapeJava(x) + "\"";
    AppendAssoc(head + middle + EscapeJava(y), "\"", suffix);
    AppendAssoc(head + middle, EscapeJava(y), "\"" + suffix);
    AppendAssoc(head, middle, EscapeJava(y) + ("\"" + suffix));
    AppendAssoc(middle, EscapeJava(y), "\"" + suffix);
    AppendAssoc(middle + EscapeJava(y), "\"", suffix);
    ReadsBackAfter(prefix, x, middle + EscapeJava(y) + "\"" + suffix);
    ReadsBackAfter(middle, y, suffix);
  }

  /** A config header line: the first literal is the key, the second the value, both
      exactly as declared. */
  lemma DefaultHeaderLineReadsBack(h: Header)
    ensures var after := ",\"" + EscapeJava(h.value) + "\"" + ");\n";
      && ReadLiteral(DefaultHeaderLine(h)[|DefaultHeaderPrefix|..]) == Some((h.key, after))
      && ReadLiteral(after[2..]) == Some((h.value, ");\n"))
  {
    TwoLiteralsReadBack(DefaultHeaderPrefix, h.key, ",\"", h.value, ");\n");
  }

  /** A request header line: the two literals are the header's key and value. */
  lemma RequestHeaderLineReadsBack(h: Header)
    ensures var after := ", \"" + EscapeJava(h.value) + "\"" + ");\n";
      && ReadLiteral(RequestHeaderLine(h)[|RequestHeaderPrefix|..]) == Some((h.key, after))
      && ReadLiteral(after[3..]) == Some((h.value, ");\n"))
  {
    TwoLiteralsReadBack(RequestHeaderPrefix, h.key, ", \"", h.value, ");\n");
  }

  /** The body literal of a POST or PUT is the body after substitution. */
  lemma BodyReadsBack(httpMethod: string, body: string)
    requires httpMethod == "POST" || httpMethod == "PUT"
    ensures var prefix := if httpMethod == "POST" then PostBodyPrefix else PutBodyPrefix;
      ReadLiteral(MethodCallText(httpMethod, Some(body))[|prefix|..]) == Some((body, "));\n"))
  {
    var prefix := if httpMethod == "POST" then PostBodyPrefix else PutBodyPrefix;
    AppendAssoc(prefix + EscapeJava(body), "\"", "));\n");
    ReadsBackAfter(prefix, body, "));\n");
  }

  /** GET and DELETE ignore any body, POST and PUT without a body send none, and a method
      outside the four gives no call. */
  lemma MethodCallCases(httpMethod: string, body: Option<string>)
    ensures MethodCallText("GET", body) == GetCallText
    ensures MethodCallText("DELETE", body) == DeleteCallText
    ensures MethodCallText("POST", None) == PostNoBodyText
    ensures MethodCallText("PUT", None) == PutNoBodyText
    ensures httpMethod != "GET" && httpMethod != "DELETE" && httpMethod != "POST" && httpMethod != "PUT" ==>
      MethodCallText(httpMethod, body) == ""
  {
  }

  /** The literal of a body assertion is its value after substitution. */
  lemma BodyContainsReadsBack(value: string)
    ensures ReadLiteral(AssertionLine(BodyContains, None, None, Some(value))[|BodyContainsPrefix|..])
      == Some((value, "));\n"))
  {
    ReadsBackAfter(BodyContainsPrefix, value, "));\n");
  }

  /** A header-equals assertion compares against its value after substitution, and looks
      up its key after substitution. */
  lemma HeaderEqualsReadsBack(key: string, value: string)
    ensures var after := HeaderEqualsMiddle + EscapeJava(key) + "\"" + ").orElse(\"\"));\n";
      && ReadLiteral(AssertionLine(HeaderEquals, None, Some(key), Some(value))[|HeaderEqualsPrefix|..])
        == Some((value, after))
      && ReadLiteral(after[|HeaderEqualsMiddle|..]) == Some((key, ").orElse(\"\"));\n"))
  {
    TwoLiteralsReadBack(HeaderEqualsPrefix, value, HeaderEqualsMiddle, key, ").orElse(\"\"));\n");
  }

  /** A header-contains assertion looks up its key after substitution and searches for
      its value after substitution. */
  lemma HeaderContainsReadsBack(key: string, value: string)
    ensures var after := HeaderContainsMiddle + EscapeJava(value) + "\"" + "));\n";
      && ReadLiteral(AssertionLine(HeaderContains, None, Some(key), Some(value))[|HeaderContainsPrefix|..])
        == Some((key, after))
      && ReadLiteral(after[|HeaderContainsMiddle|..]) == Some((value, "));\n"))
  {
    TwoLiteralsReadBack(HeaderContainsPrefix, key, HeaderContainsMiddle, value, "));\n");
  }

  /** A status assertion compares against the declared code, in decimal. */
  lemma StatusCodeReadsBack(code: Option<int>)
    ensures code.Some? ==> ParseInt(StatusCodeText(code)) == code
    ensures code.None? ==> StatusCodeText(code) == "null"
  {
    if code.Some? {
      IntToStringRoundTrip(code.value);
    }
  }

  // ------------------------------------------------------------ URLs are not escaped

  /** A URL without quote, backslash or line break reads back from its literal. */
  lemma {:induction false} PlainUrlReadsBack(url: string, rest: string)
    requires forall i :: 0 <= i < |url| ==> url[i] != '"' && url[i] != '\\' && url[i] != '\n' && url[i] != '\r'
    ensures ReadLiteral(url + "\"" + rest) == Some((url, rest))
    decreases |url|
  {
    if url == [] {
      assert url + "\"" + rest == "\"" + rest;
    } else {
      PlainUrlReadsBack(url[1..], rest);
      assert (url + "\"" + rest)[1..] == url[1..] + "\"" + rest;
      assert [url[0]] + url[1..] == url;
    }
  }

  /** A path goes after `BASE + "`, any other URL into a literal of its own; either way
      the literal reads back as the URL when nothing in it ends or breaks the literal. */
  lemma UrlLiteralReadsBack(url: string)
    requires forall i :: 0 <= i < |url| ==> url[i] != '"' && url[i] != '\\' && url[i] != '\n' && url[i] != '\r'
    ensures "/" <= url ==> FullUrlText(url)[..8] == "BASE + \"" && ReadLiteral(FullUrlText(url)[8..]) == Some((url, []))
    ensures !("/" <= url) ==> FullUrlText(url)[..1] == "\"" && ReadLiteral(FullUrlText(url)[1..]) == Some((url, []))
  {
    PlainUrlReadsBack(url, []);
    assert url + "\"" + [] == url + "\"";
    if "/" <= url {
      assert FullUrlText(url)[8..] == url + "\"";
    } else {
      assert FullUrlText(url)[1..] == url + "\"";
    }
  }

  /** Since the URL goes into the literal unescaped, a quote in it ends the literal early:
      the literal stands for the text before the quote, and the rest of the URL is left
      over as Java code. */
  lemma UnescapedQuoteEndsUrl(url: string, j: nat, rest: string)
    requires j < |url| && url[j] == '"'
    requires forall i :: 0 <= i < j ==> url[i] != '"' && url[i] != '\\' && url[i] != '\n' && url[i] != '\r'
    ensures ReadLiteral(url + "\"" + rest) == Some((url[..j], url[j + 1..] + "\"" + rest))
    ensures url[..j] != url
  {
    PlainUrlReadsBack(url[..j], url[j + 1..] + "\"" + rest);
    assert url[..j] + "\"" + (url[j + 1..] + "\"" + rest) == url + "\"" + rest by {
      assert url == url[..j] + "\"" + url[j + 1..];
    }
  }

  /** A concrete case: `/a"b` comes out as the literal `"/a"` followed by `b"`. */
  lemma QuotedUrlExample()
    ensures FullUrlText("/a\"b") == "BASE + \"/a\"b\""
    ensures ReadLiteral(FullUrlText("/a\"b")[8..]) == Some(("/a", "b\""))
  {
    var url := "/a\"b";
    assert "/" <= url;
    assert FullUrlText(url)[8..] == url + "\"" + "";
    UnescapedQuoteEndsUrl(url, 2, "");
    assert url[..2] == "/a";
    assert url[3..] + "\"" + "" == "b\"";
  }

  // ------------------------------------------------------------ substitution at work

  /** The table of the generator's own test program, `let userId = 42` and
      `let name = "John"`. */
  function UserIdVariables(): seq<Variable> {
    [Variable("userId", Integer(42)), Variable("name", Text("John"))]
  }

  lemma UserIdTable()
    ensures var table := BindAll(map[], UserIdVariables());
      && table.Keys == {"userId", "name"}
      && table["userId"] == "42" && table["name"] == "John"
      && PrefixFree(table.Keys)
      && forall k :: k in table ==> '$' !in k && '$' !in table[k]
  {
    var vars := UserIdVariables();
    var table := BindAll(map[], vars);
    assert "userId" != "name" by {
      assert "userId"[0] != "name"[0];
    }
    LastDeclarationWins(map[], vars, 0);
    LastDeclarationWins(map[], vars, 1);
    assert table["userId"] == "42" by {
      assert NatToString(42) == NatToString(4) + [DigitChar(2)];
    }
    forall k | k !in {"userId", "name"}
      ensures k !in table
    {
      UndeclaredNameUnchanged(map[], vars, k);
    }
    assert !("userId" <= "name") by { assert "userId"[0] != "name"[0]; }
    assert !("name" <= "userId") by { assert "userId"[0] != "name"[0]; }
  }

  /** The program of the generator's own test: `/api/users/$userId` comes out as
      `/api/users/42`, whatever order the map visits its two entries in. */
  lemma UserIdUrlExample(order: seq<string>)
    requires IsEntryOrder(order, {"userId", "name"})
    ensures var table := BindAll(map[], UserIdVariables());
      && (forall k :: k in order ==> k in table)
      && Substitute("/api/users/" + "$userId", table, order) == "/api/users/" + "42"
  {
    var table := BindAll(map[], UserIdVariables());
    UserIdTable();
    var t := [Literal("/api/users/"), Placeholder("userId")];
    assert Flatten(t) == "/api/users/" + "$userId" by {
      assert Flatten(t[1..][1..]) == [];
    }
    assert Render(t, table) == "/api/users/" + "42" by {
      assert Render(t[1..][1..], table) == [];
    }
    PrefixFreeSeparated(t, table.Keys);
    SubstituteTemplate(t, table, order);
  }

  /** ... and `$name` comes out as `John`. */
  lemma UserNameExample(order: seq<string>)
    requires IsEntryOrder(order, {"userId", "name"})
    ensures var table := BindAll(map[], UserIdVariables());
      && (forall k :: k in order ==> k in table)
      && Substitute("$name", table, order) == "John"
  {
    var table := BindAll(map[], UserIdVariables());
    UserIdTable();
    var t := [Placeholder("name")];
    assert Flatten(t) == "$name" by {
      assert Flatten(t[1..]) == [];
    }
    assert Render(t, table) == "John" by {
      assert Render(t[1..], table) == [];
    }
    PrefixFreeSeparated(t, table.Keys);
    SubstituteTemplate(t, table, order);
  }

  /** A placeholder that no `let` declares is left as written: `$id` stays `$id`. */
  lemma UndeclaredExample(order: seq<string>)
    requires IsEntryOrder(order, {"userId", "name"})
    ensures var table := BindAll(map[], UserIdVariables());
      && (forall k :: k in order ==> k in table)
      && Substitute("$id", table, order) == "$id"
  {
    var table := BindAll(map[], UserIdVariables());
    UserIdTable();
    var t := [Placeholder("id")];
    assert Flatten(t) == "$id" by {
      assert Flatten(t[1..]) == [];
    }
    assert "id" !in table by {
      assert "id"[0] != "userId"[0] && "id"[0] != "name"[0];
    }
    assert Separated(t, table.Keys) by {
      assert !("id" <= "userId") && !("userId" <= "id") && !("id" <= "name") && !("name" <= "id") by {
        assert "id"[0] != "userId"[0] && "id"[0] != "name"[0];
      }
    }
    assert Render(t, table) == "$id" by {
      assert Render(t[1..], table) == [];
    }
    SubstituteTemplate(t, table, order);
  }
}
