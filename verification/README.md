# Testlang code generator, modelled in Dafny

Testlang is a small language for HTTP API tests. A test file has an optional `config`
block (a base URL and default headers), `let` declarations of String or Integer
variables, and `test` blocks. Each test block holds requests (`GET`, `POST`, `PUT`,
`DELETE`, with a URL, headers and an optional body) and assertions (a status code, a
header's value, a header containing a text, or the body containing a text). The parser
builds an AST from such a file. The `CodeGenerator` turns that AST into the source of a
JUnit 5 class named `GeneratedTests`, in which each test block becomes one `@Test`
method using `java.net.http`.

This project models the back end of the compiler:

- `ast.dfy` (module `Ast`): the AST node classes. `Variable` is a value. `Assertion`,
  `Request`, `Config`, `Test` and `Program` are classes whose setters and adders change
  one field. Each class has `Data()`, which gives the value the node holds.
- `exceptions.dfy` (module `Exceptions`): the messages of `ValidationException`,
  `LexerException` and `ParserException`, including the lexer's `escapeForDisplay`.
- `java_string.dfy` (module `JavaString`): the `java.lang.String` operations the
  generator relies on. These are `replace`, `contains` and `Integer.toString`. It also
  has an occurrence count used by the lemmas about the output.
- `escaping.dfy` (module `Escaping`): `escapeJava`. It comes with a reference definition
  (one escape per character) and with how a Java compiler reads a string literal back
  (section 3.10.7 of the Java Language Specification, without octal escapes).
- `substitution.dfy` (module `Substitution`): the variable table that `let` declarations
  fill, and `substituteVariables`. The latter applies `replace("$" + key, value)` once
  per table entry, in the map's iteration order.
- `validation.dfy` (module `Validation`): what `validate`, `validateTest` and
  `checkUnusedVariables` compute, as functions of the program.
- `emission.dfy` (module `Emission`): the text each `generate*` method appends, as
  functions of the program, the variable table and the table's iteration order.
- `code_generator.dfy` (module `CodeGen`): the `CodeGenerator` class itself. It has:
  - the program it was built with;
  - the `code` buffer, which persists across calls of `Generate`;
  - the variable table;
  - the order in which the table's entries are visited.

  Each method is proved to append exactly the text `Emission` defines, or to compute
  what `Validation` defines.
- `output_properties.dfy` (module `OutputProperties`): properties of the generated
  class. These cover:
  - how many `@` annotation markers it holds;
  - which fixed lines take exactly one line;
  - that every escaped string literal (header key and value, request body, assertion key
    and value) reads back as the value put into it;
  - how an unescaped URL can break its literal;
  - the substitution examples `$userId` → `42` and `$name` → `John`.

Some behaviours of the code are reproduced as written:

- The unused-variable check runs before the table is filled. So the first `generate` on
  a generator reports every declared variable (`CodeGen.GenerateTwice`,
  `Validation.EmptyTableWarnsAll`).
- The base URL, request URLs and test names go into the output unescaped.
- Header keys and values are escaped but not substituted.
- Assertion keys and values are substituted first and escaped afterwards.
- An unknown HTTP method emits no method call.
- A second `generate` appends the whole class to the buffer again.

## Model

| member | source | states |
|---|---|---|
| Ast.ValueAsString | parser/src/main/java/com/testlang/ast/Variable.java:23-25 | a String value is returned as it is; an Integer value gives decimal text that parses back to the same number |
| Ast.Assertion.constructor | parser/src/main/java/com/testlang/ast/Assertion.java:19-21 | a new assertion has its type and no key, value or status code |
| Ast.Assertion.SetKey | parser/src/main/java/com/testlang/ast/Assertion.java:31-33 | only the key changes, to the given one |
| Ast.Assertion.SetValue | parser/src/main/java/com/testlang/ast/Assertion.java:39-41 | only the value changes, to the given one |
| Ast.Assertion.SetStatusCode | parser/src/main/java/com/testlang/ast/Assertion.java:47-49 | only the status code changes, to the given one |
| Ast.Request.constructor | parser/src/main/java/com/testlang/ast/Request.java:15-19 | a new request has its method and URL, no headers and no body |
| Ast.Request.AddHeader | parser/src/main/java/com/testlang/ast/Request.java:33-35 | the header is appended after the existing ones, which are kept in order; nothing else changes |
| Ast.Request.SetBody | parser/src/main/java/com/testlang/ast/Request.java:41-43 | only the body changes, to the given one |
| Ast.Config.constructor | parser/src/main/java/com/testlang/ast/Config.java:13-15 | a new config has no base URL and no headers |
| Ast.Config.SetBaseUrl | parser/src/main/java/com/testlang/ast/Config.java:21-23 | only the base URL changes |
| Ast.Config.AddHeader | parser/src/main/java/com/testlang/ast/Config.java:29-31 | the header is appended and the earlier ones kept, duplicates included |
| Ast.ConfigKeepsDuplicateHeaders | parser/src/main/java/com/testlang/ast/Config.java:29-31 | two headers with the same key are both kept, in order |
| Ast.Test.constructor | parser/src/main/java/com/testlang/ast/Test.java:13-16 | a new test has its name and no statements |
| Ast.Test.AddStatement | parser/src/main/java/com/testlang/ast/Test.java:26-28 | the statement is appended after the existing ones, which are kept in order |
| Ast.Program.constructor | parser/src/main/java/com/testlang/ast/Program.java:14-17 | a new program has no config, no variables and no tests |
| Ast.Program.SetConfig | parser/src/main/java/com/testlang/ast/Program.java:23-25 | the config becomes the given one; a null argument clears it |
| Ast.Program.AddVariable | parser/src/main/java/com/testlang/ast/Program.java:31-33 | the variable is appended to the declarations |
| Ast.Program.AddTest | parser/src/main/java/com/testlang/ast/Program.java:39-41 | the test is appended to the tests |
| Exceptions.FormatValidationMessage | parser/src/main/java/com/testlang/parser/ValidationException.java:18-23 | the message starts with "Validation error" and ends with the given message |
| Exceptions.NewValidationException | parser/src/main/java/com/testlang/parser/ValidationException.java:13-16 | the exception keeps the test name, and its message ends with the given message |
| Exceptions.NewUnscopedValidationException | parser/src/main/java/com/testlang/parser/ValidationException.java:9-11 | no test name; the message is "Validation error: " followed by the given message |
| Exceptions.ScopedValidationMessage | parser/src/main/java/com/testlang/parser/ValidationException.java:18-23 | with a test name, the message reads `Validation error in test '<name>': <message>` |
| Exceptions.ScopedAndUnscopedDiffer | parser/src/main/java/com/testlang/parser/ValidationException.java:18-23 | a message that names a test never equals one that does not |
| Exceptions.ValidationMessageInjective | parser/src/main/java/com/testlang/parser/ValidationException.java:18-23 | for a given test name, different messages format differently |
| Exceptions.Truncate | parser/src/main/java/com/testlang/parser/LexerException.java:29-31 | a text of up to 20 characters (counted as code points) is kept; a longer one becomes its first 20 characters followed by "..." |
| Exceptions.EscapeForDisplay | parser/src/main/java/com/testlang/parser/LexerException.java:28-35 | truncation, then the three `replace` calls; `DisplayHasNoLineBreaks`, `DisplayRoundTrip` and `DisplayIsLossy` state what the result is |
| Exceptions.DisplayEscape | parser/src/main/java/com/testlang/parser/LexerException.java:32-34 | the three `replace` calls; `DisplayEscapeIsPerChar` proves them equal to escaping each character on its own |
| Exceptions.DisplayEscapeIsPerChar | parser/src/main/java/com/testlang/parser/LexerException.java:32-34 | the three `replace` calls agree with escaping each character on its own |
| Exceptions.DisplayHasNoLineBreaks | parser/src/main/java/com/testlang/parser/LexerException.java:28-35 | the displayed text holds no raw newline, carriage return or tab |
| Exceptions.DisplayRoundTrip | parser/src/main/java/com/testlang/parser/LexerException.java:28-35 | without backslashes, undoing the display gives back the truncated text |
| Exceptions.DisplayIsLossy | parser/src/main/java/com/testlang/parser/LexerException.java:28-35 | a literal backslash-n and a newline display the same, because backslashes are not escaped |
| Exceptions.FormatLexerMessage | parser/src/main/java/com/testlang/parser/LexerException.java:18-26 | the message starts with `Lexer error at line <line>, column <column>: <message>` |
| Exceptions.NewLexerException | parser/src/main/java/com/testlang/parser/LexerException.java:11-16 | the getters return the constructor's line, column and text; the message is the lexer format |
| Exceptions.LexerNearLine | parser/src/main/java/com/testlang/parser/LexerException.java:18-26 | for a one-line message, a second line appears exactly when non-empty problematic text was given |
| Exceptions.FormatParserMessage | parser/src/main/java/com/testlang/parser/ParserException.java:20-27 | the message starts with `Parse error at line <line>: <message>` |
| Exceptions.NewParserException | parser/src/main/java/com/testlang/parser/ParserException.java:14-18 | the getters return the constructor's line and context; the message is the parser format |
| Exceptions.NewParserExceptionWithoutContext | parser/src/main/java/com/testlang/parser/ParserException.java:10-12 | no context, and the message is exactly `Parse error at line <line>: <message>` |
| Exceptions.ParserContextLine | parser/src/main/java/com/testlang/parser/ParserException.java:20-27 | the context line is present exactly when a non-empty context was given, and it holds that context |
| JavaString.IntToStringRoundTrip | parser/src/main/java/com/testlang/ast/Variable.java:23-25 | the decimal form of an integer parses back to the integer |
| JavaString.IntToStringInjective | parser/src/main/java/com/testlang/ast/Variable.java:23-25 | different integers have different decimal forms |
| JavaString.ReplaceAllKeepsOut | parser/src/main/java/com/testlang/codegen/CodeGenerator.java:283-285 | `replace` adds no character found in neither the text nor the replacement |
| Escaping.EscapeJava | parser/src/main/java/com/testlang/codegen/CodeGenerator.java:289-295 | the five chained `replace` calls; `EscapeJavaIsPerChar` proves them equal to escaping each character on its own, and `LiteralRoundTrip` proves that the result reads back as the input |
| Escaping.EscapeJavaIsPerChar | parser/src/main/java/com/testlang/codegen/CodeGenerator.java:289-295 | the five chained `replace` calls, backslash first, escape each character on its own |
| Escaping.EscapedHasNoLineBreaks | parser/src/main/java/com/testlang/codegen/CodeGenerator.java:289-295 | an escaped string holds no raw newline, carriage return or tab |
| Escaping.EscapeKeepsOut | parser/src/main/java/com/testlang/codegen/CodeGenerator.java:289-295 | escaping adds no character other than a backslash and the escape letters |
| Escaping.LiteralRoundTrip | parser/src/main/java/com/testlang/codegen/CodeGenerator.java:289-295 | an escaped string followed by a quote is a Java string literal whose value is the original string; reading stops at that quote |
| Escaping.EscapeJavaInjective | parser/src/main/java/com/testlang/codegen/CodeGenerator.java:289-295 | different strings have different escapes |
| Substitution.LastDeclarationWins | parser/src/main/java/com/testlang/codegen/CodeGenerator.java:26-28 | a later `let` of the same name overrides an earlier one: the table holds the last declaration's value |
| Substitution.UndeclaredNameUnchanged | parser/src/main/java/com/testlang/codegen/CodeGenerator.java:26-28 | a name that no `let` declares keeps its earlier entry, or stays absent |
| Substitution.DeclaredValueIndependent | parser/src/main/java/com/testlang/codegen/CodeGenerator.java:26-28 | a declared name's value does not depend on what the table held before |
| Substitution.BindAllTwice | parser/src/main/java/com/testlang/codegen/CodeGenerator.java:26-28 | storing the same declarations twice gives the same table as storing them once |
| Substitution.EntryOrderInsert | parser/src/main/java/com/testlang/codegen/CodeGenerator.java:27 | a new key inserted anywhere into an iteration order gives an iteration order of the grown map |
| Substitution.SubstituteWithoutDollar | parser/src/main/java/com/testlang/codegen/CodeGenerator.java:281-287 | a text without `$` comes back unchanged, whatever the table and the order |
| Substitution.SubstituteKeepsOut | parser/src/main/java/com/testlang/codegen/CodeGenerator.java:281-287 | substitution adds no character found in neither the text nor a value |
| Substitution.ReplaceFillsPlaceholder | parser/src/main/java/com/testlang/codegen/CodeGenerator.java:284 | one `replace("$" + k, v)` fills exactly the placeholders named k |
| Substitution.SubstituteTemplate | parser/src/main/java/com/testlang/codegen/CodeGenerator.java:281-287 | for `$`-free names and values and placeholders separated from the names, each declared placeholder is replaced by its value and each undeclared one is left as written; the result is independent of the map's iteration order |
| Validation.CountsPartition | parser/src/main/java/com/testlang/codegen/CodeGenerator.java:64-80 | every statement is counted once, either as a request or as an assertion |
| Validation.TestError | parser/src/main/java/com/testlang/codegen/CodeGenerator.java:64-92 | a test's error always names that test |
| Validation.TestErrorCases | parser/src/main/java/com/testlang/codegen/CodeGenerator.java:64-92 | a test passes exactly when it has a request and at least two assertions; otherwise the missing request is reported first, then the assertion count found |
| Validation.FirstErrorWins | parser/src/main/java/com/testlang/codegen/CodeGenerator.java:55-58 | there is an error exactly when some test fails, and it is the error of the first failing test |
| Validation.ValidationAccepts | parser/src/main/java/com/testlang/codegen/CodeGenerator.java:49-62 | a program is accepted exactly when it has a test and every test is valid; an empty program's error names no test |
| Validation.UsedInTestsMembership | parser/src/main/java/com/testlang/codegen/CodeGenerator.java:94-108 | a name is used exactly when it is a table key and some request's URL or body mentions it; assertions are not inspected |
| Validation.UnusedWarningsMembership | parser/src/main/java/com/testlang/codegen/CodeGenerator.java:110-115 | a name is reported exactly when it is declared and not used |
| Validation.Names | parser/src/main/java/com/testlang/codegen/CodeGenerator.java:110-115 | one name per declaration, in declaration order |
| Validation.EmptyTableWarnsAll | parser/src/main/java/com/testlang/codegen/CodeGenerator.java:94-116 | with an empty table nothing is used, so every declaration is reported, duplicates included |
| CodeGen.CodeGenerator.constructor | parser/src/main/java/com/testlang/codegen/CodeGenerator.java:15-19 | empty buffer, empty variable table |
| CodeGen.CodeGenerator.Generate | parser/src/main/java/com/testlang/codegen/CodeGenerator.java:21-44 | on a validation error: the error is thrown and nothing changes. Otherwise: the warnings are checked against the table as it was before the call, the declarations are stored, the whole class is appended, and the buffer's full contents are returned |
| CodeGen.CodeGenerator.Validate | parser/src/main/java/com/testlang/codegen/CodeGenerator.java:49-62 | the error is that of the validation rules; without one, the warnings are the unused-variable warnings |
| CodeGen.CodeGenerator.ValidateTest | parser/src/main/java/com/testlang/codegen/CodeGenerator.java:64-92 | the counting loop finds the error of the test rule |
| CodeGen.CodeGenerator.CheckUnusedVariables | parser/src/main/java/com/testlang/codegen/CodeGenerator.java:94-116 | the warnings name every declaration whose name no request mentions as a current table key |
| CodeGen.CodeGenerator.CheckVariableUsage | parser/src/main/java/com/testlang/codegen/CodeGenerator.java:118-124 | the given set plus exactly those table keys whose `$name` occurs in the text |
| CodeGen.CodeGenerator.BindVariables | parser/src/main/java/com/testlang/codegen/CodeGenerator.java:26-28 | the table becomes the old table with the declarations stored in order; the visit order changes only when a new key arrives |
| CodeGen.CodeGenerator.GeneratePreamble | parser/src/main/java/com/testlang/codegen/CodeGenerator.java:31-33 | the imports, class header and setup method are appended |
| CodeGen.CodeGenerator.GenerateImports | parser/src/main/java/com/testlang/codegen/CodeGenerator.java:126-134 | the imports are appended |
| CodeGen.CodeGenerator.GenerateClassHeader | parser/src/main/java/com/testlang/codegen/CodeGenerator.java:136-147 | the class header is appended, with the config's base URL when it sets one and `http://localhost:8080` otherwise, unescaped |
| CodeGen.CodeGenerator.GenerateSetupMethod | parser/src/main/java/com/testlang/codegen/CodeGenerator.java:149-166 | the setup method is appended, with one line per config header |
| CodeGen.CodeGenerator.AppendDefaultHeaders | parser/src/main/java/com/testlang/codegen/CodeGenerator.java:155-163 | one `DEFAULT_HEADERS.put` line per header, in order |
| CodeGen.CodeGenerator.GenerateTestMethods | parser/src/main/java/com/testlang/codegen/CodeGenerator.java:36-38 | one test method per test, in declaration order |
| CodeGen.CodeGenerator.GenerateTestMethod | parser/src/main/java/com/testlang/codegen/CodeGenerator.java:168-181 | the annotation, the header with the unescaped name, each statement's text in order, and the closing brace |
| CodeGen.CodeGenerator.AppendStatements | parser/src/main/java/com/testlang/codegen/CodeGenerator.java:173-178 | each statement's text, in order |
| CodeGen.CodeGenerator.GenerateStatement | parser/src/main/java/com/testlang/codegen/CodeGenerator.java:173-178 | a request's or an assertion's text, depending on the statement |
| CodeGen.CodeGenerator.GenerateRequest | parser/src/main/java/com/testlang/codegen/CodeGenerator.java:183-243 | the request text for the substituted URL and body, followed by the headers, escaped and not substituted, and then the default-headers loop and the send line |
| CodeGen.CodeGenerator.MethodCall | parser/src/main/java/com/testlang/codegen/CodeGenerator.java:200-227 | the call for GET, DELETE, POST or PUT, with or without a body; nothing for any other method |
| CodeGen.CodeGenerator.AppendRequestHeaders | parser/src/main/java/com/testlang/codegen/CodeGenerator.java:229-236 | one `b.header` line per header, in order |
| CodeGen.CodeGenerator.GenerateAssertion | parser/src/main/java/com/testlang/codegen/CodeGenerator.java:245-278 | the assertion line for the kind, with its key and value substituted and then escaped |
| CodeGen.CodeGenerator.SubstituteVariables | parser/src/main/java/com/testlang/codegen/CodeGenerator.java:281-287 | the result of one `replace` per table entry, in the table's order |
| CodeGen.GenerateTwice | parser/src/main/java/com/testlang/codegen/CodeGenerator.java:21-44 | a second `generate` returns the first result twice; the first call reports every declaration as unused |
| OutputProperties.GeneratedAnnotations | parser/src/main/java/com/testlang/codegen/CodeGenerator.java:21-44 | with `@`-free input, the class holds one `@` per test plus one for `@BeforeAll`; each test method starts with `@Test` |
| OutputProperties.TestsAnnotations | parser/src/main/java/com/testlang/codegen/CodeGenerator.java:36-38 | N test methods hold exactly N `@` markers |
| OutputProperties.TestMethodAnnotation | parser/src/main/java/com/testlang/codegen/CodeGenerator.java:168-181 | a test method starts with `@Test` and holds no other `@` |
| OutputProperties.PreambleAnnotation | parser/src/main/java/com/testlang/codegen/CodeGenerator.java:126-166 | everything before the test methods holds the single `@` of `@BeforeAll` |
| OutputProperties.RequestWithoutAt | parser/src/main/java/com/testlang/codegen/CodeGenerator.java:183-243 | a request adds no `@` when its URL, body, headers and the table values have none |
| OutputProperties.AssertionWithoutAt | parser/src/main/java/com/testlang/codegen/CodeGenerator.java:245-278 | an assertion adds no `@` when its key, value and the table values have none |
| OutputProperties.DefaultHeaderLinesCount | parser/src/main/java/com/testlang/codegen/CodeGenerator.java:155-163 | N config headers give exactly N lines, whatever their text |
| OutputProperties.RequestHeaderLinesCount | parser/src/main/java/com/testlang/codegen/CodeGenerator.java:229-236 | N request headers give exactly N lines, whatever their text |
| OutputProperties.DefaultHeaderLineReadsBack | parser/src/main/java/com/testlang/codegen/CodeGenerator.java:157-161 | both literals of a `DEFAULT_HEADERS.put` line read back as the header's key and value |
| OutputProperties.RequestHeaderLineReadsBack | parser/src/main/java/com/testlang/codegen/CodeGenerator.java:230-235 | both literals of a `b.header` line read back as the header's key and value |
| OutputProperties.BodyReadsBack | parser/src/main/java/com/testlang/codegen/CodeGenerator.java:206-220 | the body literal of a POST or PUT reads back as the substituted body |
| OutputProperties.BodyContainsReadsBack | parser/src/main/java/com/testlang/codegen/CodeGenerator.java:272-276 | the literal of a body assertion reads back as the substituted value |
| OutputProperties.HeaderEqualsReadsBack | parser/src/main/java/com/testlang/codegen/CodeGenerator.java:256-262 | both literals of a header-equals assertion read back as the substituted value and key |
| OutputProperties.HeaderContainsReadsBack | parser/src/main/java/com/testlang/codegen/CodeGenerator.java:264-270 | both literals of a header-contains assertion read back as the substituted key and value |
| OutputProperties.StatusCodeReadsBack | parser/src/main/java/com/testlang/codegen/CodeGenerator.java:250-254 | the status code appears as its decimal form, which parses back to the code |
| OutputProperties.UrlLiteralReadsBack | parser/src/main/java/com/testlang/codegen/CodeGenerator.java:184-192 | a URL starting with `/` follows `BASE + "`, any other gets a literal of its own; either way it reads back when it contains no quote, backslash or line break |
| OutputProperties.UnescapedQuoteEndsUrl | parser/src/main/java/com/testlang/codegen/CodeGenerator.java:184-192 | a quote in a URL ends the literal early, because the URL is not escaped |
| OutputProperties.QuotedUrlExample | parser/src/main/java/com/testlang/codegen/CodeGenerator.java:184-192 | a concrete URL with a quote whose literal reads back as a shorter string |
| OutputProperties.UserIdTable | parser/src/main/java/com/testlang/codegen/CodeGenerator.java:26-28 | `let userId = 42; let name = "John"` give the table `userId` → `42`, `name` → `John` |
| OutputProperties.UserIdUrlExample | parser/src/main/java/com/testlang/codegen/CodeGenerator.java:281-287 | `/api/users/$userId` becomes `/api/users/42`, in either iteration order |
| OutputProperties.UndeclaredExample | parser/src/main/java/com/testlang/codegen/CodeGenerator.java:281-287 | `$id`, which no `let` declares, stays `$id`, in either iteration order |
| OutputProperties.UserNameExample | parser/src/main/java/com/testlang/codegen/CodeGenerator.java:281-287 | `$name` becomes `John`, in either iteration order |

## Left out

- The lexer, the parser (`TestLangParser`), the Spring demo application and the `RunTests` driver are not part of this model. Neither is running the generated class.
- `checkUnusedVariables` prints its warnings to `System.err`. Here `Validate`, `CheckUnusedVariables` and `Generate` return the reported names, in order, instead.
- The AST nodes hand out their live `List`s, and a parent holds references to its children. Here a parent holds a snapshot (`Data()`) of each child, so a change to a child after it was added, or through a returned list, is not reflected.
- `ValueAsString`, `IntToString` and the status code use unbounded integers. The 32-bit range of Java's `int` and `Integer`, and the range check of `Integer.parseInt`, are not modelled.
- `Generate`, `GenerateTestMethods`, `GenerateTestMethod`, `AppendStatements`, `GenerateStatement`, `GenerateAssertion`: they require every header assertion to have a key and a value, and every body assertion a value. On the other inputs the source throws a `NullPointerException` in `escapeJava`, which is not modelled.
- `Escaping.ReadLiteral` reads the escapes of section 3.10.7 of the Java Language Specification except octal escapes. Unicode escapes are not modelled either: `javac` translates them before lexing.
- The `HashMap`'s iteration order is modelled as an arbitrary order that stays fixed for an unchanged key set. A new key is placed anywhere in it. Reordering by a resize is not modelled.
- Substitution.SubstituteTemplate: the result is determined only under conditions. Names and values must be `$`-free. Every placeholder must be a table key or be neither a prefix nor an extension of any key. For example, an undeclared `$userIdX` with a key `userId` fails this. Outside these conditions the model does not determine the result, and with some tables it depends on the order.
- Exceptions.Truncate: lengths count Unicode code points, but Java's `length()` and `substring` count UTF-16 units. So a text with characters outside the Basic Multilingual Plane is cut at a different point than in Java, and Java's cut can split a surrogate pair. This also applies to `Exceptions.EscapeForDisplay`.
- OutputProperties.GeneratedAnnotations: it counts `@` characters rather than occurrences of `@Test`, and needs `@`-free input. These are the URL, body, headers, assertion key and value, test name, base URL and table values.
- The fixed text of the generated class is written as concatenations of short pieces. It is the same text the source appends.
