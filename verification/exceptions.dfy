/** The three exceptions of the compiler (package com.testlang.parser): each keeps its
    constructor arguments in final fields and passes a formatted message to `Exception`.
    An exception is a value here: its formatted message (`getMessage`) and its fields. */
module Exceptions {
  import opened Wrappers
  import opened JavaString

  // ---------------------------------------------------------------- ValidationException

  datatype ValidationException = ValidationException(message: string, testName: Option<string>)

  /** `ValidationException.formatMessage` */
  function FormatValidationMessage(message: string, testName: Option<string>): (r: string)
    ensures |r| > |message| && r[|r| - |message|..] == message
    ensures "Validation error" <= r
  {
    match testName
    case Some(name) => "Validation error in test '" + name + "': " + message
    case None => "Validation error: " + message
  }

  /** The two-argument constructor `ValidationException(message, testName)`. */
  function NewValidationException(message: string, testName: Option<string>): (e: ValidationException)
    ensures e.testName == testName
    ensures |e.message| > |message| && e.message[|e.message| - |message|..] == message
  {
    ValidationException(FormatValidationMessage(message, testName), testName)
  }

  /** The one-argument constructor `ValidationException(message)`, which passes a null
      test name to the other one. */
  function NewUnscopedValidationException(message: string): (e: ValidationException)
    ensures e.testName == None
    ensures e.message == "Validation error: " + message
  {
    NewValidationException(message, None)
  }

  /** A message naming a test reads `Validation error in test '<name>': <message>`. */
  lemma ScopedValidationMessage(message: string, name: string)
    ensures NewValidationException(message, Some(name)).message
         == "Validation error in test '" + name + "': " + message
  {
  }

  /** Whether a test was named can be told from the message alone: the character after
      "Validation error" is a space in one form and a colon in the other. */
  lemma ScopedAndUnscopedDiffer(m1: string, name: string, m2: string)
    ensures FormatValidationMessage(m1, Some(name)) != FormatValidationMessage(m2, None)
  {
    var scoped := FormatValidationMessage(m1, Some(name));
    var unscoped := FormatValidationMessage(m2, None);
    assert scoped[16] == ' ';
    assert unscoped[16] == ':';
  }

  /** For a given test name, the original message is recovered from the formatted one. */
  lemma ValidationMessageInjective(m1: string, m2: string, testName: Option<string>)
    requires FormatValidationMessage(m1, testName) == FormatValidationMessage(m2, testName)
    ensures m1 == m2
  {
    var r := FormatValidationMessage(m1, testName);
    var prefix := match testName
      case Some(name) => "Validation error in test '" + name + "': "
      case None => "Validation error: ";
    assert r == prefix + m1 && r == prefix + m2;
    assert m1 == r[|prefix|..] == m2;
  }

  // ---------------------------------------------------------------- LexerException

  datatype LexerException = LexerException(message: string, line: int, column: int, problematicText: Option<string>)

  /** First step of `escapeForDisplay`: more than 20 characters are cut to the first 20
      followed by "...". */
  function Truncate(text: string): (r: string)
    ensures |text| <= 20 ==> r == text
    ensures |text| > 20 ==> |r| == 23 && r[..20] == text[..20] && r[20..] == "..."
  {
    if |text| > 20 then text[..20] + "..." else text
  }

  /** The replacing step of `escapeForDisplay`. */
  function DisplayEscape(s: string): string {
    ReplaceAll(ReplaceAll(ReplaceAll(s, "\n", "\\n"), "\r", "\\r"), "\t", "\\t")
  }

  /** `LexerException.escapeForDisplay`: truncation first, then newline, carriage return
      and tab replaced by their two-character escapes (a backslash is left as it is). */
  function EscapeForDisplay(text: string): string {
    DisplayEscape(Truncate(text))
  }

  /** Reference definition of the display escape of one character. */
  function DisplayChar(c: char): string {
    if c == '\n' then "\\n" else if c == '\r' then "\\r" else if c == '\t' then "\\t" else [c]
  }

  function DisplayChars(s: string): string
    decreases |s|
  {
    if s == [] then [] else DisplayChar(s[0]) + DisplayChars(s[1..])
  }

  /** Reading a displayed text back: `\n`, `\r` and `\t` become the characters again. */
  function UndoDisplay(s: string): string
    decreases |s|
  {
    if s == [] then []
    else if |s| >= 2 && s[0] == '\\' && s[1] == 'n' then "\n" + UndoDisplay(s[2..])
    else if |s| >= 2 && s[0] == '\\' && s[1] == 'r' then "\r" + UndoDisplay(s[2..])
    else if |s| >= 2 && s[0] == '\\' && s[1] == 't' then "\t" + UndoDisplay(s[2..])
    else [s[0]] + UndoDisplay(s[1..])
  }

  lemma DisplayEscapeConcat(a: string, b: string)
    ensures DisplayEscape(a + b) == DisplayEscape(a) + DisplayEscape(b)
  {
    var a1, b1 := ReplaceAll(a, "\n", "\\n"), ReplaceAll(b, "\n", "\\n");
    ReplaceCharConcat(a, b, '\n', "\\n");
    var a2, b2 := ReplaceAll(a1, "\r", "\\r"), ReplaceAll(b1, "\r", "\\r");
    ReplaceCharConcat(a1, b1, '\r', "\\r");
    ReplaceCharConcat(a2, b2, '\t', "\\t");
  }

  lemma DisplayEscapeChar(c: char)
    ensures DisplayEscape([c]) == DisplayChar(c)
  {
    ReplaceCharSingle(c, '\n', "\\n");
    var s1 := ReplaceAll([c], "\n", "\\n");
    if c == '\r' {
      ReplaceCharSingle(c, '\r', "\\r");
    } else {
      ReplaceAllAbsent(s1, "\r", "\\r");
    }
    var s2 := ReplaceAll(s1, "\r", "\\r");
    if c == '\t' {
      ReplaceCharSingle(c, '\t', "\\t");
    } else {
      ReplaceAllAbsent(s2, "\t", "\\t");
    }
  }

  /** The three `replace` calls escape each character on its own. */
  lemma {:induction false} DisplayEscapeIsPerChar(s: string)
    ensures DisplayEscape(s) == DisplayChars(s)
    decreases |s|
  {
    if s == [] {
      assert DisplayEscape(s) == [];
    } else {
      assert s == [s[0]] + s[1..];
      DisplayEscapeConcat([s[0]], s[1..]);
      DisplayEscapeChar(s[0]);
      DisplayEscapeIsPerChar(s[1..]);
    }
  }

  lemma {:induction false} DisplayCharsProperties(s: string)
    ensures '\n' !in DisplayChars(s) && '\r' !in DisplayChars(s) && '\t' !in DisplayChars(s)
    ensures '\\' !in s ==> UndoDisplay(DisplayChars(s)) == s
    decreases |s|
  {
    if s != [] {
      DisplayCharsProperties(s[1..]);
      var tail := DisplayChars(s[1..]);
      if '\\' !in s {
        assert '\\' !in s[1..];
        if s[0] == '\n' || s[0] == '\r' || s[0] == '\t' {
          assert (DisplayChar(s[0]) + tail)[2..] == tail;
        } else {
          assert (DisplayChar(s[0]) + tail)[1..] == tail;
        }
        assert [s[0]] + s[1..] == s;
      }
    }
  }

  /** The displayed text holds no raw newline, carriage return or tab. */
  lemma DisplayHasNoLineBreaks(text: string)
    ensures var r := EscapeForDisplay(text); '\n' !in r && '\r' !in r && '\t' !in r
  {
    DisplayEscapeIsPerChar(Truncate(text));
    DisplayCharsProperties(Truncate(text));
  }

  /** Text without a backslash is recovered from its display, up to the truncation. */
  lemma DisplayRoundTrip(text: string)
    requires '\\' !in text
    ensures UndoDisplay(EscapeForDisplay(text)) == Truncate(text)
  {
    assert '\\' !in Truncate(text) by {
      if |text| > 20 {
        assert forall i :: 0 <= i < 20 ==> Truncate(text)[i] == text[i];
      }
    }
    DisplayEscapeIsPerChar(Truncate(text));
    DisplayCharsProperties(Truncate(text));
  }

  /** A backslash is not escaped, so the display is not one-to-one: a backslash followed
      by `n` and a newline look the same. */
  lemma DisplayIsLossy()
    ensures EscapeForDisplay("\\n") == EscapeForDisplay("\n") == "\\n"
  {
    DisplayEscapeIsPerChar("\\n");
    DisplayEscapeIsPerChar("\n");
    assert DisplayChars("\\n") == "\\" + DisplayChars("n");
  }

  /** `LexerException.formatMessage` */
  function FormatLexerMessage(message: string, line: int, column: int, text: Option<string>): (r: string)
    ensures "Lexer error at line " + IntToString(line) + ", column " + IntToString(column) + ": " + message <= r
  {
    "Lexer error at line " + IntToString(line) + ", column " + IntToString(column) + ": " + message
    + (if text.Some? && text.value != [] then "\n  Near: '" + EscapeForDisplay(text.value) + "'" else "")
  }

  /** The constructor `LexerException(message, line, column, problematicText)`: the getters
      give back the arguments, the text untruncated. */
  function NewLexerException(message: string, line: int, column: int, problematicText: Option<string>): (e: LexerException)
    ensures e.line == line && e.column == column && e.problematicText == problematicText
    ensures "Lexer error at line " <= e.message
  {
    LexerException(FormatLexerMessage(message, line, column, problematicText), line, column, problematicText)
  }

  /** For a message on one line, the formatted message has a second line exactly when a
      non-empty text was given; the displayed text never breaks that line. */
  lemma LexerNearLine(message: string, line: int, column: int, text: Option<string>)
    requires '\n' !in message
    ensures '\n' in FormatLexerMessage(message, line, column, text) <==> text.Some? && text.value != []
  {
    IntToStringChars(line, '\n');
    IntToStringChars(column, '\n');
    var head := "Lexer error at line " + IntToString(line) + ", column " + IntToString(column) + ": " + message;
    assert '\n' !in head;
    if text.Some? && text.value != [] {
      DisplayHasNoLineBreaks(text.value);
      var r := FormatLexerMessage(message, line, column, text);
      assert r[|head|] == '\n';
    } else {
      assert FormatLexerMessage(message, line, column, text) == head;
    }
  }

  // ---------------------------------------------------------------- ParserException

  datatype ParserException = ParserException(message: string, line: int, context: Option<string>)

  /** `ParserException.formatMessage` */
  function FormatParserMessage(message: string, line: int, context: Option<string>): (r: string)
    ensures "Parse error at line " + IntToString(line) + ": " + message <= r
  {
    "Parse error at line " + IntToString(line) + ": " + message
    + (if context.Some? && context.value != [] then "\n  Context: " + context.value else "")
  }

  /** The three-argument constructor `ParserException(message, line, context)`. */
  function NewParserException(message: string, line: int, context: Option<string>): (e: ParserException)
    ensures e.line == line && e.context == context
    ensures "Parse error at line " <= e.message
  {
    ParserException(FormatParserMessage(message, line, context), line, context)
  }

  /** The two-argument constructor `ParserException(message, line)`: a null context, so
      the message is exactly its first line. */
  function NewParserExceptionWithoutContext(message: string, line: int): (e: ParserException)
    ensures e.line == line && e.context == None
    ensures e.message == "Parse error at line " + IntToString(line) + ": " + message
  {
    NewParserException(message, line, None)
  }

  /** The context line is there exactly when a non-empty context was given, and it is the
      last part of the message. */
  lemma ParserContextLine(message: string, line: int, context: Option<string>)
    requires '\n' !in message
    ensures var r := FormatParserMessage(message, line, context);
      ('\n' in r <==> context.Some? && context.value != [])
      && (context.Some? && context.value != [] ==> r[|r| - |context.value|..] == context.value)
  {
    IntToStringChars(line, '\n');
    var head := "Parse error at line " + IntToString(line) + ": " + message;
    assert '\n' !in head;
    var r := FormatParserMessage(message, line, context);
    if context.Some? && context.value != [] {
      assert r[|head|] == '\n';
    } else {
      assert r == head;
    }
  }
}
