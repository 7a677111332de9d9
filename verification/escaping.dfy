/** `CodeGenerator.escapeJava`: turning a string into the body of a Java string literal
    with the escape sequences of section 3.10.7 of the Java Language Specification (SE 17),
    and the reading of such a literal back. */
module Escaping {
  import opened Wrappers
  import opened JavaString

  /** `escapeJava`: five `replace` calls, backslash first, then the double quote,
      newline, carriage return and tab. */
  function EscapeJava(s: string): string {
    ReplaceAll(ReplaceAll(ReplaceAll(ReplaceAll(ReplaceAll(
      s, "\\", "\\\\"), "\"", "\\\""), "\n", "\\n"), "\r", "\\r"), "\t", "\\t")
  }

  /** Reference definition: the escape sequence of one character. */
  function EscapeChar(c: char): string {
    if c == '\\' then "\\\\"
    else if c == '"' then "\\\""
    else if c == '\n' then "\\n"
    else if c == '\r' then "\\r"
    else if c == '\t' then "\\t"
    else [c]
  }

  /** Reference definition: every character escaped on its own. */
  function EscapeChars(s: string): string
    decreases |s|
  {
    if s == [] then [] else EscapeChar(s[0]) + EscapeChars(s[1..])
  }

  /** The character an escape sequence `\c` of JLS 3.10.7 stands for (octal escapes are
      not read). */
  function EscapeValue(c: char): Option<char> {
    if c == 'b' then Some(8 as char)
    else if c == 's' then Some(' ')
    else if c == 't' then Some('\t')
    else if c == 'n' then Some('\n')
    else if c == 'f' then Some(12 as char)
    else if c == 'r' then Some('\r')
    else if c == '"' then Some('"')
    else if c == '\'' then Some('\'')
    else if c == '\\' then Some('\\')
    else None
  }

  /** How a Java compiler reads the text that follows the opening quote of a string
      literal: the value of the literal and the text after its closing quote, or None when
      the literal is unterminated, holds a line break or an unknown escape. */
  function ReadLiteral(s: string): Option<(string, string)>
    decreases |s|
  {
    if s == [] || s[0] == '\n' || s[0] == '\r' then None
    else if s[0] == '"' then Some(([], s[1..]))
    else if s[0] == '\\' then
      if |s| < 2 || EscapeValue(s[1]).None? then None
      else match ReadLiteral(s[2..])
        case None => None
        case Some((value, rest)) => Some(([EscapeValue(s[1]).value] + value, rest))
    else
      match ReadLiteral(s[1..])
      case None => None
      case Some((value, rest)) => Some(([s[0]] + value, rest))
  }

  lemma EscapeJavaConcat(a: string, b: string)
    ensures EscapeJava(a + b) == EscapeJava(a) + EscapeJava(b)
  {
    var a1, b1 := ReplaceAll(a, "\\", "\\\\"), ReplaceAll(b, "\\", "\\\\");
    ReplaceCharConcat(a, b, '\\', "\\\\");
    var a2, b2 := ReplaceAll(a1, "\"", "\\\""), ReplaceAll(b1, "\"", "\\\"");
    ReplaceCharConcat(a1, b1, '"', "\\\"");
    var a3, b3 := ReplaceAll(a2, "\n", "\\n"), ReplaceAll(b2, "\n", "\\n");
    ReplaceCharConcat(a2, b2, '\n', "\\n");
    var a4, b4 := ReplaceAll(a3, "\r", "\\r"), ReplaceAll(b3, "\r", "\\r");
    ReplaceCharConcat(a3, b3, '\r', "\\r");
    ReplaceCharConcat(a4, b4, '\t', "\\t");
  }

  lemma EscapeJavaChar(c: char)
    ensures EscapeJava([c]) == EscapeChar(c)
  {
    ReplaceCharSingle(c, '\\', "\\\\");
    var s1 := ReplaceAll([c], "\\", "\\\\");
    if c == '"' {
      ReplaceCharSingle(c, '"', "\\\"");
    } else {
      ReplaceAllAbsent(s1, "\"", "\\\"");
    }
    var s2 := ReplaceAll(s1, "\"", "\\\"");
    if c == '\n' {
      ReplaceCharSingle(c, '\n', "\\n");
    } else {
      ReplaceAllAbsent(s2, "\n", "\\n");
    }
    var s3 := ReplaceAll(s2, "\n", "\\n");
    if c == '\r' {
      ReplaceCharSingle(c, '\r', "\\r");
    } else {
      ReplaceAllAbsent(s3, "\r", "\\r");
    }
    var s4 := ReplaceAll(s3, "\r", "\\r");
    if c == '\t' {
      ReplaceCharSingle(c, '\t', "\\t");
    } else {
      ReplaceAllAbsent(s4, "\t", "\\t");
    }
  }

  /** The chain of `replace` calls escapes each character on its own: because the
      backslash goes first, no backslash added by a later call is escaped again. */
  lemma {:induction false} EscapeJavaIsPerChar(s: string)
    ensures EscapeJava(s) == EscapeChars(s)
    decreases |s|
  {
    if s == [] {
      assert EscapeJava(s) == [];
    } else {
      assert s == [s[0]] + s[1..];
      EscapeJavaConcat([s[0]], s[1..]);
      EscapeJavaChar(s[0]);
      EscapeJavaIsPerChar(s[1..]);
    }
  }

  lemma {:induction false} EscapeCharsNoLineBreaks(s: string)
    ensures '\n' !in EscapeChars(s) && '\r' !in EscapeChars(s) && '\t' !in EscapeChars(s)
    decreases |s|
  {
    if s != [] {
      EscapeCharsNoLineBreaks(s[1..]);
    }
  }

  /** Escaped text holds no raw newline, carriage return or tab. */
  lemma EscapedHasNoLineBreaks(s: string)
    ensures '\n' !in EscapeJava(s) && '\r' !in EscapeJava(s) && '\t' !in EscapeJava(s)
  {
    EscapeJavaIsPerChar(s);
    EscapeCharsNoLineBreaks(s);
  }

  lemma {:induction false} EscapeCharsKeepsOut(s: string, c: char)
    requires c !in s && c !in "\\\"nrt"
    ensures c !in EscapeChars(s)
    decreases |s|
  {
    if s != [] {
      EscapeCharsKeepsOut(s[1..], c);
    }
  }

  /** Escaping adds no character other than a backslash and the letters of the escapes. */
  lemma EscapeKeepsOut(s: string, c: char)
    requires c !in s && c !in "\\\"nrt"
    ensures c !in EscapeJava(s)
  {
    EscapeJavaIsPerChar(s);
    EscapeCharsKeepsOut(s, c);
  }

  /** The escape sequence of one character reads back as that character. */
  lemma ReadEscapedChar(c: char, tail: string, value: string, rest: string)
    requires ReadLiteral(tail) == Some((value, rest))
    ensures ReadLiteral(EscapeChar(c) + tail) == Some(([c] + value, rest))
  {
    var s := EscapeChar(c) + tail;
    if c == '\\' || c == '"' || c == '\n' || c == '\r' || c == '\t' {
      assert s[0] == '\\' && s[2..] == tail;
    } else {
      assert s[0] == c && s[1..] == tail;
    }
  }

  lemma {:induction false} EscapeCharsReadBack(x: string, rest: string)
    ensures ReadLiteral(EscapeChars(x) + "\"" + rest) == Some((x, rest))
    decreases |x|
  {
    if x == [] {
      var s := EscapeChars(x) + "\"" + rest;
      assert s == "\"" + rest;
      assert s[1..] == rest;
    } else {
      var tail := EscapeChars(x[1..]) + "\"" + rest;
      EscapeCharsReadBack(x[1..], rest);
      ReadEscapedChar(x[0], tail, x[1..], rest);
      AppendAssoc(EscapeChar(x[0]) + EscapeChars(x[1..]), "\"", rest);
      AppendAssoc(EscapeChar(x[0]), EscapeChars(x[1..]), "\"" + rest);
      AppendAssoc(EscapeChars(x[1..]), "\"", rest);
      assert [x[0]] + x[1..] == x;
    }
  }

  /** An escaped string placed between double quotes is a well-formed Java string literal
      whose value is the original string: no quote inside it ends the literal early and
      the text after the closing quote is untouched. */
  lemma LiteralRoundTrip(x: string, rest: string)
    ensures ReadLiteral(EscapeJava(x) + "\"" + rest) == Some((x, rest))
  {
    EscapeJavaIsPerChar(x);
    EscapeCharsReadBack(x, rest);
  }

  /** Distinct strings have distinct escapes. */
  lemma EscapeJavaInjective(x: string, y: string)
    requires EscapeJava(x) == EscapeJava(y)
    ensures x == y
  {
    LiteralRoundTrip(x, []);
    LiteralRoundTrip(y, []);
  }
}
