/** The java.lang.String and StringBuilder operations the code generator and the
    exception formatters rely on: `replace`, `contains`, and the decimal form of an `int`. */
module JavaString {
  import opened Wrappers

  /** `s.replace(target, replacement)`: scans `s` from the left and replaces each
      occurrence of `target`, resuming the scan after the occurrence it replaced. */
  function ReplaceAll(s: string, target: string, replacement: string): string
    requires target != []
    decreases |s|
  {
    if |s| < |target| then s
    else if s[..|target|] == target then replacement + ReplaceAll(s[|target|..], target, replacement)
    else [s[0]] + ReplaceAll(s[1..], target, replacement)
  }

  /** `s.contains(p)` */
  predicate Contains(s: string, p: string)
    decreases |s|
  {
    p <= s || (s != [] && Contains(s[1..], p))
  }

  /** A text that does not hold the first character of `target` is left as it is by
      `replace`, and so is the text that follows it. */
  lemma {:induction false} ReplaceAllSkipsPlain(a: string, b: string, target: string, replacement: string)
    requires target != [] && target[0] !in a
    ensures ReplaceAll(a + b, target, replacement) == a + ReplaceAll(b, target, replacement)
  {
    if a == [] {
      assert a + b == b;
    } else if |a + b| < |target| {
      ReplaceAllShort(b, target, replacement);
    } else {
      assert (a + b)[0] == a[0] != target[0];
      assert (a + b)[1..] == a[1..] + b;
      ReplaceAllSkipsPlain(a[1..], b, target, replacement);
      assert [a[0]] + a[1..] == a;
    }
  }

  lemma ReplaceAllShort(s: string, target: string, replacement: string)
    requires target != [] && |s| < |target|
    ensures ReplaceAll(s, target, replacement) == s
  {
  }

  /** Text in which `target` cannot start comes back unchanged. */
  lemma ReplaceAllAbsent(s: string, target: string, replacement: string)
    requires target != [] && target[0] !in s
    ensures ReplaceAll(s, target, replacement) == s
  {
    ReplaceAllSkipsPlain(s, [], target, replacement);
    assert s + [] == s;
  }

  /** `replace` introduces no character that is neither in the text nor in the replacement. */
  lemma {:induction false} ReplaceAllKeepsOut(s: string, target: string, replacement: string, c: char)
    requires target != [] && c !in s && c !in replacement
    ensures c !in ReplaceAll(s, target, replacement)
  {
    if |s| < |target| {
    } else if s[..|target|] == target {
      ReplaceAllKeepsOut(s[|target|..], target, replacement, c);
    } else {
      ReplaceAllKeepsOut(s[1..], target, replacement, c);
    }
  }

  /** With a one-character target, `replace` works character by character, so it
      distributes over concatenation. */
  lemma {:induction false} ReplaceCharConcat(a: string, b: string, target: char, replacement: string)
    ensures ReplaceAll(a + b, [target], replacement)
         == ReplaceAll(a, [target], replacement) + ReplaceAll(b, [target], replacement)
  {
    if a == [] {
      assert a + b == b;
    } else {
      assert (a + b)[..1] == a[..1];
      assert (a + b)[1..] == a[1..] + b;
      ReplaceCharConcat(a[1..], b, target, replacement);
    }
  }

  /** A one-character text is replaced whole or kept. */
  lemma ReplaceCharSingle(c: char, target: char, replacement: string)
    ensures ReplaceAll([c], [target], replacement) == if c == target then replacement else [c]
  {
    assert [c][..1] == [c];
    assert [c][1..] == [];
  }

  /** Number of positions at which `p` occurs in `s` (occurrences may overlap). */
  function Occurrences(s: string, p: string): nat
    requires p != []
    decreases |s|
  {
    if |s| < |p| then 0
    else (if s[..|p|] == p then 1 else 0) + Occurrences(s[1..], p)
  }

  /** Concatenation regroups; the solver needs it spelled out for long chains. */
  lemma AppendAssoc(a: string, b: string, c: string)
    ensures (a + b) + c == a + (b + c)
  {
  }

  /** No occurrence of `p` can start in `a` and run past its end. */
  predicate NoPartialMatchAtEnd(a: string, p: string)
    requires p != []
  {
    forall i :: 0 <= i < |a| && |a| - |p| < i ==> a[i] != p[0]
  }

  lemma {:induction false} OccurrencesAbsent(s: string, p: string)
    requires p != [] && p[0] !in s
    ensures Occurrences(s, p) == 0
  {
    if |s| >= |p| {
      assert s[0] != p[0];
      OccurrencesAbsent(s[1..], p);
    }
  }

  /** Occurrences in a concatenation add up when none straddles the seam. */
  lemma {:induction false} OccurrencesConcat(a: string, b: string, p: string)
    requires p != [] && NoPartialMatchAtEnd(a, p)
    ensures Occurrences(a + b, p) == Occurrences(a, p) + Occurrences(b, p)
  {
    if a == [] {
      assert a + b == b;
    } else {
      assert (a + b)[1..] == a[1..] + b;
      assert NoPartialMatchAtEnd(a[1..], p) by {
        forall i | 0 <= i < |a[1..]| && |a[1..]| - |p| < i
          ensures a[1..][i] != p[0]
        {
          assert a[1..][i] == a[i + 1];
        }
      }
      OccurrencesConcat(a[1..], b, p);
      if |a| >= |p| {
        assert (a + b)[..|p|] == a[..|p|];
      } else if |a + b| >= |p| {
        assert (a + b)[0] == a[0] != p[0];
      }
    }
  }

  /** A text that ends with `e`, where `e` is long enough and holds no first character of
      `p`, leaves no partial match at its end. */
  lemma EndsClean(a: string, e: string, p: string)
    requires p != [] && |e| >= |p| - 1 && p[0] !in e
    ensures NoPartialMatchAtEnd(a + e, p)
  {
    forall i | 0 <= i < |a + e| && |a + e| - |p| < i
      ensures (a + e)[i] != p[0]
    {
      assert (a + e)[i] == e[i - |a|];
    }
  }

  predicate IsDigit(c: char) {
    '0' <= c <= '9'
  }

  predicate AllDigits(s: string) {
    forall i :: 0 <= i < |s| ==> IsDigit(s[i])
  }

  function DigitChar(d: nat): (c: char)
    requires d < 10
    ensures IsDigit(c)
  {
    ('0' as int + d) as char
  }

  function DigitValue(c: char): nat
    requires IsDigit(c)
  {
    c as int - '0' as int
  }

  /** Decimal digits of a natural number, most significant first, without leading zeros. */
  function NatToString(n: nat): string
    decreases n
  {
    if n < 10 then [DigitChar(n)] else NatToString(n / 10) + [DigitChar(n % 10)]
  }

  /** `Integer.toString(n)`, which is also what `StringBuilder.append(int)` and string
      concatenation with an `int` produce. */
  function IntToString(n: int): string {
    if n < 0 then "-" + NatToString(-n) else NatToString(n)
  }

  /** Value of a string of decimal digits. */
  function ParseNat(s: string): nat
    requires AllDigits(s)
    decreases |s|
  {
    if s == [] then 0 else 10 * ParseNat(s[..|s| - 1]) + DigitValue(s[|s| - 1])
  }

  /** `Integer.parseInt` without its 32-bit range check: an optional minus sign followed
      by at least one digit. */
  function ParseInt(s: string): Option<int> {
    if |s| > 1 && s[0] == '-' && AllDigits(s[1..]) then Some(0 - ParseNat(s[1..]) as int)
    else if s != [] && AllDigits(s) then Some(ParseNat(s) as int)
    else None
  }

  lemma {:induction false} NatToStringRoundTrip(n: nat)
    ensures NatToString(n) != [] && AllDigits(NatToString(n))
    ensures ParseNat(NatToString(n)) == n
    decreases n
  {
    if n >= 10 {
      NatToStringRoundTrip(n / 10);
      var s := NatToString(n);
      assert s[..|s| - 1] == NatToString(n / 10);
    }
  }

  /** The decimal form of an `int` reads back as that `int`. */
  lemma IntToStringRoundTrip(n: int)
    ensures ParseInt(IntToString(n)) == Some(n)
    ensures IntToString(n) != [] && (n >= 0 ==> AllDigits(IntToString(n)))
  {
    if n < 0 {
      NatToStringRoundTrip(-n);
      assert IntToString(n)[1..] == NatToString(-n);
    } else {
      NatToStringRoundTrip(n);
      assert IntToString(n)[0] != '-';
    }
  }

  /** Different `int`s have different decimal forms. */
  lemma IntToStringInjective(m: int, n: int)
    requires IntToString(m) == IntToString(n)
    ensures m == n
  {
    IntToStringRoundTrip(m);
    IntToStringRoundTrip(n);
  }

  /** The decimal form of an `int` holds only digits and a minus sign. */
  lemma IntToStringChars(n: int, c: char)
    requires c != '-' && !IsDigit(c)
    ensures c !in IntToString(n)
  {
    IntToStringRoundTrip(n);
    if n < 0 {
      NatToStringRoundTrip(-n);
      assert IntToString(n) == "-" + NatToString(-n);
    }
  }
}
