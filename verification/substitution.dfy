/** The code generator's variable table and `substituteVariables`. The table is a
    HashMap, so its entries are visited in an order the map decides: here that order is a
    sequence listing every key once, and substitution is defined for any such order. */
module Substitution {
  import opened Wrappers
  import opened JavaString
  import opened Ast

  /** `variables.put(v.getName(), v.getValueAsString())` for each declaration in turn,
      starting from `table`. */
  function BindAll(table: map<string, string>, vars: seq<Variable>): map<string, string>
    decreases |vars|
  {
    if vars == [] then table
    else
      var last := vars[|vars| - 1];
      BindAll(table, vars[..|vars| - 1])[last.name := ValueAsString(last.value)]
  }

  /** A later `let` of the same name overrides an earlier one: the table maps each
      declared name to the value of its last declaration. */
  lemma {:induction false} LastDeclarationWins(table: map<string, string>, vars: seq<Variable>, i: nat)
    requires i < |vars|
    requires forall j :: i < j < |vars| ==> vars[j].name != vars[i].name
    ensures vars[i].name in BindAll(table, vars)
    ensures BindAll(table, vars)[vars[i].name] == ValueAsString(vars[i].value)
    decreases |vars|
  {
    var n := |vars| - 1;
    if i < n {
      LastDeclarationWins(table, vars[..n], i);
    }
  }

  /** A name that no `let` declares keeps what the table had for it. */
  lemma {:induction false} UndeclaredNameUnchanged(table: map<string, string>, vars: seq<Variable>, name: string)
    requires forall j :: 0 <= j < |vars| ==> vars[j].name != name
    ensures (name in BindAll(table, vars)) == (name in table)
    ensures name in table ==> BindAll(table, vars)[name] == table[name]
    decreases |vars|
  {
    if vars != [] {
      UndeclaredNameUnchanged(table, vars[..|vars| - 1], name);
    }
  }

  /** The value a declared name ends up with does not depend on the starting table. */
  lemma {:induction false} DeclaredValueIndependent(t1: map<string, string>, t2: map<string, string>, vars: seq<Variable>, i: nat)
    requires i < |vars|
    ensures vars[i].name in BindAll(t1, vars) && vars[i].name in BindAll(t2, vars)
    ensures BindAll(t1, vars)[vars[i].name] == BindAll(t2, vars)[vars[i].name]
    decreases |vars|
  {
    var n := |vars| - 1;
    if i < n && vars[n].name != vars[i].name {
      DeclaredValueIndependent(t1, t2, vars[..n], i);
    }
  }

  /** Running the same declarations again leaves the table as it is. */
  lemma BindAllTwice(table: map<string, string>, vars: seq<Variable>)
    ensures BindAll(BindAll(table, vars), vars) == BindAll(table, vars)
  {
    var once := BindAll(table, vars);
    var twice := BindAll(once, vars);
    forall k | k in twice || k in once
      ensures k in twice && k in once && twice[k] == once[k]
    {
      if exists i :: 0 <= i < |vars| && vars[i].name == k {
        var i :| 0 <= i < |vars| && vars[i].name == k;
        DeclaredValueIndependent(once, table, vars, i);
      } else {
        UndeclaredNameUnchanged(once, vars, k);
      }
    }
  }

  /** An iteration order of a map with keys `keys`: every key exactly once. */
  predicate IsEntryOrder(order: seq<string>, keys: set<string>) {
    && (forall k :: k in order ==> k in keys)
    && (forall k :: k in keys ==> k in order)
    && (forall i, j :: 0 <= i < j < |order| ==> order[i] != order[j])
  }

  /** A new key placed anywhere in an iteration order gives an iteration order of the
      map with that key added. */
  lemma EntryOrderInsert(order: seq<string>, keys: set<string>, k: string, pos: nat)
    requires IsEntryOrder(order, keys) && k !in keys && pos <= |order|
    ensures IsEntryOrder(order[..pos] + [k] + order[pos..], keys + {k})
  {
    var order' := order[..pos] + [k] + order[pos..];
    assert forall i :: 0 <= i < |order'| ==>
      order'[i] == if i < pos then order[i] else if i == pos then k else order[i - 1];
    forall x | x in keys + {k} ensures x in order' {
      if x != k {
        var i :| 0 <= i < |order| && order[i] == x;
        assert order'[if i < pos then i else i + 1] == x;
      } else {
        assert order'[pos] == k;
      }
    }
  }

  /** `substituteVariables`: `result = result.replace("$" + key, value)` for each entry,
      in the order the map visits them. */
  function Substitute(text: string, table: map<string, string>, order: seq<string>): string
    requires forall k :: k in order ==> k in table
    decreases |order|
  {
    if order == [] then text
    else Substitute(ReplaceAll(text, "$" + order[0], table[order[0]]), table, order[1..])
  }

  /** Text without a `$` comes back unchanged, whatever the table and the order. */
  lemma {:induction false} SubstituteWithoutDollar(text: string, table: map<string, string>, order: seq<string>)
    requires forall k :: k in order ==> k in table
    requires '$' !in text
    ensures Substitute(text, table, order) == text
    decreases |order|
  {
    if order != [] {
      ReplaceAllAbsent(text, "$" + order[0], table[order[0]]);
      SubstituteWithoutDollar(text, table, order[1..]);
    }
  }

  /** Substitution adds no character that is neither in the text nor in a value. */
  lemma {:induction false} SubstituteKeepsOut(text: string, table: map<string, string>, order: seq<string>, c: char)
    requires forall k :: k in order ==> k in table
    requires c !in text && forall k :: k in order ==> c !in table[k]
    ensures c !in Substitute(text, table, order)
    decreases |order|
  {
    if order != [] {
      ReplaceAllKeepsOut(text, "$" + order[0], table[order[0]], c);
      SubstituteKeepsOut(ReplaceAll(text, "$" + order[0], table[order[0]]), table, order[1..], c);
    }
  }

  // A text with placeholders, seen as literal pieces and `$name` references.

  datatype Segment = Literal(text: string) | Placeholder(name: string)

  /** The text one segment stands for. */
  function SegmentText(g: Segment): string {
    match g
    case Literal(s) => s
    case Placeholder(n) => "$" + n
  }

  /** The text a template stands for. */
  function Flatten(t: seq<Segment>): string
    decreases |t|
  {
    if t == [] then [] else SegmentText(t[0]) + Flatten(t[1..])
  }

  /** What one segment becomes: a declared placeholder its value, an undeclared one
      itself. */
  function RenderSegment(g: Segment, table: map<string, string>): string {
    match g
    case Literal(s) => s
    case Placeholder(n) => if n in table then table[n] else "$" + n
  }

  /** Independent reference for substitution: every placeholder naming an entry of the
      table replaced by its value, every other one left as written. */
  function Render(t: seq<Segment>, table: map<string, string>): string
    decreases |t|
  {
    if t == [] then [] else RenderSegment(t[0], table) + Render(t[1..], table)
  }

  /** A literal or a placeholder name without `$`. */
  predicate PlainSegment(g: Segment) {
    match g
    case Literal(s) => '$' !in s
    case Placeholder(n) => '$' !in n
  }

  predicate PlainTemplate(t: seq<Segment>) {
    forall i :: 0 <= i < |t| ==> PlainSegment(t[i])
  }

  /** Every placeholder names one of `names`. */
  predicate PlaceholdersAmong(t: seq<Segment>, names: set<string>) {
    forall i :: 0 <= i < |t| && t[i].Placeholder? ==> t[i].name in names
  }

  /** No name is a proper prefix of another. */
  predicate PrefixFree(names: set<string>) {
    forall a, b :: a in names && b in names && a != b ==> !(a <= b)
  }

  /** Every placeholder either is one of `names` or is neither a prefix nor an extension
      of any of them, so that `$k` matches in the text only where a placeholder `k` is. */
  predicate Separated(t: seq<Segment>, names: set<string>) {
    forall i, k :: 0 <= i < |t| && t[i].Placeholder? && k in names && t[i].name != k ==>
      !(k <= t[i].name) && !(t[i].name <= k)
  }

  /** Prefix-free names are separated from placeholders that are among them. */
  lemma PrefixFreeSeparated(t: seq<Segment>, names: set<string>)
    requires PrefixFree(names) && PlaceholdersAmong(t, names)
    ensures Separated(t, names)
  {
  }

  /** One segment after an entry `k` has been applied. */
  function FillSegment(g: Segment, k: string, v: string): Segment {
    if g == Placeholder(k) then Literal(v) else g
  }

  /** The template after one map entry has been applied. */
  function Fill(t: seq<Segment>, k: string, v: string): (r: seq<Segment>)
    ensures |r| == |t|
    decreases |t|
  {
    if t == [] then [] else [FillSegment(t[0], k, v)] + Fill(t[1..], k, v)
  }

  lemma {:induction false} FillAt(t: seq<Segment>, k: string, v: string, i: nat)
    requires i < |t|
    ensures Fill(t, k, v)[i] == FillSegment(t[i], k, v)
    decreases |t|
  {
    if i > 0 {
      FillAt(t[1..], k, v, i - 1);
    }
  }

  /** `$n` does not start with `$k` when neither name is a prefix of the other. */
  lemma DistinctPlaceholderNoMatch(n: string, k: string, rest: string)
    requires !(k <= n) && !(n <= k)
    ensures |("$" + n) + rest| >= |"$" + k| ==> (("$" + n) + rest)[..|"$" + k|] != "$" + k
  {
    var s := ("$" + n) + rest;
    if |s| >= |"$" + k| {
      var head := s[..|"$" + k|];
      assert s[1..] == n + rest;
      if |k| <= |n| {
        assert head[1..] == s[1..|k| + 1];
        assert head[1..] == n[..|k|];
        assert ("$" + k)[1..] == k;
      } else {
        assert head[1..|n| + 1] == n;
        assert ("$" + k)[1..|n| + 1] == k[..|n|];
      }
    }
  }

  /** `$k` at the front is replaced by the value. */
  lemma ReplaceOwnPlaceholder(k: string, rest: string, v: string)
    ensures ReplaceAll(("$" + k) + rest, "$" + k, v) == v + ReplaceAll(rest, "$" + k, v)
  {
    var s := ("$" + k) + rest;
    assert s[..|"$" + k|] == "$" + k;
    assert s[|"$" + k|..] == rest;
  }

  /** `$n` at the front is kept when neither of `n` and `k` is a prefix of the other. */
  lemma ReplaceOtherPlaceholder(n: string, k: string, rest: string, v: string)
    requires '$' !in k && '$' !in n
    requires !(k <= n) && !(n <= k)
    ensures ReplaceAll(("$" + n) + rest, "$" + k, v) == ("$" + n) + ReplaceAll(rest, "$" + k, v)
  {
    var target := "$" + k;
    var s := ("$" + n) + rest;
    DistinctPlaceholderNoMatch(n, k, rest);
    if |s| < |target| {
      ReplaceAllShort(s, target, v);
      ReplaceAllShort(rest, target, v);
    } else {
      assert s[1..] == n + rest;
      ReplaceAllSkipsPlain(n, rest, target, v);
      AppendAssoc("$", n, ReplaceAll(rest, target, v));
    }
  }

  /** Replacing `$k` in a plain segment followed by more text fills that segment and
      leaves the scan at the start of the rest. */
  lemma ReplaceSegment(g: Segment, rest: string, k: string, v: string)
    requires '$' !in k && PlainSegment(g)
    requires g.Placeholder? && g.name != k ==> !(k <= g.name) && !(g.name <= k)
    ensures ReplaceAll(SegmentText(g) + rest, "$" + k, v)
         == SegmentText(FillSegment(g, k, v)) + ReplaceAll(rest, "$" + k, v)
  {
    match g
    case Literal(s) =>
      ReplaceAllSkipsPlain(s, rest, "$" + k, v);
    case Placeholder(n) =>
      if n == k {
        ReplaceOwnPlaceholder(k, rest, v);
      } else {
        ReplaceOtherPlaceholder(n, k, rest, v);
      }
  }

  /** Replacing `$k` in a plain template fills exactly the placeholders named `k`. */
  lemma {:induction false} ReplaceFillsPlaceholder(t: seq<Segment>, k: string, v: string)
    requires '$' !in k && PlainTemplate(t)
    requires forall i :: 0 <= i < |t| && t[i].Placeholder? && t[i].name != k ==>
               !(k <= t[i].name) && !(t[i].name <= k)
    ensures ReplaceAll(Flatten(t), "$" + k, v) == Flatten(Fill(t, k, v))
    decreases |t|
  {
    if t == [] {
      ReplaceAllShort([], "$" + k, v);
    } else {
      assert forall i :: 0 <= i < |t[1..]| ==> t[1..][i] == t[i + 1];
      ReplaceFillsPlaceholder(t[1..], k, v);
      ReplaceSegment(t[0], Flatten(t[1..]), k, v);
    }
  }

  /** Filling the placeholders named `k` with the table's value for `k` does not change
      what the template renders to. */
  lemma {:induction false} FillKeepsRender(t: seq<Segment>, k: string, table: map<string, string>)
    requires k in table
    ensures Render(Fill(t, k, table[k]), table) == Render(t, table)
    decreases |t|
  {
    if t != [] {
      FillKeepsRender(t[1..], k, table);
    }
  }

  /** A template whose placeholders are all undeclared renders to its own text. */
  lemma {:induction false} RenderUndeclared(t: seq<Segment>, table: map<string, string>)
    requires forall i :: 0 <= i < |t| && t[i].Placeholder? ==> t[i].name !in table
    ensures Render(t, table) == Flatten(t)
    decreases |t|
  {
    if t != [] {
      assert forall i :: 0 <= i < |t[1..]| ==> t[1..][i] == t[i + 1];
      RenderUndeclared(t[1..], table);
    }
  }

  /** Filling the first visited entry keeps the template plain and separated, and leaves
      only placeholders that the rest of the order visits or that are undeclared. */
  lemma FillKeepsShape(t: seq<Segment>, table: map<string, string>, order: seq<string>)
    requires order != [] && order[0] in table && '$' !in table[order[0]]
    requires PlainTemplate(t) && Separated(t, table.Keys)
    requires forall i :: 0 <= i < |t| && t[i].Placeholder? && t[i].name in table ==> t[i].name in order
    ensures var f := Fill(t, order[0], table[order[0]]);
      && PlainTemplate(f) && Separated(f, table.Keys)
      && forall i :: 0 <= i < |f| && f[i].Placeholder? && f[i].name in table ==> f[i].name in order[1..]
  {
    var k, v := order[0], table[order[0]];
    var f := Fill(t, k, v);
    forall i | 0 <= i < |f|
      ensures f[i] == t[i] || f[i] == Literal(v)
      ensures f[i].Placeholder? ==> f[i] == t[i] && f[i].name != k
    {
      FillAt(t, k, v, i);
    }
  }

  /** Substitution is textual and complete, and its result does not depend on the order
      of the entries. Take a text of `$`-free literals and `$name` placeholders, `$`-free
      names and values, and placeholders separated from the names. If every placeholder
      that names an entry is visited, the result is the text with each such placeholder
      replaced by its value and every undeclared placeholder left as written. */
  lemma {:induction false} SubstituteTemplate(t: seq<Segment>, table: map<string, string>, order: seq<string>)
    requires forall k :: k in order ==> k in table
    requires forall k :: k in table ==> '$' !in k && '$' !in table[k]
    requires PlainTemplate(t) && Separated(t, table.Keys)
    requires forall i :: 0 <= i < |t| && t[i].Placeholder? && t[i].name in table ==> t[i].name in order
    ensures Substitute(Flatten(t), table, order) == Render(t, table)
    decreases |order|
  {
    if order == [] {
      RenderUndeclared(t, table);
    } else {
      var k := order[0];
      var v := table[k];
      ReplaceFillsPlaceholder(t, k, v);
      var f := Fill(t, k, v);
      FillKeepsRender(t, k, table);
      FillKeepsShape(t, table, order);
      SubstituteTemplate(f, table, order[1..]);
    }
  }
}
