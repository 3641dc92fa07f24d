/**
  The foreign key clause as the server prints it, and the proof that
  parseImportedKeys reads it back: all names, all columns and both actions,
  without reading past the end of the statement.
  */
module ForeignKeyPrinter {
  import opened Basics
  import opened SqlText
  import opened ForeignKeys
  import opened ForeignKeyRules

  datatype Key = Key(
    name: string, index: Option<string>, columns: seq<string>,
    table: string, refs: seq<string>,
    onDelete: Option<Action>, onUpdate: Option<Action>)

  function Quoted(q: char, s: string): string { [q] + s + [q] }

  function Columns(q: char, cols: seq<string>): string
    requires cols != []
  {
    if |cols| == 1 then Quoted(q, cols[0]) else Quoted(q, cols[0]) + ", " + Columns(q, cols[1..])
  }

  function PrintSection(keyword: string, q: char, name: Option<string>, cols: seq<string>): string
    requires cols != []
  {
    " " + keyword + " " + (if name.Some? then Quoted(q, name.value) + " " else "") + "(" + Columns(q, cols) + ")"
  }

  function Print(q: char, k: Key): string
    requires k.columns != [] && k.refs != []
  {
    "CONSTRAINT " + Quoted(q, k.name)
    + PrintSection("FOREIGN KEY", q, k.index, k.columns)
    + PrintSection("REFERENCES", q, Some(k.table), k.refs)
    + Clause("ON DELETE", k.onDelete) + Clause("ON UPDATE", k.onUpdate)
  }

  // ---------------------------------------------------------------------
  // What can be read back
  // ---------------------------------------------------------------------

  predicate PlainName(q: char, s: string) { q !in s && '\\' !in s }
  predicate PlainColumn(s: string) { ',' !in s && ')' !in s }
  predicate PlainColumns(cols: seq<string>) { cols != [] && forall c | c in cols :: PlainColumn(c) }

  /** The quotes of getIdentifierQuoteString. The blank it has for servers before 3.23.6 is excluded. */
  predicate IsQuote(q: char) { q == '`' || q == '"' }

  predicate Plain(q: char, k: Key) {
    && IsQuote(q) && PlainName(q, k.name) && PlainName(q, k.table)
    && (k.index.Some? ==> PlainName(q, k.index.value))
    && PlainColumns(k.columns) && PlainColumns(k.refs)
  }

  // ---------------------------------------------------------------------
  // Names
  // ---------------------------------------------------------------------

  lemma {:induction false} EndOfNameIs(a: string, name: string, b: string, q: char)
    requires a != [] && a[|a| - 1] != '\\' && PlainName(q, name)
    ensures EndOfName(a + name + [q] + b, |a|, q) == Some(|a| + |name|)
    decreases |name|
  {
    var s := a + name + [q] + b;
    if name == [] {
      assert s[|a|] == q;
    } else {
      assert s[|a|] == name[0] && s[|a| - 1] == a[|a| - 1];
      assert s == (a + [name[0]]) + name[1..] + [q] + b;
      EndOfNameIs(a + [name[0]], name[1..], b, q);
    }
  }

  /** The part of a name that is read: a backslash ends it. */
  function Unescaped(name: string): string {
    if name == [] then [] else if name[0] == '\\' then [name[0]] else [name[0]] + Unescaped(name[1..])
  }

  /** Any name without a quote: it is read up to its first backslash. */
  lemma {:induction false} EndOfAnyName(a: string, name: string, b: string, q: char)
    requires a != [] && a[|a| - 1] != '\\' && q !in name && q != '\\'
    ensures EndOfName(a + name + [q] + b, |a|, q) == Some(|a| + |Unescaped(name)|)
    decreases |name|
  {
    var s := a + name + [q] + b;
    if name == [] {
      assert s[|a|] == q;
    } else {
      assert s[|a|] == name[0] && s[|a| - 1] == a[|a| - 1];
      if name[0] == '\\' {
        assert EndOfName(s, |a| + 1, q) == Some(|a| + 1);
      } else {
        assert s == (a + [name[0]]) + name[1..] + [q] + b;
        EndOfAnyName(a + [name[0]], name[1..], b, q);
      }
    }
  }

  lemma QuotedShape(a: string, q: char, name: string, b: string, n: nat)
    requires n <= |name|
    ensures a + Quoted(q, name) + b == (a + [q]) + name + [q] + b
    ensures (a + Quoted(q, name) + b)[|a| + 1..|a| + 1 + n] == name[..n]
  {
  }

  lemma NameUpTo(s: string, pos: nat, end: nat, q: char)
    requires 0 < pos <= end <= |s| && EndOfName(s, pos, q) == Some(end)
    ensures NameAt(s, pos, q) == Some(At(s[pos..end], end + 1))
  {
  }

  /** A name is read back exactly when no backslash comes before its last character. */
  lemma NameIff(a: string, name: string, b: string, q: char)
    requires q != '\\' && q !in name
    ensures NameAt(a + Quoted(q, name) + b, |a| + 1, q) == Some(At(Unescaped(name), |a| + |Unescaped(name)| + 2))
    ensures Unescaped(name) == name <==> name == [] || '\\' !in name[..|name| - 1]
  {
    hide EndOfName, Unescaped, NameAt;
    UnescapedIs(name);
    EndOfAnyName(a + [q], name, b, q);
    var n := |Unescaped(name)|;
    assert name[..n] == Unescaped(name);
    QuotedShape(a, q, name, b, n);
    NameUpTo(a + Quoted(q, name) + b, |a| + 1, |a| + 1 + n, q);
  }

  lemma UnescapedHead(name: string)
    requires name != []
    ensures Unescaped(name) == if name[0] == '\\' then [name[0]] else [name[0]] + Unescaped(name[1..])
    ensures Unescaped([]) == []
  {
  }

  lemma {:induction false} UnescapedIs(name: string)
    ensures Unescaped(name) <= name
    ensures Unescaped(name) == name <==> name == [] || '\\' !in name[..|name| - 1]
  {
    if name == [] {
    } else {
      var rest := name[1..];
      UnescapedIs(rest);
      UnescapedHead(name);
      hide Unescaped;
      assert name == [name[0]] + rest;
      if rest == [] {
        assert name == [name[0]] && name[..0] == [];
      } else {
        var front := name[..|name| - 1];
        assert front == [name[0]] + rest[..|rest| - 1];
        assert front[0] == name[0];
      }
    }
  }

  /** A quoted name at |a| is read by NameAt. */
  lemma NameIs(a: string, name: string, b: string, q: char)
    requires q != '\\' && PlainName(q, name)
    ensures NameAt(a + Quoted(q, name) + b, |a| + 1, q) == Some(At(name, |a| + |name| + 2))
  {
    var s := a + Quoted(q, name) + b;
    assert s == (a + [q]) + name + [q] + b;
    EndOfNameIs(a + [q], name, b, q);
    assert s[|a| + 1..|a| + 1 + |name|] == name;
  }

  // ---------------------------------------------------------------------
  // Columns
  // ---------------------------------------------------------------------

  lemma {:induction false} NoBracketInColumns(q: char, cols: seq<string>)
    requires IsQuote(q) && PlainColumns(cols)
    ensures ')' !in Columns(q, cols)
  {
    assert ')' !in Quoted(q, cols[0]) by { assert PlainColumn(cols[0]); }
    if |cols| == 1 {
    } else {
      assert forall c | c in cols[1..] :: c in cols;
      NoBracketInColumns(q, cols[1..]);
    }
  }

  /** The first character c at or after |a|, when b is free of it. */
  lemma FindChar(a: string, b: string, c: char, rest: string)
    requires c !in b && |a + b + [c] + rest| < NPOS
    ensures Find(a + b + [c] + rest, [c], |a|) == |a| + |b|
  {
    var s := a + b + [c] + rest;
    forall j: nat | |a| <= j < |a| + |b| ensures !Matches(s, [c], j) {
      assert s[j] == b[j - |a|];
      MatchHead(s, [c], j);
    }
    assert s[|a| + |b|..|a| + |b| + 1] == [c];
    FindIs(s, [c], |a|, |a| + |b|);
  }

  /** Where b is free of c, the search that starts at |a| does not stop inside b. */
  lemma FindCharBeyond(a: string, b: string, c: char, rest: string)
    requires c !in b && |a + b + rest| < NPOS
    ensures Find(a + b + rest, [c], |a|) >= |a| + |b|
  {
    var s := a + b + rest;
    FindFirst(s, [c], |a|);
    MatchHead(s, [c], Find(s, [c], |a|));
    assert forall i | |a| <= i < |a| + |b| :: s[i] == b[i - |a|];
  }

  lemma LastField(s: string, pos: nat, close: nat, c: string)
    requires close == pos + |c| + 2 <= |s| < NPOS && Find(s, ",", pos) >= close
    requires s[pos + 1..pos + 1 + |c|] == c
    ensures Fields(s, pos, close) == Some([c])
  {
    assert (close - pos - 2) % WORD64 == |c|;
  }

  lemma OneField(s: string, pos: nat, close: nat, c: string, more: seq<string>)
    requires Find(s, ",", pos) == pos + |c| + 2 < close < |s| < NPOS && s[pos + 1..pos + 1 + |c|] == c
    requires pos + |c| + 4 < |s| && s[pos + |c| + 3] == ' ' && s[pos + |c| + 4] != ' '
    requires Fields(s, pos + |c| + 4, close) == Some(more)
    ensures Fields(s, pos, close) == Some([c] + more)
  {
    hide Find, SkipBlanks;
    var comma := pos + |c| + 2;
    assert (comma - pos - 2) % WORD64 == |c|;
    OneBlank(s, comma + 1);
  }

  lemma OneBlank(s: string, p: nat)
    requires p + 1 < |s| && s[p] == ' ' && s[p + 1] != ' '
    ensures SkipBlanks(s, p) == Some(p + 1)
  {
    assert SkipBlanks(s, p + 1) == Some(p + 1);
  }

  lemma FieldsLast(a: string, q: char, c: string, b: string)
    requires IsQuote(q) && PlainColumn(c) && |a + Quoted(q, c) + ")" + b| < NPOS
    ensures Fields(a + Quoted(q, c) + ")" + b, |a|, |a| + |c| + 2) == Some([c])
  {
    hide Fields, Find;
    var s := a + Quoted(q, c) + ")" + b;
    assert s == a + Quoted(q, c) + (")" + b);
    FindCharBeyond(a, Quoted(q, c), ',', ")" + b);
    assert s[|a| + 1..|a| + 1 + |c|] == c;
    LastField(s, |a|, |a| + |c| + 2, c);
  }

  lemma FieldsCons(a: string, q: char, c: string, more: string, b: string, rest: seq<string>)
    requires IsQuote(q) && PlainColumn(c) && more != [] && more[0] == q
    requires |a + Quoted(q, c) + ", " + more + ")" + b| < NPOS
    requires Fields(a + Quoted(q, c) + ", " + more + ")" + b, |a| + |c| + 4, |a| + |c| + 4 + |more|) == Some(rest)
    ensures Fields(a + Quoted(q, c) + ", " + more + ")" + b, |a|, |a| + |c| + 4 + |more|) == Some([c] + rest)
  {
    hide Fields, Find;
    var s := a + Quoted(q, c) + ", " + more + ")" + b;
    assert s == a + Quoted(q, c) + [','] + (" " + more + ")" + b);
    FindChar(a, Quoted(q, c), ',', " " + more + ")" + b);
    assert s[|a| + 1..|a| + 1 + |c|] == c;
    OneField(s, |a|, |a| + |c| + 4 + |more|, c, rest);
  }

  lemma {:induction false} FieldsAre(a: string, q: char, cols: seq<string>, b: string)
    requires IsQuote(q) && PlainColumns(cols) && |a + Columns(q, cols) + ")" + b| < NPOS
    ensures Fields(a + Columns(q, cols) + ")" + b, |a|, |a| + |Columns(q, cols)|) == Some(cols)
    decreases |cols|
  {
    hide Fields, Find;
    var c := cols[0];
    assert PlainColumn(c);
    if |cols| == 1 {
      FieldsLast(a, q, c, b);
      assert [c] == cols;
    } else {
      var more := Columns(q, cols[1..]);
      assert forall x | x in cols[1..] :: x in cols;
      var next := a + Quoted(q, c) + ", ";
      assert next + more + ")" + b == a + Columns(q, cols) + ")" + b;
      FieldsAre(next, q, cols[1..], b);
      FieldsCons(a, q, c, more, b, cols[1..]);
      assert [c] + cols[1..] == cols;
    }
  }

  /** An opening bracket at |a|, the columns and the closing bracket. */
  lemma BracketsAre(a: string, q: char, name: Option<string>, cols: seq<string>, b: string)
    requires IsQuote(q) && PlainColumns(cols) && |a + "(" + Columns(q, cols) + ")" + b| < NPOS
    ensures FieldsAt(a + "(" + Columns(q, cols) + ")" + b, name, |a|)
            == Some(At(Section(name, cols), |a| + |Columns(q, cols)| + 2))
  {
    hide Fields, Find, Columns;
    var s := a + "(" + Columns(q, cols) + ")" + b;
    NoBracketInColumns(q, cols);
    assert s == (a + "(") + Columns(q, cols) + [')'] + b;
    FindChar(a + "(", Columns(q, cols), ')', b);
    FieldsAre(a + "(", q, cols, b);
  }

  // ---------------------------------------------------------------------
  // Sections
  // ---------------------------------------------------------------------

  /** The keyword follows one blank, and one blank follows it. */
  lemma KeywordIs(a: string, keyword: string, b: string)
    requires keyword != [] && keyword[0] != ' ' && b != [] && b[0] != ' '
    requires |a + " " + keyword + " " + b| < NPOS
    ensures var s := a + " " + keyword + " " + b;
      && Find(s, keyword, |a|) == |a| + 1
      && SkipBlanks(s, (Find(s, keyword, |a|) + |keyword|) % WORD64) == Some(|a| + |keyword| + 2)
  {
    var s := a + " " + keyword + " " + b;
    assert s[|a|] == ' ';
    MatchHead(s, keyword, |a|);
    assert s[|a| + 1..|a| + 1 + |keyword|] == keyword;
    FindIs(s, keyword, |a|, |a| + 1);
    var p := |a| + 1 + |keyword|;
    assert s[p] == ' ' && s[p + 1] == b[0];
    assert SkipBlanks(s, p + 1) == Some(p + 1);
  }

  lemma SectionIs(a: string, keyword: string, q: char, name: Option<string>, cols: seq<string>, b: string)
    requires keyword != [] && keyword[0] != ' ' && IsQuote(q) && PlainColumns(cols)
    requires name.Some? ==> PlainName(q, name.value)
    requires |a + PrintSection(keyword, q, name, cols) + b| < NPOS
    ensures SectionAt(a + PrintSection(keyword, q, name, cols) + b, |a|, keyword, q)
            == Some(At(Section(name, cols), |a + PrintSection(keyword, q, name, cols)|))
  {
    hide FieldsAt, SectionAt;
    if name.None? {
      BareSection(a, keyword, q, cols, b);
    } else {
      NamedSection(a, keyword, q, name.value, cols, b);
    }
  }

  lemma BareSection(a: string, keyword: string, q: char, cols: seq<string>, b: string)
    requires keyword != [] && keyword[0] != ' ' && IsQuote(q) && PlainColumns(cols)
    requires |a + PrintSection(keyword, q, None, cols) + b| < NPOS
    ensures SectionAt(a + PrintSection(keyword, q, None, cols) + b, |a|, keyword, q)
            == Some(At(Section(None, cols), |a + PrintSection(keyword, q, None, cols)|))
  {
    hide FieldsAt, NameAt, Columns, SkipBlanks, Find;
    var s := a + PrintSection(keyword, q, None, cols) + b;
    var start := a + " " + keyword + " ";
    var brackets := "(" + Columns(q, cols) + ")";
    assert s == start + (brackets + b);
    KeywordIs(a, keyword, brackets + b);
    assert s[|start|] == '(';
    assert s == start + "(" + Columns(q, cols) + ")" + b;
    BracketsAre(start, q, None, cols, b);
  }

  lemma NamedSection(a: string, keyword: string, q: char, name: string, cols: seq<string>, b: string)
    requires keyword != [] && keyword[0] != ' ' && IsQuote(q) && PlainColumns(cols) && PlainName(q, name)
    requires |a + PrintSection(keyword, q, Some(name), cols) + b| < NPOS
    ensures SectionAt(a + PrintSection(keyword, q, Some(name), cols) + b, |a|, keyword, q)
            == Some(At(Section(Some(name), cols), |a + PrintSection(keyword, q, Some(name), cols)|))
  {
    hide FieldsAt, NameAt, Columns, SkipBlanks, Find;
    var s := a + PrintSection(keyword, q, Some(name), cols) + b;
    var start := a + " " + keyword + " ";
    var quoted := Quoted(q, name);
    var after := " " + ("(" + Columns(q, cols) + ")") + b;
    assert s == start + (quoted + after);
    KeywordIs(a, keyword, quoted + after);
    assert s[|start|] == q;
    assert s == start + quoted + after;
    NameIs(start, name, after, q);
    var open := start + quoted + " ";
    assert s == open + "(" + Columns(q, cols) + ")" + b;
    ScanNext(s, |open|);
    BracketsAre(open, q, Some(name), cols, b);
  }

  lemma ScanNext(s: string, open: nat)
    requires 0 < open < |s| && s[open - 1] == ' ' && s[open] == '('
    ensures ScanTo(s, open - 1, '(') == Some(open)
  {
    assert ScanTo(s, open, '(') == Some(open);
  }

  // ---------------------------------------------------------------------
  // The round trip
  // ---------------------------------------------------------------------

  /** The keyword CONSTRAINT is found where the clause starts: it has no border to overlap with. */
  lemma ConstraintFound(prefix: string, rest: string)
    requires Lacks(prefix, "CONSTRAINT") && |prefix + "CONSTRAINT" + rest| < NPOS
    ensures Find(prefix + "CONSTRAINT" + rest, "CONSTRAINT", 0) == |prefix|
  {
    var kw := "CONSTRAINT";
    var s := prefix + kw + rest;
    assert s[|prefix|..|prefix| + |kw|] == kw;
    forall j: nat | j < |prefix| ensures !Matches(s, kw, j) {
      assert !Matches(prefix, kw, j);
      if j + |kw| <= |prefix| {
        assert s[j..j + |kw|] == prefix[j..j + |kw|];
      } else {
        assert s[j..j + |kw|][|prefix| - j] == kw[0];
        assert forall i | 0 < i < |kw| :: kw[i] != 'C';
      }
    }
    FindIs(s, kw, 0, |prefix|);
  }

  /**
    The parser inverts the printer: in any statement around the clause, it
    recovers the constraint, the tables and every column. The actions it
    finds are those of ReadBack, which are the key's own exactly when the
    text after the key does not mislead it.
    */
  lemma ParsePrint(prefix: string, q: char, k: Key, suffix: string)
    requires Plain(q, k) && Lacks(prefix, "CONSTRAINT")
    requires |prefix + Print(q, k) + suffix| < NPOS
    ensures var r := Parse(prefix + Print(q, k) + suffix, q);
      && r.Parsed? && r.constraintName == k.name
      && r.foreignKey == Section(k.index, k.columns)
      && r.references == Section(Some(k.table), k.refs)
      && (r.onDelete, r.onUpdate) == ReadBack(k.onDelete, k.onUpdate, suffix)
      && (r.onDelete == Number(k.onDelete) && r.onUpdate == Number(k.onUpdate)
          <==> !Misread(k.onDelete, k.onUpdate, suffix))
  {
    hide SectionAt, Rules, NameAt, Find, PrintSection, Clause, Misread, ReadBack;
    var s := prefix + Print(q, k) + suffix;
    var name := Quoted(q, k.name);
    var fk := PrintSection("FOREIGN KEY", q, k.index, k.columns);
    var refs := PrintSection("REFERENCES", q, Some(k.table), k.refs);
    var tail := Clause("ON DELETE", k.onDelete) + Clause("ON UPDATE", k.onUpdate) + suffix;
    assert s == prefix + "CONSTRAINT" + (" " + name + fk + refs + tail);
    ConstraintFound(prefix, " " + name + fk + refs + tail);
    var a := prefix + "CONSTRAINT ";
    assert s == a + name + (fk + refs + tail);
    assert s[|a| - 1] == ' ' && s[|a|] == q;
    assert ScanTo(s, |a|, q) == Some(|a|);
    assert ScanTo(s, |a| - 1, q) == Some(|a|);
    NameIs(a, k.name, fk + refs + tail, q);
    assert s == (a + name) + fk + (refs + tail);
    SectionIs(a + name, "FOREIGN KEY", q, k.index, k.columns, refs + tail);
    assert s == (a + name + fk) + refs + tail;
    SectionIs(a + name + fk, "REFERENCES", q, Some(k.table), k.refs, tail);
    assert s == (a + name + fk + refs) + tail;
    RulesAfter(a + name + fk + refs, tail);
    RulesPrinted(k.onDelete, k.onUpdate, suffix);
  }

  /**
    The metadata rows of a printed key: row i pairs the i-th column with the
    i-th column it refers to, and is right exactly when the actions are.
    */
  lemma PrintedKeyRow(prefix: string, q: char, k: Key, suffix: string, schema: string, table: string, i: nat)
    requires Plain(q, k) && Lacks(prefix, "CONSTRAINT")
    requires |prefix + Print(q, k) + suffix| < NPOS
    requires i < |k.columns| && i < |k.refs|
    ensures var r := Parse(prefix + Print(q, k) + suffix, q);
      && r.Parsed? && |r.references.fields| == |k.refs| && |r.foreignKey.fields| == |k.columns|
      && var row := RowAt(r, schema, table, i);
      && row.(updateRule := 0, deleteRule := 0) ==
         KeyRow("def", schema, k.table, k.refs[i], "", schema, table, k.columns[i],
                i + 1, 0, 0, k.name, "", NOT_DEFERRABLE)
      && (row.deleteRule, row.updateRule) == ReadBack(k.onDelete, k.onUpdate, suffix)
      && (row.deleteRule == Number(k.onDelete) && row.updateRule == Number(k.onUpdate)
          <==> !Misread(k.onDelete, k.onUpdate, suffix))
  {
    ParsePrint(prefix, q, k, suffix);
    hide Parse, Print, Misread, ReadBack, Plain, Lacks;
  }

  /**
    A whole statement with two keys: the one that is reported has ON UPDATE
    only, but comes out with the ON DELETE action of the key after it.
    */
  lemma SecondKeyMisleads(prefix: string, q: char, k: Key, mid: string, del: Action, rest: string)
    requires Plain(q, k) && Lacks(prefix, "CONSTRAINT") && Lacks(mid, "ON DELETE")
    requires k.onDelete == None && k.onUpdate.Some? && k.onUpdate.value != NoAction && del != NoAction
    requires |prefix + Print(q, k) + (mid + Clause("ON DELETE", Some(del)) + rest)| < NPOS
    ensures var r := Parse(prefix + Print(q, k) + (mid + Clause("ON DELETE", Some(del)) + rest), q);
      && r.Parsed? && r.constraintName == k.name
      && r.onDelete == Number(Some(del)) != Number(k.onDelete)
      && r.onUpdate == FirstNamed(Drop(rest, 1), "ON UPDATE")
  {
    var suffix := mid + Clause("ON DELETE", Some(del)) + rest;
    ParsePrint(prefix, q, k, suffix);
    LaterKeyMisleads(k.onUpdate.value, mid, del, rest);
  }
}
