/**
  parseImportedKeys: the foreign key of a CREATE TABLE statement, read by
  scanning the statement with a position. The parser is undefined where it
  reads past the terminator of the string; here that outcome is `Overrun`.
  */
module ForeignKeys {
  import opened Basics
  import opened SqlText

  // importedKeyCascade, importedKeyNoAction, importedKeyRestrict, importedKeySetNull
  const CASCADE := 0
  const NO_ACTION := 3
  const RESTRICT := 5
  const SET_NULL := 7

  datatype Section = Section(name: Option<string>, fields: seq<string>)

  datatype Outcome =
    | NoConstraint
    | Parsed(constraintName: string, foreignKey: Section, references: Section, onDelete: int, onUpdate: int)
    | Overrun

  // ---------------------------------------------------------------------
  // The parts of the parser
  // ---------------------------------------------------------------------

  /** while (s[end] != quote && s[end - 1] != '\\') ++end; */
  function EndOfName(s: string, end: nat, q: char): (r: Option<nat>)
    requires end > 0
    ensures r.Some? ==> end <= r.value <= |s|
    decreases |s| + 1 - end
  {
    match Get(s, end)
    case None => None
    case Some(x) =>
      if x != q && Get(s, end - 1) != Some('\\') then EndOfName(s, end + 1, q) else Some(end)
  }

  datatype At<T> = At(value: T, pos: nat)

  /** The name that starts at pos, just after its opening quote. */
  function NameAt(s: string, pos: nat, q: char): Option<At<string>>
    requires pos > 0
  {
    match EndOfName(s, pos, q)
    case None => None
    case Some(end) =>
      match Substr(s, pos, end - pos)
      case None => None
      case Some(name) => Some(At(name, end + 1))
  }

  /** The field names from pos to the closing bracket. */
  function Fields(s: string, pos: nat, close: nat): Option<seq<string>>
    decreases |s| + 1 - pos
  {
    var comma := Find(s, ",", pos);
    if comma >= close || comma == NPOS then
      match Substr(s, pos + 1, (close - pos - 2) % WORD64)
      case None => None
      case Some(last) => Some([last])
    else
      FindBounds(s, ",", pos);
      match Substr(s, pos + 1, (comma - pos - 2) % WORD64)
      case None => None
      case Some(field) =>
        match SkipBlanks(s, comma + 1)
        case None => None
        case Some(next) =>
          SkipForward(s, comma + 1);
          match Fields(s, next, close)
          case None => None
          case Some(more) => Some([field] + more)
  }

  lemma {:induction false} FindBounds(s: string, pat: string, pos: nat)
    requires pat != []
    ensures Find(s, pat, pos) == NPOS || pos <= Find(s, pat, pos) <= |s| - |pat|
    decreases |s| - pos
  {
    if pos + |pat| > |s| || s[pos..pos + |pat|] == pat {
    } else {
      FindBounds(s, pat, pos + 1);
    }
  }

  lemma {:induction false} SkipForward(s: string, pos: nat)
    ensures SkipBlanks(s, pos).Some? ==> pos <= SkipBlanks(s, pos).value <= |s|
    decreases |s| + 1 - pos
  {
    if Get(s, pos) != Some(' ') {
    } else {
      SkipForward(s, pos + 1);
    }
  }

  /** One of "FOREIGN KEY [name] (fields)" and "REFERENCES name (fields)". */
  function SectionAt(s: string, pos: nat, keyword: string, q: char): Option<At<Section>> {
    match SkipBlanks(s, (Find(s, keyword, pos) + |keyword|) % WORD64)
    case None => None
    case Some(p) =>
      if Get(s, p) == Some('(') then FieldsAt(s, None, p)
      else match NameAt(s, p + 1, q)
        case None => None
        case Some(At(name, after)) =>
          match ScanTo(s, after, '(')
          case None => None
          case Some(open) => FieldsAt(s, Some(name), open)
  }

  function FieldsAt(s: string, name: Option<string>, open: nat): Option<At<Section>> {
    var close := Find(s, ")", open + 1);
    match Fields(s, open + 1, close)
    case None => None
    case Some(fields) => Some(At(Section(name, fields), (close + 1) % WORD64))
  }

  /** The action named at p, and how far its name reaches: sizeof counts one more. */
  function ActionAt(s: string, p: nat): At<int> {
    match Get(s, p)
    case Some('R') => At(RESTRICT, p + |"RESTRICT"| + 1)
    case Some('C') => At(CASCADE, p + |"CASCADE"| + 1)
    case Some('S') => At(SET_NULL, p + |"SET NULL"| + 1)
    case Some('N') => At(NO_ACTION, p + |"NO ACTION"| + 1)
    case _ => At(NO_ACTION, p)
  }

  /** The optional ON DELETE or ON UPDATE clause somewhere at or after pos. */
  function Rule(s: string, pos: nat, keyword: string): Option<At<int>> {
    var idx := Find(s, keyword, pos);
    if idx == NPOS then Some(At(NO_ACTION, pos))
    else match SkipBlanks(s, idx + |keyword|)
      case None => None
      case Some(p) => Some(ActionAt(s, p))
  }

  /** ON DELETE is looked for first, ON UPDATE after it. */
  function Rules(s: string, pos: nat): Option<(int, int)> {
    match Rule(s, pos, "ON DELETE")
    case None => None
    case Some(At(onDelete, p)) =>
      match Rule(s, p, "ON UPDATE")
      case None => None
      case Some(At(onUpdate, _)) => Some((onDelete, onUpdate))
  }

  function Parse(s: string, q: char): Outcome {
    var idx := Find(s, "CONSTRAINT", 0);
    if idx == NPOS then NoConstraint
    else match ScanTo(s, idx + |"CONSTRAINT"|, q)
      case None => Overrun
      case Some(quote) =>
        match NameAt(s, quote + 1, q)
        case None => Overrun
        case Some(At(name, p1)) =>
          match SectionAt(s, p1, "FOREIGN KEY", q)
          case None => Overrun
          case Some(At(foreignKey, p2)) =>
            match SectionAt(s, p2, "REFERENCES", q)
            case None => Overrun
            case Some(At(references, p3)) =>
              match Rules(s, p3)
              case None => Overrun
              case Some((onDelete, onUpdate)) => Parsed(name, foreignKey, references, onDelete, onUpdate)
  }

  /** A statement has no key to report exactly when the word CONSTRAINT is not in it. */
  lemma NoConstraintIff(s: string, q: char)
    requires |s| < NPOS
    ensures Parse(s, q).NoConstraint? <==> Lacks(s, "CONSTRAINT")
  {
    hide Find, ScanTo, NameAt, SectionAt, Rules;
    FindsIff(s, "CONSTRAINT");
  }

  /** Where no quote follows the word, the search for it leaves the statement. */
  lemma NoQuoteOverruns(s: string, q: char)
    requires |s| < NPOS && !Lacks(s, "CONSTRAINT") && q != '\0' && q !in s
    ensures Parse(s, q) == Overrun
  {
    FindsIff(s, "CONSTRAINT");
    NoQuote(s, Find(s, "CONSTRAINT", 0) + |"CONSTRAINT"|, q);
    hide Find, ScanTo;
  }

  lemma {:induction false} NoQuote(s: string, pos: nat, q: char)
    requires q != '\0' && q !in s
    ensures ScanTo(s, pos, q) == None
    decreases |s| + 1 - pos
  {
    if pos > |s| {
    } else {
      NoQuote(s, pos + 1, q);
    }
  }

  // ---------------------------------------------------------------------
  // Statements that are not as the parser expects: its lengths and positions wrap
  // ---------------------------------------------------------------------

  /** Brackets with less than two characters in them: the field is all the rest of the statement. */
  lemma ShortField(s: string, pos: nat, close: nat)
    requires pos <= close < pos + 2 && pos < |s| < NPOS - 1 && Find(s, ",", pos) >= close
    ensures Fields(s, pos, close) == Some([s[pos + 1..]])
  {
    hide Find, SkipBlanks;
    assert (close - pos - 2) % WORD64 == WORD64 + (close - pos - 2);
  }

  /** A bracket that is never closed: the field is all the rest, and the next search starts over. */
  lemma OpenBracket(s: string, name: Option<string>, open: nat)
    requires open + 1 < |s| < NPOS - 1 && ')' !in s && ',' !in s
    ensures FieldsAt(s, name, open) == Some(At(Section(name, [s[open + 2..]]), 0))
  {
    NoChar(s, ')', open + 1);
    NoChar(s, ',', open + 1);
    hide Find, SkipBlanks;
    assert (NPOS - (open + 1) - 2) % WORD64 == NPOS - open - 3;
    assert open + 2 + (NPOS - open - 3) > |s|;
    assert (NPOS + 1) % WORD64 == 0;
  }

  lemma NoChar(s: string, c: char, pos: nat)
    requires |s| < NPOS && c !in s
    ensures Find(s, [c], pos) == NPOS
  {
    forall j: nat | pos <= j ensures !Matches(s, [c], j) {
      MatchHead(s, [c], j);
    }
    FindNone(s, [c], pos);
  }

  /** A keyword that is missing: reading goes on near the start of the statement. */
  lemma MissingKeyword(s: string, pos: nat, keyword: string, q: char)
    requires keyword != [] && |keyword| < NPOS && Find(s, keyword, pos) == NPOS
    ensures |keyword| - 1 < |s| && s[|keyword| - 1] == '(' ==>
              SectionAt(s, pos, keyword, q) == FieldsAt(s, None, |keyword| - 1)
  {
    hide Find, FieldsAt;
    assert (NPOS + |keyword|) % WORD64 == |keyword| - 1;
  }

  // ---------------------------------------------------------------------
  // The parser with its loops
  // ---------------------------------------------------------------------

  method ScanLoop(s: string, start: nat, c: char) returns (r: Option<nat>)
    ensures r == ScanTo(s, start, c)
  {
    var pos := start;
    while pos <= |s| && Get(s, pos) != Some(c)
      invariant ScanTo(s, start, c) == ScanTo(s, pos, c)
    {
      pos := pos + 1;
    }
    return if pos <= |s| then Some(pos) else None;
  }

  method BlanksLoop(s: string, start: nat) returns (r: Option<nat>)
    ensures r == SkipBlanks(s, start)
  {
    var pos := start;
    while pos <= |s| && Get(s, pos) == Some(' ')
      invariant SkipBlanks(s, start) == SkipBlanks(s, pos)
    {
      pos := pos + 1;
    }
    return if pos <= |s| then Some(pos) else None;
  }

  method NameLoop(s: string, pos: nat, q: char) returns (r: Option<At<string>>)
    requires pos > 0
    ensures r == NameAt(s, pos, q)
  {
    var end := pos;
    while end <= |s| && Get(s, end) != Some(q) && Get(s, end - 1) != Some('\\')
      invariant end >= pos && EndOfName(s, pos, q) == EndOfName(s, end, q)
    {
      end := end + 1;
    }
    if end > |s| {
      return None;
    }
    var name := Substr(s, pos, end - pos);
    return Some(At(name.value, end + 1));
  }

  ghost function Prepend(front: seq<string>, rest: Option<seq<string>>): Option<seq<string>> {
    match rest case None => None case Some(more) => Some(front + more)
  }

  lemma PrependNone(rest: Option<seq<string>>)
    ensures Prepend([], rest) == rest
  {
    assert rest.Some? ==> [] + rest.value == rest.value;
  }

  lemma PrependOne(front: seq<string>, field: string, rest: Option<seq<string>>)
    ensures Prepend(front, None) == None
    ensures Prepend(front, Some([field])) == Some(front + [field])
    ensures rest.Some? ==> Prepend(front, Some([field] + rest.value)) == Prepend(front + [field], rest)
    ensures rest.None? ==> Prepend(front + [field], rest) == None
  {
    assert rest.Some? ==> front + ([field] + rest.value) == front + [field] + rest.value;
  }

  method FieldsLoop(s: string, start: nat, close: nat) returns (r: Option<seq<string>>)
    ensures r == Fields(s, start, close)
  {
    hide Find, SkipBlanks, Substr, Get, Prepend;
    var fields: seq<string> := [];
    var pos := start;
    PrependNone(Fields(s, pos, close));
    while true
      invariant Fields(s, start, close) == Prepend(fields, Fields(s, pos, close))
      decreases |s| + 1 - pos
    {
      var comma := Find(s, ",", pos);
      if comma >= close || comma == NPOS {
        var field := Substr(s, pos + 1, (close - pos - 2) % WORD64);
        PrependOne(fields, if field.None? then "" else field.value, Some([]));
        if field.None? {
          return None;
        }
        return Some(fields + [field.value]);
      }
      FindBounds(s, ",", pos);
      var field := Substr(s, pos + 1, (comma - pos - 2) % WORD64);
      PrependOne(fields, "", None);
      if field.None? {
        return None;
      }
      var next := BlanksLoop(s, comma + 1);
      SkipForward(s, comma + 1);
      if next.None? {
        return None;
      }
      PrependOne(fields, field.value, Fields(s, next.value, close));
      fields := fields + [field.value];
      pos := next.value;
    }
  }

  method ReadSection(s: string, start: nat, keyword: string, q: char) returns (r: Option<At<Section>>)
    ensures r == SectionAt(s, start, keyword, q)
  {
    hide Find, SkipBlanks, ScanTo, Fields, NameAt, Get;
    var pos := BlanksLoop(s, (Find(s, keyword, start) + |keyword|) % WORD64);
    if pos.None? {
      return None;
    }
    var open, name := pos.value, None;
    if Get(s, open) != Some('(') {
      var read := NameLoop(s, open + 1, q);
      if read.None? {
        return None;
      }
      name := Some(read.value.value);
      var bracket := ScanLoop(s, read.value.pos, '(');
      if bracket.None? {
        return None;
      }
      open := bracket.value;
    }
    var close := Find(s, ")", open + 1);
    var fields := FieldsLoop(s, open + 1, close);
    if fields.None? {
      return None;
    }
    return Some(At(Section(name, fields.value), (close + 1) % WORD64));
  }

  method ReadRule(s: string, start: nat, keyword: string) returns (r: Option<At<int>>)
    ensures r == Rule(s, start, keyword)
  {
    var action, pos := NO_ACTION, start;
    var idx := Find(s, keyword, pos);
    if idx != NPOS {
      var ink := BlanksLoop(s, idx + |keyword|);
      if ink.None? {
        return None;
      }
      pos := ink.value;
      var x := Get(s, pos);
      if x == Some('R') {
        action, pos := RESTRICT, pos + |"RESTRICT"| + 1;
      } else if x == Some('C') {
        action, pos := CASCADE, pos + |"CASCADE"| + 1;
      } else if x == Some('S') {
        action, pos := SET_NULL, pos + |"SET NULL"| + 1;
      } else if x == Some('N') {
        action, pos := NO_ACTION, pos + |"NO ACTION"| + 1;
      }
    }
    return Some(At(action, pos));
  }

  method ParseImportedKeys(def: string, q: char) returns (r: Outcome)
    ensures r == Parse(def, q)
  {
    var idx := Find(def, "CONSTRAINT", 0);
    if idx == NPOS {
      return NoConstraint;
    }
    var quote := ScanLoop(def, idx + |"CONSTRAINT"|, q);
    if quote.None? {
      return Overrun;
    }
    var name := NameLoop(def, quote.value + 1, q);
    if name.None? {
      return Overrun;
    }
    var foreignKey := ReadSection(def, name.value.pos, "FOREIGN KEY", q);
    if foreignKey.None? {
      return Overrun;
    }
    var references := ReadSection(def, foreignKey.value.pos, "REFERENCES", q);
    if references.None? {
      return Overrun;
    }
    var onDelete := ReadRule(def, references.value.pos, "ON DELETE");
    if onDelete.None? {
      return Overrun;
    }
    var onUpdate := ReadRule(def, onDelete.value.pos, "ON UPDATE");
    if onUpdate.None? {
      return Overrun;
    }
    return Parsed(name.value.value, foreignKey.value.value, references.value.value,
                  onDelete.value.value, onUpdate.value.value);
  }

  // ---------------------------------------------------------------------
  // getImportedKeys: one row for each pair of columns
  // ---------------------------------------------------------------------

  const NOT_DEFERRABLE := 4

  datatype KeyRow = KeyRow(
    pkCat: string, pkSchema: string, pkTable: string, pkColumn: string,
    fkCat: string, fkSchema: string, fkTable: string, fkColumn: string,
    keySeq: nat, updateRule: int, deleteRule: int, fkName: string, pkName: string, deferrability: int)

  function RowAt(r: Outcome, schema: string, table: string, i: nat): KeyRow
    requires r.Parsed? && i < |r.references.fields| && i < |r.foreignKey.fields|
  {
    var pkTable := if r.references.name.Some? then r.references.name.value else "";
    KeyRow("def", schema, pkTable, r.references.fields[i],
           "", schema, table, r.foreignKey.fields[i],
           i + 1, r.onUpdate, r.onDelete, r.constraintName, "", NOT_DEFERRABLE)
  }

  /** The rows of the result, and whether parsing stayed inside the statement. */
  method ImportedKeys(def: string, q: char, schema: string, table: string) returns (rows: Option<seq<KeyRow>>)
    ensures rows.None? <==> Parse(def, q).Overrun?
    ensures Parse(def, q).NoConstraint? ==> rows == Some([])
    ensures |def| < NPOS && Lacks(def, "CONSTRAINT") ==> rows == Some([])
    ensures rows.Some? && Parse(def, q).Parsed? && Parse(def, q).references.name.None? ==>
              forall row | row in rows.value :: row.pkTable == ""
    ensures var r := Parse(def, q);
      r.Parsed? ==>
        && rows.Some?
        && var refs, keys := |r.references.fields|, |r.foreignKey.fields|;
        && |rows.value| == (if refs <= keys then refs else keys)
        && forall i | 0 <= i < |rows.value| :: rows.value[i] == RowAt(r, schema, table, i)
  {
    hide Parse, Lacks;
    if |def| < NPOS {
      NoConstraintIff(def, q);
    }
    var r := ParseImportedKeys(def, q);
    if r.Overrun? {
      return None;
    }
    if r.NoConstraint? {
      return Some([]);
    }
    var refs, keys := r.references.fields, r.foreignKey.fields;
    var pkTable := if r.references.name.Some? then r.references.name.value else "";
    var data: seq<KeyRow> := [];
    var kSequence := 0;
    while kSequence < |refs| && kSequence < |keys|
      invariant kSequence == |data| <= |refs| && |data| <= |keys|
      invariant forall i | 0 <= i < |data| :: data[i] == RowAt(r, schema, table, i)
    {
      var pkColumn, fkColumn := refs[kSequence], keys[kSequence];
      kSequence := kSequence + 1;
      data := data + [KeyRow("def", schema, pkTable, pkColumn, "", schema, table, fkColumn,
                             kSequence, r.onUpdate, r.onDelete, r.constraintName, "", NOT_DEFERRABLE)];
    }
    return Some(data);
  }
}
