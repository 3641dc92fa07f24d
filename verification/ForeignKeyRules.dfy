/**
  The ON DELETE and ON UPDATE clauses of a foreign key. parseImportedKeys
  looks for them anywhere in the rest of the statement, so what it reads
  depends on the text after the key too; this is stated for every such text.
  */
module ForeignKeyRules {
  import opened Basics
  import opened SqlText
  import opened ForeignKeys

  datatype Action = Restrict | Cascade | SetNull | NoAction

  function Word(a: Action): string {
    match a
    case Restrict => "RESTRICT"
    case Cascade => "CASCADE"
    case SetNull => "SET NULL"
    case NoAction => "NO ACTION"
  }

  /** An absent clause means no action. */
  function Number(a: Option<Action>): int {
    match a
    case Some(Restrict) => RESTRICT
    case Some(Cascade) => CASCADE
    case Some(SetNull) => SET_NULL
    case _ => NO_ACTION
  }

  /** The numbers a client of the metadata sees, by their places in the enumeration of the interface. */
  lemma ActionNumbers()
    ensures Number(Some(Cascade)) == 0 && Number(Some(NoAction)) == Number(None) == 3
    ensures Number(Some(Restrict)) == 5 && Number(Some(SetNull)) == 7 && NOT_DEFERRABLE == 4
  {
  }

  function Clause(keyword: string, a: Option<Action>): string {
    if a.None? then "" else " " + keyword + " " + Word(a.value)
  }

  // ---------------------------------------------------------------------
  // What a text says, without positions
  // ---------------------------------------------------------------------

  function Drop(t: string, n: nat): string {
    if n <= |t| then t[n..] else []
  }

  /** The text after the first occurrence of the keyword. */
  function AfterKeyword(t: string, kw: string): Option<string>
    requires kw != []
  {
    var i := Find(t, kw, 0);
    if i == NPOS then None
    else
      FindBounds(t, kw, 0);
      Some(t[i + |kw|..])
  }

  /** The text from its first character that is not a blank. */
  function Ink(t: string): string {
    if t != [] && t[0] == ' ' then Ink(t[1..]) else t
  }

  /** The action a text names, told by one letter. */
  function Named(t: string): int {
    var u := Ink(t);
    if u == [] then NO_ACTION
    else match u[0]
      case 'R' => RESTRICT
      case 'C' => CASCADE
      case 'S' => SET_NULL
      case _ => NO_ACTION
  }

  /** The text after the action, and after one character more. */
  function Rest(t: string): string {
    var u := Ink(t);
    if u == [] then []
    else match u[0]
      case 'R' => Drop(u, |"RESTRICT"| + 1)
      case 'C' => Drop(u, |"CASCADE"| + 1)
      case 'S' => Drop(u, |"SET NULL"| + 1)
      case 'N' => Drop(u, |"NO ACTION"| + 1)
      case _ => u
  }

  /** The action named after the first occurrence of the keyword, if there is one. */
  function FirstNamed(t: string, kw: string): int
    requires kw != []
  {
    match AfterKeyword(t, kw)
    case None => NO_ACTION
    case Some(u) => Named(u)
  }

  /** Both actions a text names: ON UPDATE counts only after ON DELETE. */
  function BothNamed(t: string): (int, int) {
    match AfterKeyword(t, "ON DELETE")
    case None => (NO_ACTION, FirstNamed(t, "ON UPDATE"))
    case Some(u) => (Named(u), FirstNamed(Rest(u), "ON UPDATE"))
  }

  // ---------------------------------------------------------------------
  // The parser reads what the text says
  // ---------------------------------------------------------------------

  /** A rule depends only on the text from its starting position on. */
  lemma RuleAfter(a: string, b: string, k: nat, keyword: string)
    requires keyword != [] && |a + b| < NPOS && Rule(b, k, keyword).Some?
    ensures Rule(a + b, |a| + k, keyword)
            == Some(At(Rule(b, k, keyword).value.value, |a| + Rule(b, k, keyword).value.pos))
  {
    hide Find, SkipBlanks;
    FindAfter(a, b, keyword, k);
    FindBounds(b, keyword, k);
    var idx := Find(b, keyword, k);
    if idx != NPOS {
      SkipBlanksAfter(a, b, idx + |keyword|);
      assert |a| + (idx + |keyword|) == |a| + idx + |keyword|;
      GetAfter(a, b, SkipBlanks(b, idx + |keyword|).value);
    }
  }

  lemma {:induction false} InkAt(t: string, pos: nat)
    requires pos <= |t|
    ensures var p := SkipBlanks(t, pos);
      p.Some? && pos <= p.value <= |t| && t[p.value..] == Ink(t[pos..])
    decreases |t| - pos
  {
    if pos == |t| || t[pos] != ' ' {
      assert SkipBlanks(t, pos) == Some(pos);
    } else {
      assert t[pos..][1..] == t[pos + 1..];
      InkAt(t, pos + 1);
    }
  }

  lemma DropDrop(t: string, p: nat, n: nat)
    requires p <= |t|
    ensures Drop(t, p + n) == Drop(t[p..], n) && Drop(t, p) == t[p..]
  {
  }

  /** The action at the end of the blanks is the one the text names. */
  lemma ActionReads(t: string, p: nat, u: string)
    requires p <= |t| && t[p..] == Ink(u)
    ensures ActionAt(t, p).value == Named(u) && Drop(t, ActionAt(t, p).pos) == Rest(u)
  {
    hide Ink, Drop;
    assert p < |t| ==> Ink(u)[0] == t[p];
    DropDrop(t, p, 0);
    DropDrop(t, p, 8);
    DropDrop(t, p, 9);
    DropDrop(t, p, 10);
  }

  /** One search from the start: the action named, and the text left for the next search. */
  lemma RuleReads(t: string, kw: string)
    requires kw != [] && |t| < NPOS
    ensures Rule(t, 0, kw).Some?
    ensures match AfterKeyword(t, kw)
      case None => Rule(t, 0, kw) == Some(At(NO_ACTION, 0))
      case Some(u) => Rule(t, 0, kw).value.value == Named(u) && Drop(t, Rule(t, 0, kw).value.pos) == Rest(u)
  {
    hide Find, SkipBlanks, ActionAt, Named, Rest;
    FindBounds(t, kw, 0);
    var i := Find(t, kw, 0);
    if i != NPOS {
      InkAt(t, i + |kw|);
      ActionReads(t, SkipBlanks(t, i + |kw|).value, t[i + |kw|..]);
    }
  }

  lemma FindPast(t: string, kw: string, p: nat)
    ensures p + |kw| > |t| ==> Find(t, kw, p) == NPOS
  {
  }

  /** A search from any position, even one past the end. */
  lemma RuleFrom(t: string, p: nat, kw: string)
    requires kw != [] && |t| < NPOS
    ensures Rule(t, p, kw).Some? && Rule(t, p, kw).value.value == FirstNamed(Drop(t, p), kw)
  {
    hide Find, SkipBlanks, Named, Rest;
    FindPast(t, kw, p);
    FindPast([], kw, 0);
    if p <= |t| {
      hide Rule;
      var a, b := t[..p], t[p..];
      assert t == a + b;
      RuleReads(b, kw);
      RuleAfter(a, b, 0, kw);
    }
  }

  lemma RulesRead(t: string)
    requires |t| < NPOS
    ensures Rules(t, 0) == Some(BothNamed(t))
  {
    hide Rule, AfterKeyword, Named, Rest;
    RuleReads(t, "ON DELETE");
    var p := Rule(t, 0, "ON DELETE").value.pos;
    RuleFrom(t, p, "ON UPDATE");
  }

  lemma RulesAfter(a: string, b: string)
    requires |a + b| < NPOS
    ensures Rules(a + b, |a|) == Rules(b, 0)
  {
    hide Rule, AfterKeyword, FirstNamed, Named, Rest, Drop;
    RuleReads(b, "ON DELETE");
    RuleAfter(a, b, 0, "ON DELETE");
    var p := Rule(b, 0, "ON DELETE").value.pos;
    RuleFrom(b, p, "ON UPDATE");
    RuleAfter(a, b, p, "ON UPDATE");
  }

  // ---------------------------------------------------------------------
  // What printed clauses say
  // ---------------------------------------------------------------------

  /** A keyword at the front of a text, or after its first blank. */
  lemma KeywordFirst(lead: string, kw: string, rest: string)
    requires kw != [] && kw[0] != ' ' && (lead == [] || lead == " ") && |lead + kw + rest| < NPOS
    ensures AfterKeyword(lead + kw + rest, kw) == Some(rest)
  {
    hide Find;
    var s := lead + kw + rest;
    assert s[|lead|..|lead| + |kw|] == kw;
    MatchHead(s, kw, 0);
    FindIs(s, kw, 0, |lead|);
    assert s[|lead| + |kw|..] == rest;
  }

  /** A printed action is named, and nothing but the character after it is skipped. */
  lemma WordNamed(act: Action, b: string)
    ensures Named(" " + Word(act) + b) == Number(Some(act))
    ensures Rest(" " + Word(act) + b) == Drop(b, 1)
  {
    var word := Word(act);
    var t := " " + word + b;
    assert t[1..] == word + b && (word + b)[0] == word[0] != ' ';
    assert Ink(t) == word + b;
    assert Drop(word + b, |word| + 1) == Drop(b, 1);
  }

  lemma ClauseShape(kw: string, word: string, b: string)
    ensures " " + kw + " " + word + b == " " + kw + (" " + word + b)
    ensures Drop(" " + kw + " " + word + b, 1) == [] + kw + (" " + word + b)
  {
  }

  /** A printed clause names its action, with or without the blank before it. */
  lemma ClauseNamed(kw: string, act: Action, b: string)
    requires kw != [] && kw[0] != ' ' && |Clause(kw, Some(act)) + b| < NPOS
    ensures AfterKeyword(Clause(kw, Some(act)) + b, kw) == Some(" " + Word(act) + b)
    ensures AfterKeyword(Drop(Clause(kw, Some(act)) + b, 1), kw) == Some(" " + Word(act) + b)
  {
    hide AfterKeyword, Word, Drop;
    var rest := " " + Word(act) + b;
    ClauseShape(kw, Word(act), b);
    KeywordFirst(" ", kw, rest);
    KeywordFirst([], kw, rest);
  }

  lemma WordO(act: Action, i: nat)
    requires i < |Word(act)| && Word(act)[i] == 'O'
    ensures act == NoAction && (i == 1 || i == 7)
  {
  }

  /** Where a printed ON UPDATE clause has the letter O. */
  lemma LetterO(act: Action, j: nat)
    requires j < |Clause("ON UPDATE", Some(act))| && Clause("ON UPDATE", Some(act))[j] == 'O'
    ensures j == 1 || (act == NoAction && (j == 12 || j == 18))
  {
    hide Word;
    if j >= 11 {
      WordO(act, j - 11);
    }
  }

  /** Which occurrences of ON DELETE a printed ON UPDATE clause can be part of. */
  lemma DeleteInUpdate(act: Action, suffix: string, j: nat)
    requires j < |Clause("ON UPDATE", Some(act))|
    ensures Matches(Clause("ON UPDATE", Some(act)) + suffix, "ON DELETE", j)
            <==> act == NoAction && j == 18 && " DELETE" <= suffix
  {
    var c := Clause("ON UPDATE", Some(act));
    var s := c + suffix;
    assert s[4] == 'U';
    if act == NoAction {
      assert c == " ON UPDATE NO ACTION";
      if |s| >= 27 {
        assert s[18..27] == "ON" + suffix[..7];
        assert "ON DELETE" == "ON" + " DELETE";
        assert s[18..27][2..] == suffix[..7];
      }
    }
    if Matches(s, "ON DELETE", j) {
      var t := s[j..j + 9];
      assert t[0] == 'O' && t[1] == 'N' && t[3] == 'D';
      assert s[j] == t[0] && s[j + 1] == t[1] && s[j + 3] == t[3];
      LetterO(act, j);
    }
  }

  lemma {:induction false} FindSkip(s: string, pat: string, a: nat, b: nat)
    requires pat != [] && a <= b <= |s| && forall j: nat | a <= j < b :: !Matches(s, pat, j)
    ensures Find(s, pat, a) == Find(s, pat, b)
    decreases b - a
  {
    if a == b {
    } else {
      assert !Matches(s, pat, a);
      FindSkip(s, pat, a + 1, b);
    }
  }

  /**
    What is read after ON DELETE when only ON UPDATE was printed. The clause
    ON UPDATE NO ACTION ends in ON: before a text that starts with DELETE it
    holds the keyword itself.
    */
  function DeleteText(upd: Option<Action>, suffix: string): Option<string> {
    if upd == Some(NoAction) && " DELETE" <= suffix then Some(suffix[7..]) else AfterKeyword(suffix, "ON DELETE")
  }

  lemma DeleteAfterUpdate(act: Action, suffix: string)
    requires |Clause("ON UPDATE", Some(act)) + suffix| < NPOS
    ensures AfterKeyword(Clause("ON UPDATE", Some(act)) + suffix, "ON DELETE") == DeleteText(Some(act), suffix)
  {
    hide Find, Matches;
    var c, kw := Clause("ON UPDATE", Some(act)), "ON DELETE";
    var s := c + suffix;
    forall j: nat | j < |c| ensures Matches(s, kw, j) <==> act == NoAction && j == 18 && " DELETE" <= suffix {
      DeleteInUpdate(act, suffix, j);
    }
    if act == NoAction && " DELETE" <= suffix {
      assert |c| == 20 && Matches(s, kw, 18);
      FindIs(s, kw, 0, 18);
      assert s[18 + |kw|..] == suffix[7..];
    } else {
      FindSkip(s, kw, 0, |c|);
      FindAfter(c, suffix, kw, 0);
      FindBounds(suffix, kw, 0);
      var i := Find(suffix, kw, 0);
      assert i != NPOS ==> s[|c| + i + |kw|..] == suffix[i + |kw|..];
    }
  }

  // ---------------------------------------------------------------------
  // Reading back the clauses of a key, whatever follows it
  // ---------------------------------------------------------------------

  /** The actions that are read for a key with these clauses. */
  function ReadBack(del: Option<Action>, upd: Option<Action>, suffix: string): (int, int) {
    if del.Some? then
      (Number(del), if upd.Some? then Number(upd) else FirstNamed(Drop(suffix, 1), "ON UPDATE"))
    else match DeleteText(upd, suffix)
      case None => (NO_ACTION, if upd.Some? then Number(upd) else FirstNamed(suffix, "ON UPDATE"))
      case Some(t) => (Named(t), FirstNamed(Rest(t), "ON UPDATE"))
  }

  predicate NamesAction(t: string) {
    Ink(t) != [] && Ink(t)[0] in {'R', 'C', 'S'}
  }

  /** The first occurrence of the keyword in a later text names an action. */
  predicate Borrows(t: string, kw: string)
    requires kw != []
  {
    AfterKeyword(t, kw).Some? && NamesAction(AfterKeyword(t, kw).value)
  }

  /**
    When a key gets an action that is not its own: a missing clause is taken
    from the text after the key, and once ON DELETE is found there, the key's
    own ON UPDATE is passed over.
    */
  predicate Misread(del: Option<Action>, upd: Option<Action>, suffix: string) {
    if del.Some? then upd.None? && Borrows(Drop(suffix, 1), "ON UPDATE")
    else match DeleteText(upd, suffix)
      case None => upd.None? && Borrows(suffix, "ON UPDATE")
      case Some(t) => NamesAction(t) || FirstNamed(Rest(t), "ON UPDATE") != Number(upd)
  }

  lemma ReadBackIff(del: Option<Action>, upd: Option<Action>, suffix: string)
    ensures ReadBack(del, upd, suffix) == (Number(del), Number(upd)) <==> !Misread(del, upd, suffix)
  {
    hide AfterKeyword, Ink, Rest;
  }

  /** Both actions, for every text after the key: what is read, and exactly when it is right. */
  lemma RulesPrinted(del: Option<Action>, upd: Option<Action>, suffix: string)
    requires |Clause("ON DELETE", del) + Clause("ON UPDATE", upd) + suffix| < NPOS
    ensures var s := Clause("ON DELETE", del) + Clause("ON UPDATE", upd) + suffix;
      && Rules(s, 0) == Some(ReadBack(del, upd, suffix))
      && (Rules(s, 0) == Some((Number(del), Number(upd))) <==> !Misread(del, upd, suffix))
  {
    ReadBackIff(del, upd, suffix);
    ClausesNamed(del, upd, suffix);
    hide Rules, Clause, BothNamed, ReadBack, Misread;
    RulesRead(Clause("ON DELETE", del) + Clause("ON UPDATE", upd) + suffix);
  }

  lemma ClausesNamed(del: Option<Action>, upd: Option<Action>, suffix: string)
    requires |Clause("ON DELETE", del) + Clause("ON UPDATE", upd) + suffix| < NPOS
    ensures BothNamed(Clause("ON DELETE", del) + Clause("ON UPDATE", upd) + suffix) == ReadBack(del, upd, suffix)
  {
    NoClause("ON DELETE");
    NoClause("ON UPDATE");
    hide Clause, AfterKeyword, Named, Rest, Number, Drop;
    var rest := Clause("ON UPDATE", upd) + suffix;
    var s := Clause("ON DELETE", del) + Clause("ON UPDATE", upd) + suffix;
    assert s == Clause("ON DELETE", del) + rest;
    if upd.Some? {
      ClauseNamed("ON UPDATE", upd.value, suffix);
      WordNamed(upd.value, suffix);
    } else {
      assert rest == suffix;
    }
    if del.Some? {
      ClauseNamed("ON DELETE", del.value, rest);
      WordNamed(del.value, rest);
    } else {
      assert s == rest;
      if upd.Some? {
        DeleteAfterUpdate(upd.value, suffix);
      }
    }
  }

  lemma NoClause(kw: string)
    ensures Clause(kw, None) == [] && Number(None) == NO_ACTION
  {
  }

  // ---------------------------------------------------------------------
  // Texts that are safe, and texts that are not
  // ---------------------------------------------------------------------

  /** A key with both clauses is read right whatever follows; so is one before a text without the keywords. */
  lemma SafeSuffix(del: Option<Action>, upd: Option<Action>, suffix: string)
    requires |suffix| < NPOS
    requires (del.Some? && upd.Some?) ||
             (Lacks(suffix, "ON DELETE") && Lacks(suffix, "ON UPDATE") && !(upd == Some(NoAction) && " DELETE" <= suffix))
    ensures !Misread(del, upd, suffix)
  {
    if !(del.Some? && upd.Some?) {
      LacksAfter(suffix, "ON DELETE");
      LacksAfter(suffix, "ON UPDATE");
    }
    hide AfterKeyword, Drop, NamesAction;
  }

  lemma LacksAfter(s: string, kw: string)
    requires kw != [] && |s| < NPOS && Lacks(s, kw)
    ensures AfterKeyword(s, kw) == None && AfterKeyword(Drop(s, 1), kw) == None
  {
    hide Find;
    FindNone(s, kw, 0);
    var t := Drop(s, 1);
    forall j: nat ensures !Matches(t, kw, j) {
      assert j + 1 < |s| ==> !Matches(s, kw, j + 1);
      assert j + |kw| <= |t| ==> t[j..j + |kw|] == s[j + 1..j + 1 + |kw|];
    }
    FindNone(t, kw, 0);
  }

  /**
    ON UPDATE NO ACTION before DELETE is taken for an ON DELETE clause.
    */
  lemma RulesMisled(suffix: string)
    requires |Clause("ON UPDATE", Some(NoAction)) + suffix| < NPOS && " DELETE" <= suffix
    ensures Rules(Clause("ON UPDATE", Some(NoAction)) + suffix, 0) ==
            Some((Named(suffix[7..]), FirstNamed(Rest(suffix[7..]), "ON UPDATE")))
    ensures NamesAction(suffix[7..]) ==> Misread(None, Some(NoAction), suffix)
  {
    NoClause("ON DELETE");
    hide Clause, Rules, Named, FirstNamed, NamesAction;
    assert Clause("ON DELETE", None) + Clause("ON UPDATE", Some(NoAction)) + suffix
        == Clause("ON UPDATE", Some(NoAction)) + suffix;
    RulesPrinted(None, Some(NoAction), suffix);
  }

  /** The first ON DELETE of a later key: no overlap with the text before it makes another one. */
  lemma LaterDelete(mid: string, rest: string)
    requires Lacks(mid, "ON DELETE") && |mid + (" " + "ON DELETE") + rest| < NPOS
    ensures AfterKeyword(mid + (" " + "ON DELETE") + rest, "ON DELETE") == Some(rest)
  {
    hide Find;
    var kw := "ON DELETE";
    var s := mid + (" " + kw) + rest;
    var at := |mid| + 1;
    assert s[at..at + |kw|] == kw;
    assert s[|mid|] == ' ' && s[at] == 'O';
    forall j: nat | j < at ensures !Matches(s, kw, j) {
      if j + |kw| <= |mid| {
        assert !Matches(mid, kw, j);
        assert s[j..j + |kw|] == mid[j..j + |kw|];
      } else if j + |kw| <= |s| {
        var m := |mid| - j;
        assert s[j..j + |kw|][m] == ' ';
        assert m == 2 ==> s[j..j + |kw|][3] == 'O';
        BlankInKeyword(m);
      }
    }
    FindIs(s, kw, 0, at);
    assert s[at + |kw|..] == rest;
  }

  lemma BlankInKeyword(m: nat)
    requires m < |"ON DELETE"|
    ensures "ON DELETE"[m] == ' ' <==> m == 2
  {
  }

  lemma LaterShape(mid: string, kw: string, word: string, rest: string)
    ensures mid + (" " + kw + " " + word) + rest == mid + (" " + kw) + (" " + word + rest)
  {
  }

  /**
    A table with two keys: the first has ON UPDATE only, a later one has ON
    DELETE. The first key is given the later key's action and loses its own.
    */
  lemma LaterKeyMisleads(upd: Action, mid: string, del: Action, rest: string)
    requires upd != NoAction && Lacks(mid, "ON DELETE")
    requires |Clause("ON UPDATE", Some(upd)) + (mid + Clause("ON DELETE", Some(del)) + rest)| < NPOS
    ensures var suffix := mid + Clause("ON DELETE", Some(del)) + rest;
      && ReadBack(None, Some(upd), suffix) == (Number(Some(del)), FirstNamed(Drop(rest, 1), "ON UPDATE"))
      && (Misread(None, Some(upd), suffix)
          <==> del != NoAction || FirstNamed(Drop(rest, 1), "ON UPDATE") != Number(Some(upd)))
  {
    hide AfterKeyword, Word, Named, Rest, Drop;
    var suffix := mid + Clause("ON DELETE", Some(del)) + rest;
    var after := " " + Word(del) + rest;
    LaterShape(mid, "ON DELETE", Word(del), rest);
    assert suffix == mid + (" " + "ON DELETE") + after;
    WordNamed(del, rest);
    hide Clause;
    LaterDelete(mid, after);
    ReadBackIff(None, Some(upd), suffix);
  }
}
