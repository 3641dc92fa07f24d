/** The comma-separated privilege lists of the server, cut into tokens. */
module Privileges {
  import opened Basics
  import opened SqlText

  // ---------------------------------------------------------------------
  // What the tokens are
  // ---------------------------------------------------------------------

  /** The first comma, or the end. */
  function NextComma(s: string): (i: nat)
    ensures i <= |s| && ',' !in s[..i] && (i < |s| ==> s[i] == ',')
  {
    if s == [] || s[0] == ',' then 0
    else
      var i := NextComma(s[1..]);
      assert s[..i + 1] == [s[0]] + s[1..][..i];
      i + 1
  }

  function Split(s: string): seq<string> {
    var i := NextComma(s);
    if i == |s| then [s] else [s[..i]] + Split(s[i + 1..])
  }

  function TrimLeft(s: string): string {
    if s != [] && s[0] == ' ' then TrimLeft(s[1..]) else s
  }

  function TrimAll(parts: seq<string>): seq<string> {
    if parts == [] then [] else [TrimLeft(parts[0])] + TrimAll(parts[1..])
  }

  /** The reference: split at every comma, then drop the leading blanks of each part. */
  function Tokens(s: string): seq<string> {
    TrimAll(Split(s))
  }

  /** getTablePrivileges leaves out the tokens with a slash. */
  function Unslashed(tokens: seq<string>): seq<string> {
    if tokens == [] then []
    else
      var token := tokens[|tokens| - 1];
      Unslashed(tokens[..|tokens| - 1]) + if '/' in token then [] else [token]
  }

  lemma UnslashedOne(all: seq<string>, token: string)
    ensures Unslashed([]) == []
    ensures Unslashed(all + [token]) == Unslashed(all) + if '/' in token then [] else [token]
  {
    assert (all + [token])[..|all|] == all;
  }

  /** It keeps the order of the tokens, and treats each by itself. */
  lemma {:induction false} UnslashedConcat(a: seq<string>, b: seq<string>)
    ensures Unslashed(a + b) == Unslashed(a) + Unslashed(b)
  {
    hide Unslashed;
    UnslashedOne([], "");
    if b == [] {
      assert a + b == a;
    } else {
      var front, last := b[..|b| - 1], b[|b| - 1];
      UnslashedConcat(a, front);
      UnslashedOne(a + front, last);
      UnslashedOne(front, last);
      assert a + b == a + front + [last] && b == front + [last];
    }
  }

  /** It keeps exactly the tokens without a slash, each as often as it occurs. */
  lemma {:induction false} UnslashedCount(tokens: seq<string>, t: string)
    ensures multiset(Unslashed(tokens))[t] == if '/' in t then 0 else multiset(tokens)[t]
  {
    hide Unslashed;
    UnslashedOne([], "");
    if tokens == [] {
    } else {
      var front, last := tokens[..|tokens| - 1], tokens[|tokens| - 1];
      UnslashedCount(front, t);
      UnslashedOne(front, last);
      assert tokens == front + [last];
      assert multiset(tokens) == multiset(front) + multiset{last};
    }
  }

  // ---------------------------------------------------------------------
  // One round of the loop
  // ---------------------------------------------------------------------

  lemma {:induction false} TrimIs(s: string, k: nat)
    requires k <= |s| && (forall i | 0 <= i < k :: s[i] == ' ') && (k < |s| ==> s[k] != ' ')
    ensures TrimLeft(s) == s[k..]
  {
    if k == 0 {
    } else {
      TrimIs(s[1..], k - 1);
    }
  }

  lemma {:induction false} SkipFinds(s: string, pos: nat)
    requires pos <= |s|
    ensures var p := SkipBlanks(s, pos);
      && p.Some? && pos <= p.value <= |s| && (p.value < |s| ==> s[p.value] != ' ')
      && forall i | pos <= i < p.value :: s[i] == ' '
    decreases |s| - pos
  {
    if pos == |s| || s[pos] != ' ' {
    } else {
      SkipFinds(s, pos + 1);
    }
  }

  lemma {:induction false} CommaIs(s: string, i: nat)
    requires i <= |s| && ',' !in s[..i] && (i < |s| ==> s[i] == ',')
    ensures NextComma(s) == i
  {
    if i == 0 {
    } else {
      assert s[0] == s[..i][0];
      assert s[1..][..i - 1] == s[..i][1..];
      CommaIs(s[1..], i - 1);
    }
  }

  lemma FindsComma(s: string, p: nat)
    requires p <= |s| < NPOS
    ensures var idx := Find(s, ",", p);
      && (idx == NPOS ==> ',' !in s[p..])
      && (idx != NPOS ==> p <= idx < |s| && s[idx] == ',' && ',' !in s[p..idx])
  {
    hide Find;
    FindFirst(s, ",", p);
    forall i: nat | p <= i < |s| ensures Matches(s, ",", i) <==> s[i] == ',' {
      assert s[i..i + 1] == [s[i]];
    }
    hide Matches;
  }

  lemma TrimAllCons(x: string, rest: seq<string>)
    ensures TrimAll([x]) == [TrimLeft(x)]
    ensures TrimAll([x] + rest) == [TrimLeft(x)] + TrimAll(rest)
  {
    hide TrimLeft;
    assert [x][1..] == [] && ([x] + rest)[1..] == rest;
  }

  /** The first token, and the tokens after its comma. */
  lemma TokensHead(s: string)
    ensures var i := NextComma(s);
      Tokens(s) == if i == |s| then [TrimLeft(s)] else [TrimLeft(s[..i])] + Tokens(s[i + 1..])
  {
    hide TrimLeft, NextComma, TrimAll;
    var i := NextComma(s);
    TrimAllCons(s, []);
    if i < |s| {
      TrimAllCons(s[..i], Split(s[i + 1..]));
    }
  }

  lemma TokensStep(s: string, pos: nat)
    requires pos <= |s| < NPOS
    ensures SkipBlanks(s, pos).Some?
    ensures var p := SkipBlanks(s, pos).value;
      var idx := Find(s, ",", p);
      && p <= |s|
      && if idx == NPOS then Tokens(s[pos..]) == [s[p..]]
         else p <= idx < |s| && Tokens(s[pos..]) == [s[p..idx]] + Tokens(s[idx + 1..])
  {
    hide Find, SkipBlanks, TrimLeft, Tokens, NextComma;
    SkipFinds(s, pos);
    var p := SkipBlanks(s, pos).value;
    FindsComma(s, p);
    var found := Find(s, ",", p);
    var idx := if found == NPOS then |s| else found;
    CutBlanks(s, pos, p, idx);
    TokensHead(s[pos..]);
    assert s[pos..][..idx - pos] == s[pos..idx];
    if found == NPOS {
      assert s[pos..idx] == s[pos..] && s[p..idx] == s[p..];
    } else {
      assert s[pos..][idx - pos + 1..] == s[idx + 1..];
    }
  }

  lemma CutBlanks(s: string, pos: nat, p: nat, idx: nat)
    requires pos <= p <= idx <= |s| && (forall i | pos <= i < p :: s[i] == ' ') && (p < idx ==> s[p] != ' ')
    requires ',' !in s[p..idx] && (idx < |s| ==> s[idx] == ',')
    ensures NextComma(s[pos..]) == idx - pos && TrimLeft(s[pos..idx]) == s[p..idx]
  {
    hide TrimLeft, NextComma;
    var rest, first := s[pos..], s[pos..idx];
    assert rest[..idx - pos] == s[pos..p] + s[p..idx];
    assert idx < |s| ==> rest[idx - pos] == s[idx];
    CommaIs(rest, idx - pos);
    assert forall i | 0 <= i < p - pos :: first[i] == s[pos + i];
    assert p < idx ==> first[p - pos] == s[p];
    TrimIs(first, p - pos);
    assert first[p - pos..] == s[p..idx];
  }

  /** The loop of getColumnPrivileges, and with the filter that of getTablePrivileges. */
  method Tokenise(privs: string, dropSlashed: bool) returns (tokens: seq<string>)
    requires |privs| < NPOS
    ensures tokens == if dropSlashed then Unslashed(Tokens(privs)) else Tokens(privs)
  {
    hide Find, Tokens, Unslashed, SkipBlanks, Get;
    tokens := [];
    ghost var all := [];
    NothingYet();
    assert privs[0..] == privs;
    var pos := 0;
    while true
      invariant pos <= |privs| && Tokens(privs) == all + Tokens(privs[pos..])
      invariant tokens == if dropSlashed then Unslashed(all) else all
      decreases |privs| - pos
    {
      ghost var start := pos;
      TokensStep(privs, start);
      pos := EatBlanks(privs, pos);
      var idx := Find(privs, ",", pos);
      var token := if idx != NPOS then privs[pos..idx] else privs[pos..];
      UnslashedOne(all, token);
      if !dropSlashed || '/' !in token {
        tokens := tokens + [token];
      }
      ghost var before := all;
      all := all + [token];
      if idx == NPOS {
        return;
      }
      assert before + ([token] + Tokens(privs[idx + 1..])) == all + Tokens(privs[idx + 1..]);
      pos := idx + 1;
    }
  }

  method EatBlanks(s: string, start: nat) returns (pos: nat)
    requires start <= |s|
    ensures SkipBlanks(s, start) == Some(pos) && pos >= start
  {
    SkipFinds(s, start);
    pos := start;
    while Get(s, pos) == Some(' ')
      invariant start <= pos <= |s| && SkipBlanks(s, start) == SkipBlanks(s, pos)
      decreases |s| - pos
    {
      pos := pos + 1;
    }
  }

  lemma NothingYet()
    ensures Unslashed([]) == []
  {
  }

  // ---------------------------------------------------------------------
  // Laws of the reference
  // ---------------------------------------------------------------------

  /** One token more than there are commas, on every string. */
  lemma {:induction false} TokenCount(s: string)
    ensures |Tokens(s)| == multiset(s)[','] + 1
    decreases |s|
  {
    TokensHead(s);
    hide Tokens, TrimLeft;
    var i := NextComma(s);
    hide NextComma;
    if i == |s| {
      assert s[..i] == s;
    } else {
      TokenCount(s[i + 1..]);
      assert s == s[..i] + [','] + s[i + 1..];
      assert multiset(s) == multiset(s[..i]) + multiset{','} + multiset(s[i + 1..]);
    }
  }

  predicate Clean(token: string) {
    ',' !in token && (token == [] || token[0] != ' ')
  }

  lemma {:induction false} TrimCleans(s: string)
    requires ',' !in s
    ensures Clean(TrimLeft(s))
  {
    if s == [] || s[0] != ' ' {
    } else {
      TrimCleans(s[1..]);
    }
  }

  /** No token has a comma or a leading blank. */
  lemma {:induction false} TokensAreClean(s: string)
    ensures forall t | t in Tokens(s) :: Clean(t)
    decreases |s|
  {
    var i := NextComma(s);
    TokensHead(s);
    hide Tokens, TrimLeft, Clean;
    assert s[..|s|] == s;
    TrimCleans(s[..i]);
    if i == |s| {
    } else {
      TokensAreClean(s[i + 1..]);
    }
  }

  function Blanks(n: nat): string {
    seq(n, _ => ' ')
  }

  /** The tokens with commas between them and any number of blanks before each. */
  function Join(tokens: seq<string>, blanks: seq<nat>): string
    requires |tokens| == |blanks| > 0
  {
    Blanks(blanks[0]) + tokens[0] +
    if |tokens| == 1 then [] else "," + Join(tokens[1..], blanks[1..])
  }

  /** A token with the blanks before it, which are trimmed off. */
  lemma Padded(n: nat, token: string)
    requires Clean(token)
    ensures ',' !in Blanks(n) + token && TrimLeft(Blanks(n) + token) == token
  {
    hide TrimLeft;
    var head := Blanks(n) + token;
    assert token != [] ==> head[n] == token[0];
    TrimIs(head, n);
    assert head[n..] == token;
  }

  lemma LastToken(n: nat, token: string)
    requires Clean(token)
    ensures Tokens(Blanks(n) + token) == [token]
  {
    hide Tokens, TrimLeft, NextComma, Clean;
    var s := Blanks(n) + token;
    Padded(n, token);
    assert s[..|s|] == s;
    CommaIs(s, |s|);
    TokensHead(s);
  }

  lemma FirstToken(n: nat, token: string, rest: string)
    requires Clean(token)
    ensures Tokens(Blanks(n) + token + ("," + rest)) == [token] + Tokens(rest)
  {
    hide Tokens, TrimLeft, NextComma, Clean;
    var head := Blanks(n) + token;
    var s := head + ("," + rest);
    Padded(n, token);
    assert s[..|head|] == head && s[|head|] == ',' && s[|head| + 1..] == rest;
    CommaIs(s, |head|);
    TokensHead(s);
  }

  lemma {:induction false} TokensOfJoin(tokens: seq<string>, blanks: seq<nat>)
    requires |tokens| == |blanks| > 0 && forall t | t in tokens :: Clean(t)
    ensures Tokens(Join(tokens, blanks)) == tokens
  {
    hide Tokens, TrimLeft, Clean;
    assert Clean(tokens[0]);
    if |tokens| == 1 {
      LastToken(blanks[0], tokens[0]);
      assert Blanks(blanks[0]) + tokens[0] + [] == Blanks(blanks[0]) + tokens[0];
    } else {
      TokensOfJoin(tokens[1..], blanks[1..]);
      FirstToken(blanks[0], tokens[0], Join(tokens[1..], blanks[1..]));
      assert tokens == [tokens[0]] + tokens[1..];
    }
  }

  /** Tokenising undoes joining exactly for tokens that have no comma and no leading blank. */
  lemma TokensInvertJoinIff(tokens: seq<string>, blanks: seq<nat>)
    requires |tokens| == |blanks| > 0
    ensures Tokens(Join(tokens, blanks)) == tokens <==> forall t | t in tokens :: Clean(t)
  {
    TokensAreClean(Join(tokens, blanks));
    if forall t | t in tokens :: Clean(t) {
      TokensOfJoin(tokens, blanks);
    }
  }
}
