/** std::string as the metadata code uses it: searching, indexing and cutting with 64-bit positions. */
module SqlText {
  import opened Basics

  const NPOS := WORD64 - 1

  predicate Matches(s: string, pat: string, i: nat) {
    i + |pat| <= |s| && s[i..i + |pat|] == pat
  }

  predicate Lacks(s: string, pat: string) {
    forall i: nat | i < |s| :: !Matches(s, pat, i)
  }

  /** s.find(pat, pos) */
  function Find(s: string, pat: string, pos: nat): nat
    decreases |s| - pos
  {
    if pos + |pat| > |s| then NPOS
    else if s[pos..pos + |pat|] == pat then pos
    else if pos == |s| then NPOS
    else Find(s, pat, pos + 1)
  }

  /** s[pos]: the terminator may be read, nothing after it. */
  function Get(s: string, pos: nat): Option<char> {
    if pos < |s| then Some(s[pos]) else if pos == |s| then Some('\0') else None
  }

  /** s.substr(pos, n), which throws when pos is past the end */
  function Substr(s: string, pos: nat, n: nat): Option<string> {
    if pos > |s| then None
    else if pos + n > |s| then Some(s[pos..]) else Some(s[pos..pos + n])
  }

  /** while (s[pos] != c) ++pos; */
  function ScanTo(s: string, pos: nat, c: char): Option<nat>
    decreases |s| + 1 - pos
  {
    match Get(s, pos)
    case None => None
    case Some(x) => if x == c then Some(pos) else ScanTo(s, pos + 1, c)
  }

  /** while (s[pos] == ' ') ++pos; */
  function SkipBlanks(s: string, pos: nat): Option<nat>
    decreases |s| + 1 - pos
  {
    match Get(s, pos)
    case None => None
    case Some(x) => if x != ' ' then Some(pos) else SkipBlanks(s, pos + 1)
  }

  // ---------------------------------------------------------------------
  // What the search finds
  // ---------------------------------------------------------------------

  /** The search finds the first match, or NPOS if there is none. */
  lemma {:induction false} FindFirst(s: string, pat: string, pos: nat)
    requires pat != [] && |s| < NPOS
    ensures Find(s, pat, pos) == NPOS || (pos <= Find(s, pat, pos) && Matches(s, pat, Find(s, pat, pos)))
    ensures forall i: nat | pos <= i < Find(s, pat, pos) :: !Matches(s, pat, i)
    decreases |s| - pos
  {
    if pos + |pat| > |s| || s[pos..pos + |pat|] == pat {
    } else {
      FindFirst(s, pat, pos + 1);
    }
  }

  lemma FindIs(s: string, pat: string, pos: nat, i: nat)
    requires pat != [] && |s| < NPOS && pos <= i && Matches(s, pat, i)
    requires forall j: nat | pos <= j < i :: !Matches(s, pat, j)
    ensures Find(s, pat, pos) == i
  {
    FindFirst(s, pat, pos);
  }

  /** A search from the start fails exactly when there is nothing to find. */
  lemma FindsIff(s: string, pat: string)
    requires pat != [] && |s| < NPOS
    ensures Find(s, pat, 0) == NPOS <==> Lacks(s, pat)
  {
    hide Find;
    FindFirst(s, pat, 0);
    if Find(s, pat, 0) != NPOS {
      assert Matches(s, pat, Find(s, pat, 0));
    }
  }

  lemma FindNone(s: string, pat: string, pos: nat)
    requires pat != [] && |s| < NPOS
    requires forall j: nat | pos <= j :: !Matches(s, pat, j)
    ensures Find(s, pat, pos) == NPOS
  {
    FindFirst(s, pat, pos);
  }

  /** Only what lies at and after the starting position matters. */
  lemma FindAfter(a: string, b: string, pat: string, k: nat)
    requires pat != [] && |a + b| < NPOS
    ensures Find(a + b, pat, |a| + k) == (if Find(b, pat, k) == NPOS then NPOS else |a| + Find(b, pat, k))
    decreases |b| - k
  {
    if k + |pat| <= |b| {
      assert (a + b)[|a| + k..|a| + k + |pat|] == b[k..k + |pat|];
      if b[k..k + |pat|] != pat {
        FindAfter(a, b, pat, k + 1);
        assert |a| + (k + 1) == |a| + k + 1;
      }
    }
  }

  lemma GetAfter(a: string, b: string, k: nat)
    ensures Get(a + b, |a| + k) == Get(b, k)
  {
  }

  lemma {:induction false} SkipBlanksAfter(a: string, b: string, k: nat)
    ensures SkipBlanks(a + b, |a| + k) ==
            match SkipBlanks(b, k) { case None => None case Some(p) => Some(|a| + p) }
    decreases |b| + 1 - k
  {
    GetAfter(a, b, k);
    if Get(b, k) != Some(' ') {
    } else {
      SkipBlanksAfter(a, b, k + 1);
      assert |a| + (k + 1) == |a| + k + 1;
    }
  }

  lemma MatchHead(s: string, pat: string, i: nat)
    requires pat != []
    ensures Matches(s, pat, i) ==> i < |s| && s[i] == pat[0]
  {
    assert Matches(s, pat, i) ==> s[i..i + |pat|][0] == s[i];
  }
}
