/** Upper-casing of UTF-8 strings: cppmysql_caseup_utf8 and utf8_strup. */
module CaseFold {
  import opened Utf8
  import opened CaseTable
  import opened LowerTable

  // ---------------------------------------------------------------------
  // Strings of characters
  // ---------------------------------------------------------------------

  /** The characters of s up to the first place where none can be decoded. */
  function DecodeAll(s: seq<Byte>): seq<Code>
    decreases |s|
  {
    match DecodeOne(s)
    case Char(w, len) => EncodeDecode(s); [w] + DecodeAll(s[len..])
    case _ => []
  }

  function EncodeAll(ws: seq<Code>): seq<Byte> {
    if ws == [] then [] else EncodeOne(ws[0]) + EncodeAll(ws[1..])
  }

  function UpperAll(ws: seq<Code>): seq<Code> {
    if ws == [] then [] else [Upper(ws[0])] + UpperAll(ws[1..])
  }

  /** What upper-casing means: decode the longest valid prefix, map it, encode it. */
  function CaseUp(s: seq<Byte>): seq<Byte> {
    EncodeAll(UpperAll(DecodeAll(s)))
  }

  predicate WellFormed(s: seq<Byte>) {
    EncodeAll(DecodeAll(s)) == s
  }

  lemma {:induction false} DecodeAllEncoded(ws: seq<Code>, rest: seq<Byte>)
    ensures DecodeAll(EncodeAll(ws) + rest) == ws + DecodeAll(rest)
  {
    hide DecodeOne, EncodeOne;
    if ws == [] {
      assert EncodeAll(ws) + rest == rest;
      assert ws + DecodeAll(rest) == DecodeAll(rest);
    } else {
      var one, more := EncodeOne(ws[0]), EncodeAll(ws[1..]) + rest;
      assert EncodeAll(ws) + rest == one + more;
      DecodeEncode(ws[0], more);
      assert (one + more)[|one|..] == more;
      DecodeAllEncoded(ws[1..], rest);
      assert [ws[0]] + (ws[1..] + DecodeAll(rest)) == ws + DecodeAll(rest);
    }
  }

  lemma {:induction false} EncodeAllDecoded(s: seq<Byte>)
    ensures EncodeAll(DecodeAll(s)) <= s
    ensures !DecodeOne(s[|EncodeAll(DecodeAll(s))|..]).Char?
    decreases |s|
  {
    hide EncodeOne;
    match DecodeOne(s) {
      case Char(w, len) =>
        EncodeDecode(s);
        hide DecodeOne;
        var rest := s[len..];
        EncodeAllDecoded(rest);
        var more := EncodeAll(DecodeAll(rest));
        assert ([w] + DecodeAll(rest))[1..] == DecodeAll(rest);
        assert EncodeAll(DecodeAll(s)) == s[..len] + more;
        assert s == s[..len] + rest;
        assert s[|s[..len] + more|..] == rest[|more|..];
      case _ => assert s[0..] == s;
    }
  }

  /** The decoded prefix is the longest: every encoded prefix of s is part of it. */
  lemma LongestValidPrefix(s: seq<Byte>, ws: seq<Code>)
    requires EncodeAll(ws) <= s
    ensures ws <= DecodeAll(s) && |EncodeAll(ws)| <= |EncodeAll(DecodeAll(s))|
  {
    var rest := s[|EncodeAll(ws)|..];
    assert EncodeAll(ws) + rest == s;
    DecodeAllEncoded(ws, rest);
    EncodeAllConcat(ws, DecodeAll(rest));
  }

  lemma EncodeAllHead(ws: seq<Code>)
    requires ws != []
    ensures EncodeAll(ws) == EncodeOne(ws[0]) + EncodeAll(ws[1..])
  {
  }

  lemma Associative(x: seq<Byte>, y: seq<Byte>, z: seq<Byte>)
    ensures x + (y + z) == x + y + z
  {
  }

  lemma {:induction false} EncodeAllConcat(a: seq<Code>, b: seq<Code>)
    ensures EncodeAll(a + b) == EncodeAll(a) + EncodeAll(b)
  {
    if a == [] {
      assert a + b == b;
    } else {
      hide *;
      assert (a + b)[0] == a[0] && (a + b)[1..] == a[1..] + b;
      EncodeAllHead(a + b);
      EncodeAllHead(a);
      EncodeAllConcat(a[1..], b);
      Associative(EncodeOne(a[0]), EncodeAll(a[1..]), EncodeAll(b));
    }
  }

  lemma UpperAllHead(ws: seq<Code>)
    requires ws != []
    ensures UpperAll(ws) == [Upper(ws[0])] + UpperAll(ws[1..])
  {
  }

  lemma {:induction false} UpperAllConcat(a: seq<Code>, b: seq<Code>)
    ensures UpperAll(a + b) == UpperAll(a) + UpperAll(b)
  {
    if a == [] {
      assert a + b == b;
    } else {
      hide *;
      assert (a + b)[0] == a[0] && (a + b)[1..] == a[1..] + b;
      UpperAllHead(a + b);
      UpperAllHead(a);
      UpperAllConcat(a[1..], b);
    }
  }

  lemma {:induction false} UpperAllTwice(ws: seq<Code>)
    ensures UpperAll(UpperAll(ws)) == UpperAll(ws)
  {
    hide Upper;
    if ws == [] {
    } else {
      UpperFacts(ws[0]);
      UpperAllTwice(ws[1..]);
      assert UpperAll(ws)[1..] == UpperAll(ws[1..]);
    }
  }

  /** Upper-casing is idempotent on every byte string, valid or not. */
  lemma CaseUpTwice(s: seq<Byte>)
    ensures CaseUp(CaseUp(s)) == CaseUp(s)
    ensures WellFormed(CaseUp(s))
  {
    var ws := UpperAll(DecodeAll(s));
    DecodeAllEncoded(ws, []);
    assert EncodeAll(ws) + [] == EncodeAll(ws) && DecodeAll([]) == [];
    assert DecodeAll(CaseUp(s)) == ws;
    UpperAllTwice(DecodeAll(s));
  }

  /** Upper-casing distributes over concatenation when the left part is valid. */
  lemma CaseUpConcat(s: seq<Byte>, t: seq<Byte>)
    requires WellFormed(s)
    ensures CaseUp(s + t) == CaseUp(s) + CaseUp(t)
  {
    DecodeAllEncoded(DecodeAll(s), t);
    UpperAllConcat(DecodeAll(s), DecodeAll(t));
    EncodeAllConcat(UpperAll(DecodeAll(s)), UpperAll(DecodeAll(t)));
  }

  lemma {:induction false} UpperAllLength(ws: seq<Code>)
    ensures |EncodeAll(UpperAll(ws))| <= |EncodeAll(ws)|
    ensures 0 in EncodeAll(UpperAll(ws)) ==> 0 in EncodeAll(ws)
  {
    if ws == [] {
    } else {
      UpperFacts(ws[0]);
      UpperAllLength(ws[1..]);
      hide Upper;
      assert UpperAll(ws)[1..] == UpperAll(ws[1..]);
      NulAlone(ws[0]);
      NulAlone(Upper(ws[0]));
    }
  }

  /** A zero octet occurs in the encoding of NUL only. */
  lemma NulAlone(w: Code)
    ensures 0 in EncodeOne(w) <==> w == 0
  {
    if 0x80 <= w < 0x800 {
      Split2(w);
    } else if 0x800 <= w {
      Split3(w);
    }
  }

  /** The result is never longer than the string, and holds no NUL unless the string does. */
  lemma CaseUpLength(s: seq<Byte>)
    ensures |CaseUp(s)| <= |s|
    ensures 0 !in s ==> 0 !in CaseUp(s)
  {
    EncodeAllDecoded(s);
    UpperAllLength(DecodeAll(s));
  }

  // ---------------------------------------------------------------------
  // The loop over a destination of limited room
  // ---------------------------------------------------------------------

  /** The characters that get written before the first one that does not fit. */
  function Fitting(ws: seq<Code>, room: nat): seq<Code> {
    if ws == [] || |EncodeOne(ws[0])| > room then []
    else [ws[0]] + Fitting(ws[1..], room - |EncodeOne(ws[0])|)
  }

  lemma {:induction false} AllFit(ws: seq<Code>, room: nat)
    requires |EncodeAll(ws)| <= room
    ensures Fitting(ws, room) == ws
  {
    if ws == [] {
    } else {
      AllFit(ws[1..], room - |EncodeOne(ws[0])|);
    }
  }

  /** With less room: the longest run of whole characters from the front that fits. */
  lemma {:induction false} FittingIsLongest(ws: seq<Code>, room: nat)
    ensures Fitting(ws, room) <= ws && |EncodeAll(Fitting(ws, room))| <= room
    ensures var k := |Fitting(ws, room)|;
      k < |ws| ==> |EncodeAll(Fitting(ws, room))| + |EncodeOne(ws[k])| > room
  {
    hide EncodeOne;
    if ws == [] || |EncodeOne(ws[0])| > room {
    } else {
      var rest := Fitting(ws[1..], room - |EncodeOne(ws[0])|);
      FittingIsLongest(ws[1..], room - |EncodeOne(ws[0])|);
      assert Fitting(ws, room) == [ws[0]] + rest;
      EncodeAllHead([ws[0]] + rest);
      assert ([ws[0]] + rest)[1..] == rest;
    }
  }

  /** With as much room as the source is long, the loop never runs out of it. */
  lemma RoomEnough(s: seq<Byte>, room: nat)
    requires room >= |s|
    ensures EncodeAll(Fitting(UpperAll(DecodeAll(s)), room)) == CaseUp(s)
  {
    CaseUpLength(s);
    AllFit(UpperAll(DecodeAll(s)), room);
  }

  /** What the loop still has to write when it stands at src[i] and dst[at]. */
  function Rest(src: seq<Byte>, i: nat, room: nat): seq<Byte>
    requires i <= |src|
  {
    EncodeAll(Fitting(UpperAll(DecodeAll(src[i..])), room))
  }

  lemma RestStep(src: seq<Byte>, i: nat, room: nat)
    requires i < |src| && DecodeOne(src[i..]).Char?
    ensures 0 < DecodeOne(src[i..]).len <= |src| - i
    ensures var Char(w, len) := DecodeOne(src[i..]);
      var octets := EncodeOne(Upper(w));
      Rest(src, i, room) ==
      if |octets| > room then [] else octets + Rest(src, i + len, room - |octets|)
  {
    hide Upper, EncodeOne;
    var Char(w, len) := DecodeOne(src[i..]);
    EncodeDecode(src[i..]);
    hide DecodeOne;
    assert src[i..][len..] == src[i + len..];
    var later := DecodeAll(src[i + len..]);
    assert DecodeAll(src[i..]) == [w] + later;
    assert ([w] + later)[1..] == later;
    var ups := UpperAll([w] + later);
    assert ups == [Upper(w)] + UpperAll(later);
    assert ups[1..] == UpperAll(later);
    if |EncodeOne(Upper(w))| <= room {
      var fit := Fitting(UpperAll(later), room - |EncodeOne(Upper(w))|);
      assert Fitting(ups, room) == [Upper(w)] + fit;
      assert ([Upper(w)] + fit)[1..] == fit;
    }
  }

  lemma RestEnd(src: seq<Byte>, i: nat, room: nat)
    requires i <= |src| && (i < |src| ==> !DecodeOne(src[i..]).Char?)
    ensures Rest(src, i, room) == []
  {
  }

  lemma EncodeSize(w: Code)
    ensures 1 <= |EncodeOne(w)| <= 3 && (w as bv32) < 0x10000 && (w as bv32) as Code == w
  {
  }

  /** cppmysql_caseup_utf8, for a destination of any size */
  method CaseUpUtf8(src: seq<Byte>, dst: array<Byte>, dstlen: nat) returns (n: nat)
    requires dstlen <= dst.Length
    modifies dst
    ensures n <= dstlen
    ensures dst[..n] == EncodeAll(Fitting(UpperAll(DecodeAll(src)), dstlen))
    ensures dst[n..] == old(dst[n..])
    ensures dstlen >= |src| ==> dst[..n] == CaseUp(src)
  {
    if dstlen >= |src| {
      RoomEnough(src, dstlen);
    }
    hide EncodeAll, Fitting, UpperAll, DecodeAll;
    ghost var was := dst[..];
    n := FoldLoop(src, dst, dstlen);
    assert src[0..] == src;
    assert dst[..n] == dst[..][..n] && dst[n..] == dst[..][n..] && was[n..] == old(dst[n..]);
  }

  /** One character written behind the n bytes there are. */
  lemma Written(was: seq<Byte>, before: seq<Byte>, after: seq<Byte>, n: nat, octets: seq<Byte>, rest: seq<Byte>, goal: seq<Byte>)
    requires |was| == |before| && n + |octets| <= |before|
    requires after == before[..n] + octets + before[n + |octets|..]
    requires before[n..] == was[n..] && goal == before[..n] + (octets + rest)
    ensures goal == after[..n + |octets|] + rest && after[n + |octets|..] == was[n + |octets|..]
  {
    var k := n + |octets|;
    assert after[..k] == before[..n] + octets;
    assert after[k..] == before[k..];
    assert before[k..] == before[n..][|octets|..] && was[k..] == was[n..][|octets|..];
  }

  /** my_uni_utf8 on a character of the table. */
  method PutChar(w: Code, dst: array<Byte>, n: nat, dstlen: nat) returns (res: int)
    requires n <= dstlen <= dst.Length
    modifies dst
    ensures res > 0 ==>
              && res == |EncodeOne(w)| <= dstlen - n
              && dst[..] == old(dst[..])[..n] + EncodeOne(w) + old(dst[..])[n + |EncodeOne(w)|..]
    ensures res <= 0 ==> |EncodeOne(w)| > dstlen - n && dst[..] == old(dst[..])
  {
    EncodeSize(w);
    hide EncodeOne;
    res := UniUtf8(w as bv32, dst, n, dstlen);
  }

  /** One round of the loop; the result is positive if a character was written. */
  method FoldOne(src: seq<Byte>, dst: array<Byte>, dstlen: nat, i: nat, n: nat, ghost was: seq<Byte>, ghost goal: seq<Byte>)
    returns (len: nat, res: int)
    requires i < |src| && n <= dstlen <= dst.Length == |was|
    requires goal == dst[..][..n] + Rest(src, i, dstlen - n) && dst[..][n..] == was[n..]
    modifies dst
    ensures res > 0 ==>
              && 0 < len <= |src| - i && n + res <= dstlen
              && goal == dst[..][..n + res] + Rest(src, i + len, dstlen - n - res)
              && dst[..][n + res..] == was[n + res..]
    ensures res <= 0 ==> goal == dst[..][..n] && dst[..][n..] == was[n..]
  {
    hide EncodeOne, Upper, DecodeOne, Rest, EncodeAll, Fitting, UpperAll, DecodeAll;
    ghost var mem, room := dst[..], dstlen - n;
    var decoded := DecodeOne(src[i..]);
    if !decoded.Char? {
      RestEnd(src, i, room);
      return 0, 0;
    }
    RestStep(src, i, room);
    len := decoded.len;
    var w := Upper(decoded.w);
    res := PutChar(w, dst, n, dstlen);
    if res > 0 {
      Written(was, mem, dst[..], n, EncodeOne(w), Rest(src, i + len, room - res), goal);
    }
  }

  method FoldLoop(src: seq<Byte>, dst: array<Byte>, dstlen: nat) returns (n: nat)
    requires dstlen <= dst.Length
    modifies dst
    ensures n <= dstlen
    ensures dst[..][..n] == Rest(src, 0, dstlen)
    ensures dst[..][n..] == old(dst[..])[n..]
  {
    hide Rest;
    ghost var was, goal := dst[..], Rest(src, 0, dstlen);
    var i := 0;
    n := 0;
    while i < |src|
      invariant i <= |src| && n <= dstlen
      invariant goal == dst[..][..n] + Rest(src, i, dstlen - n)
      invariant dst[..][n..] == was[n..]
      decreases |src| - i
    {
      var len, res := FoldOne(src, dst, dstlen, i, n, was, goal);
      if res <= 0 {
        return;
      }
      i, n := i + len, n + res;
    }
    RestEnd(src, i, dstlen - n);
  }

  // ---------------------------------------------------------------------
  // C strings
  // ---------------------------------------------------------------------

  /** The C string that starts at the front of a block of memory. */
  function CString(mem: seq<Byte>): seq<Byte> {
    if mem == [] || mem[0] == 0 then [] else [mem[0]] + CString(mem[1..])
  }

  lemma {:induction false} CStringOf(s: seq<Byte>, junk: seq<Byte>)
    requires 0 !in s
    ensures CString(s + [0] + junk) == s
  {
    if s == [] {
    } else {
      assert (s + [0] + junk)[1..] == s[1..] + [0] + junk;
      CStringOf(s[1..], junk);
    }
  }

  method StrLen(mem: seq<Byte>) returns (len: nat)
    requires 0 in mem
    ensures len < |mem| && mem[len] == 0 && 0 !in mem[..len]
    ensures mem[..len] == CString(mem)
  {
    len := 0;
    while mem[len] != 0
      invariant len < |mem| && 0 !in mem[..len]
      invariant exists j :: len <= j < |mem| && mem[j] == 0
      decreases |mem| - len
    {
      len := len + 1;
    }
    CStringOf(mem[..len], mem[len + 1..]);
    assert mem == mem[..len] + [0] + mem[len + 1..];
  }

  /** A buffer that holds the upper-cased text and a terminator. */
  lemma Terminated(dst: seq<Byte>, n: nat, text: seq<Byte>)
    requires n < |dst| && dst[..n] == CaseUp(text) && dst[n] == 0
    ensures CaseUp(text) + [0] <= dst
    ensures 0 !in text ==> CString(dst) == CaseUp(text)
  {
    hide CaseUp;
    assert dst == CaseUp(text) + [0] + dst[n + 1..];
    CaseUpLength(text);
    if 0 !in text {
      CStringOf(CaseUp(text), dst[n + 1..]);
    }
  }

  /** utf8_strup: the upper-cased text and a terminator, in a new buffer. A length of 0 stands for a C string. */
  method StrUp(mem: seq<Byte>, srclen: nat) returns (dst: array<Byte>)
    requires srclen <= |mem| && (srclen == 0 ==> 0 in mem)
    ensures fresh(dst)
    ensures srclen == 0 ==> dst.Length == 4 * |CString(mem)| + 1 && CString(dst[..]) == CaseUp(CString(mem))
    ensures srclen > 0 ==> dst.Length == 4 * srclen + 1 && CaseUp(mem[..srclen]) + [0] <= dst[..]
    ensures srclen > 0 && 0 !in mem[..srclen] ==> CString(dst[..]) == CaseUp(mem[..srclen])
  {
    hide CaseUp, Fitting, EncodeAll, UpperAll, DecodeAll, CString;
    var len := srclen;
    if srclen == 0 {
      len := StrLen(mem);
    }
    var text := mem[..len];
    var dstlen := len * 4;
    dst := new Byte[dstlen + 1];
    var n := CaseUpUtf8(text, dst, dstlen);
    dst[n] := 0;
    Terminated(dst[..], n, text);
  }

  // ---------------------------------------------------------------------
  // What upper-casing tells apart
  // ---------------------------------------------------------------------

  /** Two texts fold alike exactly when their characters have the same upper cases. */
  lemma SameCaseUpIff(a: seq<Byte>, b: seq<Byte>)
    ensures CaseUp(a) == CaseUp(b) <==> UpperAll(DecodeAll(a)) == UpperAll(DecodeAll(b))
  {
    hide EncodeAll, UpperAll, DecodeAll;
    EncodedBack(UpperAll(DecodeAll(a)));
    EncodedBack(UpperAll(DecodeAll(b)));
  }

  lemma EncodedBack(ws: seq<Code>)
    ensures DecodeAll(EncodeAll(ws)) == ws
  {
    DecodeAllEncoded(ws, []);
    assert DecodeAll([]) == [];
    hide DecodeAll, EncodeAll;
    assert EncodeAll(ws) + [] == EncodeAll(ws) && ws + [] == ws;
  }

  predicate IsAscii(s: seq<Byte>) {
    forall i | 0 <= i < |s| :: s[i] < 0x80
  }

  /** The same character, or the two cases of one of the letters A to Z. */
  predicate SameLetter(x: Byte, y: Byte) {
    x == y || (0x41 <= x <= 0x5a && y == x + 0x20) || (0x41 <= y <= 0x5a && x == y + 0x20)
  }

  predicate SameText(a: seq<Byte>, b: seq<Byte>) {
    |a| == |b| && forall i | 0 <= i < |a| :: SameLetter(a[i], b[i])
  }

  function AsciiUp(b: Byte): Byte {
    if 0x61 <= b <= 0x7a then b - 0x20 else b
  }

  lemma {:induction false} CaseUpAscii(s: seq<Byte>)
    requires IsAscii(s)
    ensures |CaseUp(s)| == |s| && forall i | 0 <= i < |s| :: CaseUp(s)[i] == AsciiUp(s[i])
  {
    if s == [] {
    } else {
      CaseUpHead(s);
      hide CaseUp;
      CaseUpAscii(s[1..]);
    }
  }

  lemma CaseUpHead(s: seq<Byte>)
    requires s != [] && s[0] < 0x80
    ensures CaseUp(s) == [AsciiUp(s[0])] + CaseUp(s[1..])
  {
    OneAscii(s[0]);
    hide Upper, EncodeOne;
    var w, later := s[0] as Code, DecodeAll(s[1..]);
    assert DecodeAll(s) == [w] + later;
    assert ([w] + later)[1..] == later;
    var ups := UpperAll(later);
    assert UpperAll([w] + later) == [Upper(w)] + ups;
    assert ([Upper(w)] + ups)[1..] == ups;
  }

  lemma OneAscii(b: Byte)
    requires b < 0x80
    ensures EncodeOne(Upper(b as Code)) == [AsciiUp(b)]
  {
    AsciiUpper(b as Code);
    hide Upper;
  }

  /** ASCII texts fold alike exactly when they are equal up to the case of their letters. */
  lemma AsciiFoldIff(a: seq<Byte>, b: seq<Byte>)
    requires IsAscii(a) && IsAscii(b)
    ensures CaseUp(a) == CaseUp(b) <==> SameText(a, b)
  {
    hide CaseUp;
    CaseUpAscii(a);
    CaseUpAscii(b);
    forall x: Byte, y: Byte ensures AsciiUp(x) == AsciiUp(y) <==> SameLetter(x, y) {
      SameLetterIff(x, y);
    }
    if CaseUp(a) == CaseUp(b) {
      assert forall i | 0 <= i < |a| :: AsciiUp(a[i]) == AsciiUp(b[i]);
    }
  }

  lemma SameLetterIff(x: Byte, y: Byte)
    ensures AsciiUp(x) == AsciiUp(y) <==> SameLetter(x, y)
  {
  }
}
