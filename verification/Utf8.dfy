/**
  The UTF-8 codec of the connector, limited to three octets
  (section 2 of RFC 2279).
  */
module Utf8 {
  type Byte = bv8
  type Code = bv16

  // ---------------------------------------------------------------------
  // Bits: the fields of the octets, and the characters made from them
  // ---------------------------------------------------------------------

  function Lead2(w: Code): Byte requires w < 0x800 { (0xc0 | (w >> 6)) as Byte }
  function Lead3(w: Code): Byte { (0xe0 | (w >> 12)) as Byte }
  function Middle(w: Code): Byte { (0x80 | ((w >> 6) & 0x3f)) as Byte }
  function Tail(w: Code): Byte { (0x80 | (w & 0x3f)) as Byte }

  predicate IsTail(b: Byte) { b ^ 0x80 < 0x40 }
  function Join2(a: Byte, b: Byte): Code { ((a & 0x1f) as Code << 6) | (b ^ 0x80) as Code }
  function Join3(a: Byte, b: Byte, c: Byte): Code {
    ((a & 0x0f) as Code << 12) | ((b ^ 0x80) as Code << 6) | (c ^ 0x80) as Code
  }

  lemma Split2(w: Code)
    requires 0x80 <= w < 0x800
    ensures 0xc2 <= Lead2(w) < 0xe0 && IsTail(Tail(w)) && Join2(Lead2(w), Tail(w)) == w
  {
  }

  lemma Split3(w: Code)
    requires 0x800 <= w
    ensures 0xe0 <= Lead3(w) < 0xf0 && IsTail(Middle(w)) && IsTail(Tail(w))
    ensures Lead3(w) >= 0xe1 || Middle(w) >= 0xa0
    ensures Join3(Lead3(w), Middle(w), Tail(w)) == w
  {
  }

  lemma Unsplit2(a: Byte, b: Byte)
    requires 0xc2 <= a < 0xe0 && IsTail(b)
    ensures 0x80 <= Join2(a, b) < 0x800 && Lead2(Join2(a, b)) == a && Tail(Join2(a, b)) == b
  {
  }

  lemma Unsplit3(a: Byte, b: Byte, c: Byte)
    requires 0xe0 <= a < 0xf0 && IsTail(b) && IsTail(c) && (a >= 0xe1 || b >= 0xa0)
    ensures 0x800 <= Join3(a, b, c)
    ensures Lead3(Join3(a, b, c)) == a && Middle(Join3(a, b, c)) == b && Tail(Join3(a, b, c)) == c
  {
  }

  // ---------------------------------------------------------------------
  // One character
  // ---------------------------------------------------------------------

  datatype Decoded = Char(w: Code, len: nat) | IllegalSequence | TooSmall(need: nat)

  /** my_utf8_uni: one character from the front of s. */
  function DecodeOne(s: seq<Byte>): Decoded {
    if |s| == 0 then TooSmall(1)
    else
      var c := s[0];
      if c < 0x80 then Char(c as Code, 1)
      else if c < 0xc2 then IllegalSequence
      else if c < 0xe0 then
        if |s| < 2 then TooSmall(2)
        else if !IsTail(s[1]) then IllegalSequence
        else Char(Join2(c, s[1]), 2)
      else if c < 0xf0 then
        if |s| < 3 then TooSmall(3)
        else if !(IsTail(s[1]) && IsTail(s[2]) && (c >= 0xe1 || s[1] >= 0xa0)) then IllegalSequence
        else Char(Join3(c, s[1], s[2]), 3)
      else IllegalSequence
  }

  /** The octet sequence of a character value, from the table in section 2 of RFC 2279. */
  function EncodeOne(w: Code): seq<Byte> {
    if w < 0x80 then [w as Byte]
    else if w < 0x800 then [Lead2(w), Tail(w)]
    else [Lead3(w), Middle(w), Tail(w)]
  }

  /** Decoding an encoded character gives it back, whatever follows it. */
  lemma DecodeEncode(w: Code, rest: seq<Byte>)
    ensures DecodeOne(EncodeOne(w) + rest) == Char(w, |EncodeOne(w)|)
  {
    hide Lead2, Lead3, Middle, Tail, IsTail, Join2, Join3;
    if w < 0x80 {
    } else if w < 0x800 {
      Split2(w);
    } else {
      Split3(w);
    }
  }

  /** Whatever was decoded is encoded to the very octets it was read from: no overlong form is accepted. */
  lemma EncodeDecode(s: seq<Byte>)
    requires DecodeOne(s).Char?
    ensures 0 < DecodeOne(s).len <= |s|
    ensures EncodeOne(DecodeOne(s).w) == s[..DecodeOne(s).len]
  {
    hide Lead2, Lead3, Middle, Tail, IsTail, Join2, Join3;
    var c := s[0];
    if c < 0x80 {
    } else if c < 0xe0 {
      Unsplit2(c, s[1]);
    } else {
      Unsplit3(c, s[1], s[2]);
    }
  }

  /** Exactly one octet sequence is accepted for each character value. */
  lemma OneFormEach(w: Code, s: seq<Byte>)
    ensures DecodeOne(s) == Char(w, |s|) <==> s == EncodeOne(w)
  {
    DecodeEncode(w, []);
    assert EncodeOne(w) + [] == EncodeOne(w);
    if DecodeOne(s) == Char(w, |s|) {
      EncodeDecode(s);
      assert s[..|s|] == s;
    }
  }

  /** A character cut short is told apart from one that is wrong, with the octets it needs. */
  lemma CutShort(w: Code, k: nat)
    requires k < |EncodeOne(w)|
    ensures DecodeOne(EncodeOne(w)[..k]) == TooSmall(if k == 0 then 1 else |EncodeOne(w)|)
  {
    hide Lead2, Lead3, Middle, Tail, IsTail, Join2, Join3;
    if w < 0x80 {
    } else if w < 0x800 {
      Split2(w);
    } else {
      Split3(w);
    }
  }

  /** An illegal sequence stays illegal whatever follows, and a short one is short of what it asks for. */
  lemma IllegalForGood(s: seq<Byte>, t: seq<Byte>)
    ensures DecodeOne(s).IllegalSequence? ==> DecodeOne(s + t).IllegalSequence?
    ensures DecodeOne(s).TooSmall? ==> |s| < DecodeOne(s).need
  {
    hide IsTail, Join2, Join3;
    assert s != [] ==> (s + t)[0] == s[0];
    assert |s| > 1 ==> (s + t)[1] == s[1];
    assert |s| > 2 ==> (s + t)[2] == s[2];
  }

  // ---------------------------------------------------------------------
  // my_uni_utf8: the encoder that falls through its cases
  // ---------------------------------------------------------------------

  /** What the two fall-through cases leave in wc. */
  function Shifted(wc: bv32, mark: bv32): bv32 { (wc >> 6) | mark }
  function Low6(wc: bv32): Byte { (0x80 | (wc & 0x3f)) as Byte }

  lemma FallThrough2(w: bv32)
    requires 0x80 <= w < 0x800
    ensures Shifted(w, 0xc0) < 0x100 && Shifted(w, 0xc0) as Byte == Lead2(w as Code) && Low6(w) == Tail(w as Code)
  {
  }

  lemma FallThrough3(w: bv32)
    requires 0x800 <= w < 0x10000
    ensures Low6(w) == Tail(w as Code) && Low6(Shifted(w, 0x800)) == Middle(w as Code)
    ensures Shifted(Shifted(w, 0x800), 0xc0) < 0x100
    ensures Shifted(Shifted(w, 0x800), 0xc0) as Byte == Lead3(w as Code)
  {
  }

  /** How many octets my_uni_utf8 wants for a value, or 0 if it cannot encode it. */
  function CountFor(wc: bv32): int {
    if wc < 0x80 then 1 else if wc < 0x800 then 2 else if wc < 0x10000 then 3 else 0
  }

  /** my_uni_utf8(code, r + at, r + end) */
  method UniUtf8(code: bv32, r: array<Byte>, at: nat, end: nat) returns (res: int)
    requires at <= end <= r.Length
    modifies r
    ensures at == end ==> res == -101
    ensures at < end && code >= 0x10000 ==> res == 0
    ensures at < end && code < 0x10000 ==>
              var octets := EncodeOne(code as Code);
              if at + |octets| > end then res == -100 - |octets|
              else res == |octets| && r[..] == old(r[..])[..at] + octets + old(r[..])[at + |octets|..]
    ensures res <= 0 ==> r[..] == old(r[..])
  {
    hide Lead2, Lead3, Middle, Tail, Shifted, Low6;
    if at >= end {
      return -101;
    }
    var count := CountFor(code);
    if count == 0 {
      return 0;
    }
    if at + count > end {
      return -100 - count;
    }
    var wc := code;
    if count >= 3 {
      FallThrough3(code);
      r[at + 2] := Low6(wc);
      wc := Shifted(wc, 0x800);
    } else if count == 2 {
      FallThrough2(code);
    }
    if count >= 2 {
      r[at + 1] := Low6(wc);
      wc := Shifted(wc, 0xc0);
    }
    r[at] := wc as Byte;
    res := count;
  }
}
